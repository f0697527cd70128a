/**
 * The persisted settings (src/request/config.rs): an API key and a language
 * kept in one JSON file, read by `get_config`, written by `set_config`, and
 * repaired interactively by `invalid_config` when the file does not decode.
 *
 * The file is an in-memory `Option<Contents>` and standard input a sequence of
 * lines. JSON is not modelled: `Contents` records whether the text is the
 * encoding of some `NewsConfig` (decoding then gives back exactly that record)
 * or text that does not decode.
 */
module Config {
  import opened Options

  datatype NewsConfig = NewsConfig(apikey: string, language: string)

  /** The record `set_config` starts from when it does not recover the old one. */
  const Default: NewsConfig := NewsConfig("", "en")

  /** What the file holds: an encoded record, or text that does not decode (an empty file, say). */
  datatype Contents = Encoded(config: NewsConfig) | Undecodable(text: string)

  /** One read from standard input: the line read (with its newline), or a read error. */
  datatype InputLine = Line(text: string) | Unreadable

  /** The file, and what is still to be read on standard input. */
  datatype Store = Store(file: Option<Contents>, input: seq<InputLine>)

  datatype ConfigError = ReadFailed
  datatype PanicReason = NoConfig | Aborted

  /** A returned value, a returned error, or a panic that unwinds the program. */
  datatype Outcome<T> = Ok(value: T) | Err(error: ConfigError) | Panic(reason: PanicReason)

  /** `input.replace("\n", "")`. */
  function WithoutNewlines(t: string): (r: string)
    ensures '\n' !in r && |r| <= |t|
    ensures forall c :: c != '\n' ==> (c in r <==> c in t)
    ensures '\n' !in t ==> r == t
    ensures |t| == 1 ==> r == (if t[0] == '\n' then "" else t)
  {
    if |t| == 0 then ""
    else if t[0] == '\n' then WithoutNewlines(t[1..])
    else [t[0]] + WithoutNewlines(t[1..])
  }

  /** Removing newlines from two pieces separately and joining the results removes them from the whole. */
  lemma {:induction false} WithoutNewlinesAppend(a: string, b: string)
    ensures WithoutNewlines(a + b) == WithoutNewlines(a) + WithoutNewlines(b)
    decreases |a|
  {
    if |a| == 0 {
      assert a + b == b;
    } else {
      assert (a + b)[0] == a[0] && (a + b)[1..] == a[1..] + b;
      WithoutNewlinesAppend(a[1..], b);
      var x, y := WithoutNewlines(a[1..]), WithoutNewlines(b);
      if a[0] != '\n' {
        assert [a[0]] + (x + y) == [a[0]] + x + y;
      }
    }
  }

  /**
   * A line typed and ended with Enter reads as what was typed: `"1\n"` resets,
   * `"2\n"` aborts, `"\n"` resets.
   */
  lemma TypedLine(t: string)
    requires '\n' !in t
    ensures WithoutNewlines(t + "\n") == t
    ensures t == "1" || t == "" ==> Verdict(Line(t + "\n")) == Some(Reset)
    ensures t == "2" ==> Verdict(Line(t + "\n")) == Some(Abort)
    ensures t != "1" && t != "" && t != "2" ==> Verdict(Line(t + "\n")).None?
  {
    WithoutNewlinesAppend(t, "\n");
  }

  /** The `i`-th read: past the end of input, `read_line` gives the empty line. */
  function Read(input: seq<InputLine>, i: nat): InputLine {
    if i < |input| then input[i] else Line("")
  }

  datatype Decision = Reset | Abort | Failure

  /** What one read decides in `invalid_config`, or `None` when it prompts again. */
  function Verdict(line: InputLine): Option<Decision> {
    match line
    case Unreadable => Some(Failure)
    case Line(t) =>
      var k := WithoutNewlines(t);
      if k == "1" || k == "" then Some(Reset)
      else if k == "2" then Some(Abort)
      else None
  }

  /**
   * The index of the read that ends the prompt loop: the first decisive one.
   * It always exists, since the end of input reads as the empty line.
   */
  function Choose(input: seq<InputLine>): (n: nat)
    ensures n <= |input|
    ensures Verdict(Read(input, n)).Some?
    ensures forall i :: 0 <= i < n ==> Verdict(input[i]).None?
  {
    if |input| == 0 || Verdict(input[0]).Some? then 0
    else
      var m := Choose(input[1..]);
      assert forall i :: 1 <= i < m + 1 ==> input[i] == input[1..][i - 1];
      m + 1
  }

  /** The input left after the `n`-th read. */
  function After(input: seq<InputLine>, n: nat): seq<InputLine> {
    if n < |input| then input[n + 1..] else []
  }

  /** `set_config`'s overlay: a supplied field replaces the old one. */
  function Merge(c: NewsConfig, key: Option<string>, lang: Option<string>): (m: NewsConfig)
    ensures key.Some? ==> m.apikey == key.value
    ensures key.None? ==> m.apikey == c.apikey
    ensures lang.Some? ==> m.language == lang.value
    ensures lang.None? ==> m.language == c.language
  {
    var m := if key.Some? then c.(apikey := key.value) else c;
    if lang.Some? then m.(language := lang.value) else m
  }

  predicate Corrupt(s: Store) {
    s.file.Some? && s.file.value.Undecodable?
  }

  /**
   * `get_config`: panics without a file, returns the decoded record, or hands
   * an undecodable file to `invalid_config`. A record it returns is what the
   * file then holds.
   */
  function Load(s: Store): (r: (Outcome<NewsConfig>, Store))
    ensures |r.1.input| <= |s.input|
    ensures r.0.Ok? ==> r.1.file == Some(Encoded(r.0.value))
    ensures s.file.None? ==> r == (Panic(NoConfig), s)
    ensures s.file.Some? ==> r.1.file.Some?
    ensures s.file.Some? && s.file.value.Encoded? ==> r == (Ok(s.file.value.config), s)
    ensures Corrupt(s) ==> r == Repair(s)
    decreases |s.input|, if Corrupt(s) then 3 else 1
  {
    match s.file
    case None => (Panic(NoConfig), s)
    case Some(Encoded(c)) => (Ok(c), s)
    case Some(Undecodable(_)) => Repair(s)
  }

  /**
   * `invalid_config`: reads lines until one decides. A reset truncates the
   * file, saves the default record and loads it back; "2" panics; a read
   * error is returned.
   */
  function Repair(s: Store): (r: (Outcome<NewsConfig>, Store))
    requires s.file.Some?
    ensures |r.1.input| <= |s.input|
    ensures r.0.Ok? ==> r.1.file == Some(Encoded(r.0.value))
    ensures r.1.file.Some?
    decreases |s.input|, 2
  {
    var line := Read(s.input, 0);
    var rest := After(s.input, 0);
    match Verdict(line)
    case Some(Failure) => (Err(ReadFailed), s.(input := rest))
    case Some(Abort) => (Panic(Aborted), s.(input := rest))
    case Some(Reset) =>
      var (_, saved) := Save(Store(Some(Undecodable("")), rest), None, None, false);
      Load(saved)
    case None => Repair(s.(input := rest))
  }

  /**
   * `set_config`: creates a missing file, picks the starting record (the
   * stored one when recovering and it loads, the default otherwise), overlays
   * the supplied fields and writes the result.
   */
  function Save(s: Store, key: Option<string>, lang: Option<string>, recover: bool): (r: (Outcome<()>, Store))
    ensures |r.1.input| <= |s.input|
    ensures r.1.file.Some?
    ensures r.0.Ok? ==> r.1.file.value.Encoded?
    ensures r.0.Ok? || r.0.Panic?
    decreases |s.input|, if recover then 4 else 0
  {
    var created := if s.file.None? then s.(file := Some(Undecodable(""))) else s;
    if recover then
      var (loaded, after) := Load(created);
      match loaded
      case Ok(c) => (Ok(()), after.(file := Some(Encoded(Merge(c, key, lang)))))
      case Err(_) => (Ok(()), after.(file := Some(Encoded(Merge(Default, key, lang)))))
      case Panic(p) => (Panic(p), after)
    else
      (Ok(()), created.(file := Some(Encoded(Merge(Default, key, lang)))))
  }

  /**
   * The prompt loop's result is decided by its first decisive read: a reset
   * leaves the default record stored, an abort or a read error leaves the
   * file as it was; the reads up to the decisive one are consumed.
   */
  lemma {:induction false} RepairByChoice(s: Store)
    requires s.file.Some?
    ensures var n := Choose(s.input);
      var rest := After(s.input, n);
      Repair(s) == match Verdict(Read(s.input, n)).value
        case Reset => (Ok(Default), Store(Some(Encoded(Default)), rest))
        case Abort => (Panic(Aborted), s.(input := rest))
        case Failure => (Err(ReadFailed), s.(input := rest))
    decreases |s.input|
  {
    if |s.input| > 0 && Verdict(s.input[0]).None? {
      var t := s.(input := s.input[1..]);
      RepairByChoice(t);
      assert Choose(s.input) == Choose(t.input) + 1;
      assert After(s.input, Choose(s.input)) == After(t.input, Choose(t.input));
    }
  }

  /** Without recovery, the file's old contents (and whether it exists) do not matter. */
  lemma SaveIgnoresFile(s: Store, key: Option<string>, lang: Option<string>)
    ensures Save(s, key, lang, false) == (Ok(()), s.(file := Some(Encoded(Merge(Default, key, lang)))))
  {
  }

  /** Recovering from a readable file keeps its fields unless replaced, and reads nothing. */
  lemma SaveRecovers(s: Store, c: NewsConfig, key: Option<string>, lang: Option<string>)
    requires s.file == Some(Encoded(c))
    ensures Save(s, key, lang, true) == (Ok(()), s.(file := Some(Encoded(Merge(c, key, lang)))))
  {
  }

  /**
   * Recovering when there is no file: the file is created empty, which does
   * not decode, so the user is prompted exactly as for a corrupt file.
   */
  lemma SaveRecoverWithoutFile(s: Store, key: Option<string>, lang: Option<string>)
    requires s.file.None?
    ensures Save(s, key, lang, true) == Save(s.(file := Some(Undecodable(""))), key, lang, true)
    ensures var n := Choose(s.input);
      Verdict(Read(s.input, n)) == Some(Abort) ==> Save(s, key, lang, true).0 == Panic(Aborted)
  {
    RepairByChoice(s.(file := Some(Undecodable(""))));
  }

  /**
   * After a `set_config` that returns, `get_config` finds the file, decodes it
   * without prompting and returns the record written, which carries every
   * field supplied.
   */
  lemma SaveThenLoad(s: Store, key: Option<string>, lang: Option<string>, recover: bool)
    requires Save(s, key, lang, recover).0.Ok?
    ensures var t := Save(s, key, lang, recover).1;
      t.file.Some? && Load(t) == (Ok(t.file.value.config), t)
    ensures var c := Save(s, key, lang, recover).1.file.value.config;
      (key.Some? ==> c.apikey == key.value) && (lang.Some? ==> c.language == lang.value)
  {
    var created := if s.file.None? then s.(file := Some(Undecodable(""))) else s;
    if recover {
      var loaded := Load(created).0;
      var c := Save(s, key, lang, recover).1.file.value.config;
      assert c == Merge(if loaded.Ok? then loaded.value else Default, key, lang);
    }
  }

  /**
   * Recovering from an undecodable file: whether the user resets or the read
   * fails, `get_config` does not return the stored record, so the supplied
   * fields are overlaid on the default.
   */
  lemma SaveRecoversCorrupt(s: Store, key: Option<string>, lang: Option<string>)
    requires Corrupt(s) && Save(s, key, lang, true).0.Ok?
    ensures Save(s, key, lang, true).1.file == Some(Encoded(Merge(Default, key, lang)))
  {
    RepairByChoice(s);
  }

  /** A record that loads stays put: loading again returns it and reads nothing. */
  lemma LoadStable(s: Store)
    requires Load(s).0.Ok?
    ensures Load(Load(s).1) == Load(s)
  {
  }

  /** Overlaying the same fields twice is overlaying them once; overlaying nothing changes nothing. */
  lemma MergeIdempotent(c: NewsConfig, key: Option<string>, lang: Option<string>)
    ensures Merge(Merge(c, key, lang), key, lang) == Merge(c, key, lang)
    ensures Merge(c, None, None) == c
  {
  }

  /** The settings file and standard input of one run. */
  class ConfigStore {
    var file: Option<Contents>
    var input: seq<InputLine>

    constructor (file: Option<Contents>, input: seq<InputLine>)
      ensures this.file == file && this.input == input
    {
      this.file := file;
      this.input := input;
    }

    function State(): Store
      reads this
    {
      Store(file, input)
    }

    /** `get_config`. */
    method GetConfig() returns (r: Outcome<NewsConfig>)
      modifies this
      ensures (r, State()) == Load(old(State()))
      decreases |input|, if Corrupt(State()) then 3 else 1
    {
      match file {
        case None =>
          r := Panic(NoConfig);
        case Some(Encoded(c)) =>
          r := Ok(c);
        case Some(Undecodable(_)) =>
          r := InvalidConfig();
      }
    }

    /** `invalid_config`: the prompt loop. */
    method InvalidConfig() returns (r: Outcome<NewsConfig>)
      requires file.Some?
      modifies this
      ensures (r, State()) == Repair(old(State()))
      decreases |input|, 2
    {
      while true
        invariant file == old(file) && |input| <= old(|input|)
        invariant Repair(State()) == Repair(old(State()))
        decreases |input|
      {
        var line := Read(input, 0);
        input := After(input, 0);
        match line {
          case Unreadable =>
            return Err(ReadFailed);
          case Line(t) =>
            var k := WithoutNewlines(t);
            if k == "1" || k == "" {
              file := Some(Undecodable(""));
              var _ := SetConfig(None, None, false);
              r := GetConfig();
              return;
            } else if k == "2" {
              return Panic(Aborted);
            }
        }
      }
    }

    /** `set_config`. */
    method SetConfig(key: Option<string>, lang: Option<string>, recover: bool) returns (r: Outcome<()>)
      modifies this
      ensures (r, State()) == Save(old(State()), key, lang, recover)
      decreases |input|, if recover then 4 else 0
    {
      if file.None? {
        file := Some(Undecodable(""));
      }
      var config := Default;
      if recover {
        var loaded := GetConfig();
        match loaded {
          case Ok(c) => config := c;
          case Err(_) =>
          case Panic(p) => return Panic(p);
        }
      }
      if key.Some? {
        config := config.(apikey := key.value);
      }
      if lang.Some? {
        config := config.(language := lang.value);
      }
      file := Some(Encoded(config));
      r := Ok(());
    }
  }
}
