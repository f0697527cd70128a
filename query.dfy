/**
 * Query strings as both URL builders write them: `key=value` pairs joined by
 * `&`, with neither keys nor values escaped. A builder is specified by the
 * list of pairs it emits; `ParseQuery` reads such a string back.
 */
module Query {
  import opened Options

  /** Scheme, host and API version that both builders start from. */
  const Host: string := "https://newsapi.org/v2/"

  /** The query parameters of newsapi.org that either builder emits. */
  datatype Key =
    | ApiKey          // `apiKey`, as src/main.rs spells it
    | ApiKeyLowercase // `apikey`, as src/request.rs spells it
    | Language | From | PageSize | Country | Category | Sources | Q

  function Name(k: Key): (s: string)
    ensures |s| > 0 && '&' !in s && '=' !in s
  {
    match k
    case ApiKey => "apiKey"
    case ApiKeyLowercase => "apikey"
    case Language => "language"
    case From => "from"
    case PageSize => "pageSize"
    case Country => "country"
    case Category => "category"
    case Sources => "sources"
    case Q => "q"
  }

  datatype Param = Param(key: Key, value: string)

  function Render(p: Param): string {
    Name(p.key) + "=" + p.value
  }

  /** The pairs separated by `&`. */
  function Join(ps: seq<Param>): string {
    if |ps| == 0 then ""
    else if |ps| == 1 then Render(ps[0])
    else Render(ps[0]) + "&" + Join(ps[1..])
  }

  /** Each pair followed by `&`. */
  function Terminated(ps: seq<Param>): string {
    if |ps| == 0 then "" else Terminated(ps[..|ps| - 1]) + Render(ps[|ps| - 1]) + "&"
  }

  /** The one-pair list for a present value, the empty list for an absent one. */
  function Opt(key: Key, value: Option<string>): (ps: seq<Param>)
    ensures forall p :: p in ps <==> p.key == key && value == Some(p.value)
  {
    if value.Some? then [Param(key, value.value)] else []
  }

  lemma Regroup5Amp(h: string, amp: string, t: string, r: string)
    ensures h + amp + (t + amp + r) == h + amp + t + amp + r
  {
  }

  /** Appending a pair to a non-empty list appends `&key=value` to its join. */
  lemma {:induction false} JoinSnoc(ps: seq<Param>, p: Param)
    requires |ps| > 0
    ensures Join(ps + [p]) == Join(ps) + "&" + Render(p)
    decreases |ps|
  {
    var qs := ps + [p];
    if |ps| == 1 {
      assert qs[1..] == [p];
      assert Join(qs) == Render(ps[0]) + "&" + Join([p]);
    } else {
      assert qs[1..] == ps[1..] + [p];
      JoinSnoc(ps[1..], p);
      var h, t, r := Render(ps[0]), Join(ps[1..]), Render(p);
      assert Join(qs) == h + "&" + (t + "&" + r);
      Regroup5Amp(h, "&", t, r);
    }
  }

  /**
   * Appending `lit + v`, where `lit` spells `&key=`, to a prefix followed by
   * the join of `ps` gives the join of `ps` with `key=v` added at the end.
   */
  lemma Extend(base: string, prefix: string, ps: seq<Param>, k: Key, lit: string, v: string)
    requires |ps| > 0 && base == prefix + Join(ps) && lit == Lead(k)
    ensures base + lit + v == prefix + Join(ps + [Param(k, v)])
  {
    JoinSnoc(ps, Param(k, v));
    Regroup(base, prefix, Join(ps), Name(k), v);
  }

  /** `&key=`, as the builders' format strings spell it. */
  function Lead(k: Key): (s: string)
    ensures s == "&" + Name(k) + "="
  {
    match k
    case ApiKey => "&apiKey="
    case ApiKeyLowercase => "&apikey="
    case Language => "&language="
    case From => "&from="
    case PageSize => "&pageSize="
    case Country => "&country="
    case Category => "&category="
    case Sources => "&sources="
    case Q => "&q="
  }

  lemma Regroup(base: string, prefix: string, j: string, n: string, v: string)
    requires base == prefix + j
    ensures base + ("&" + n + "=") + v == prefix + (j + "&" + (n + "=" + v))
  {
  }

  /** One `format!("{}k={}&", link, v)` step extends the terminated pairs by one. */
  lemma AppendTerminated(link: string, prefix: string, ps: seq<Param>, p: Param)
    requires link == prefix + Terminated(ps)
    ensures link + Name(p.key) + "=" + p.value + "&" == prefix + Terminated(ps + [p])
  {
    assert (ps + [p])[..|ps|] == ps;
    var t, n, v := Terminated(ps), Name(p.key), p.value;
    assert Terminated(ps + [p]) == t + (n + "=" + v) + "&";
    Regroup5(prefix, t, n, v);
  }

  lemma Regroup5(prefix: string, t: string, n: string, v: string)
    ensures prefix + t + n + "=" + v + "&" == prefix + (t + (n + "=" + v) + "&")
  {
  }

  lemma Regroup4(t: string, r: string, amp: string, j: string)
    ensures t + (r + amp + j) == t + r + amp + j
  {
  }

  /** Joining `a + b` writes `a` with a `&` after each pair, then joins `b`. */
  lemma {:induction false} JoinAppend(a: seq<Param>, b: seq<Param>)
    requires |b| > 0
    ensures Join(a + b) == Terminated(a) + Join(b)
    decreases |a|
  {
    if |a| > 0 {
      var init, last := a[..|a| - 1], a[|a| - 1];
      assert a + b == init + ([last] + b);
      JoinAppend(init, [last] + b);
      assert ([last] + b)[1..] == b;
      var t, r, j := Terminated(init), Render(last), Join(b);
      assert Join([last] + b) == r + "&" + j;
      assert a[..|a| - 1] == init;
      assert Terminated(a) == t + r + "&";
      Regroup4(t, r, "&", j);
    } else {
      assert a + b == b;
    }
  }

  /** Splits at every occurrence of `sep`. */
  function Split(s: string, sep: char): (parts: seq<string>)
    ensures |parts| >= 1
  {
    if |s| == 0 then [""]
    else if s[0] == sep then [""] + Split(s[1..], sep)
    else
      var rest := Split(s[1..], sep);
      [[s[0]] + rest[0]] + rest[1..]
  }

  /** Splits at the first occurrence of `sep` (the second part is empty without one). */
  function Break(s: string, sep: char): (string, string) {
    if |s| == 0 then ("", "")
    else if s[0] == sep then ("", s[1..])
    else
      var (before, after) := Break(s[1..], sep);
      ([s[0]] + before, after)
  }

  lemma {:induction false} SplitNone(a: string, sep: char)
    requires sep !in a
    ensures Split(a, sep) == [a]
    decreases |a|
  {
    if |a| > 0 {
      SplitNone(a[1..], sep);
      assert [a[0]] + a[1..] == a;
    }
  }

  lemma {:induction false} SplitFirst(a: string, sep: char, b: string)
    requires sep !in a
    ensures Split(a + [sep] + b, sep) == [a] + Split(b, sep)
    decreases |a|
  {
    var s := a + [sep] + b;
    if |a| == 0 {
      assert s[1..] == b;
    } else {
      assert s[1..] == a[1..] + [sep] + b;
      SplitFirst(a[1..], sep, b);
      assert [a[0]] + a[1..] == a;
    }
  }

  lemma {:induction false} BreakFirst(a: string, sep: char, b: string)
    requires sep !in a
    ensures Break(a + [sep] + b, sep) == (a, b)
    decreases |a|
  {
    var s := a + [sep] + b;
    if |a| == 0 {
      assert s[1..] == b;
    } else {
      assert s[1..] == a[1..] + [sep] + b;
      BreakFirst(a[1..], sep, b);
      assert [a[0]] + a[1..] == a;
    }
  }

  /** A parameter as text: its name and its value. */
  function Text(ps: seq<Param>): (ts: seq<(string, string)>)
    ensures |ts| == |ps|
  {
    if |ps| == 0 then [] else [(Name(ps[0].key), ps[0].value)] + Text(ps[1..])
  }

  function ParseParam(s: string): (string, string) {
    Break(s, '=')
  }

  function ParseAll(parts: seq<string>): (ps: seq<(string, string)>)
    ensures |ps| == |parts|
  {
    if |parts| == 0 then [] else [ParseParam(parts[0])] + ParseAll(parts[1..])
  }

  /** Reads a query string: pairs at each `&`, key and value at the first `=`. */
  function ParseQuery(q: string): seq<(string, string)> {
    ParseAll(Split(q, '&'))
  }

  /** Pairs that survive the unescaped encoding: no `&` in any value. */
  predicate Unambiguous(ps: seq<Param>) {
    forall i :: 0 <= i < |ps| ==> '&' !in ps[i].value
  }

  lemma UnambiguousAppend(a: seq<Param>, b: seq<Param>)
    requires Unambiguous(a) && Unambiguous(b)
    ensures Unambiguous(a + b)
  {
    forall i | 0 <= i < |a + b| ensures '&' !in (a + b)[i].value {
      if i >= |a| {
        assert (a + b)[i] == b[i - |a|];
      }
    }
  }

  /** A non-empty list of unambiguous pairs is read back exactly from its join. */
  lemma {:induction false} QueryRoundTrip(ps: seq<Param>)
    requires |ps| > 0 && Unambiguous(ps)
    ensures ParseQuery(Join(ps)) == Text(ps)
    decreases |ps|
  {
    var p := ps[0];
    assert '&' !in Render(p);
    BreakFirst(Name(p.key), '=', p.value);
    if |ps| == 1 {
      SplitNone(Render(p), '&');
    } else {
      SplitFirst(Render(p), '&', Join(ps[1..]));
      QueryRoundTrip(ps[1..]);
      assert [p] + ps[1..] == ps;
    }
  }

  /**
   * The keys of `ps` occur in `order` in the same order (a subsequence);
   * with distinct keys in `order`, no key repeats in `ps`.
   */
  predicate KeysFollow(ps: seq<Param>, order: seq<Key>) {
    |ps| == 0
    || (|order| > 0
        && ((ps[0].key == order[0] && KeysFollow(ps[1..], order[1..]))
            || KeysFollow(ps, order[1..])))
  }

  lemma Take(p: Param, ps: seq<Param>, order: seq<Key>)
    requires KeysFollow(ps, order)
    ensures KeysFollow([p] + ps, [p.key] + order)
  {
    assert ([p] + ps)[1..] == ps;
    assert ([p.key] + order)[1..] == order;
  }

  lemma Skip(k: Key, ps: seq<Param>, order: seq<Key>)
    requires KeysFollow(ps, order)
    ensures KeysFollow(ps, [k] + order)
  {
    assert ([k] + order)[1..] == order;
  }

  lemma TakeOpt(k: Key, v: Option<string>, ps: seq<Param>, order: seq<Key>)
    requires KeysFollow(ps, order)
    ensures KeysFollow(Opt(k, v) + ps, [k] + order)
  {
    if v.Some? {
      Take(Param(k, v.value), ps, order);
    } else {
      assert Opt(k, v) + ps == ps;
      Skip(k, ps, order);
    }
  }

  lemma {:induction false} KeysFollowIn(ps: seq<Param>, order: seq<Key>, i: int)
    requires KeysFollow(ps, order) && 0 <= i < |ps|
    ensures ps[i].key in order
    decreases |order|
  {
    if ps[0].key == order[0] && KeysFollow(ps[1..], order[1..]) {
      if i > 0 {
        KeysFollowIn(ps[1..], order[1..], i - 1);
      }
    } else {
      KeysFollowIn(ps, order[1..], i);
    }
  }

  predicate Distinct(xs: seq<Key>) {
    forall i, j :: 0 <= i < j < |xs| ==> xs[i] != xs[j]
  }

  /**
   * Pairs whose keys follow a repetition-free order are determined by which
   * pairs they contain: the order fixes their positions.
   */
  lemma {:induction false} KeysFollowDetermined(ps: seq<Param>, qs: seq<Param>, order: seq<Key>)
    requires Distinct(order) && KeysFollow(ps, order) && KeysFollow(qs, order)
    requires forall p :: p in ps <==> p in qs
    ensures ps == qs
    decreases |order|
  {
    if |ps| == 0 || |qs| == 0 {
      if |ps| > 0 {
        HeadIn(ps);
        assert false;
      } else if |qs| > 0 {
        HeadIn(qs);
        assert false;
      }
    } else {
      assert Distinct(order[1..]) by {
        forall i, j | 0 <= i < j < |order| - 1 ensures order[1..][i] != order[1..][j] {
          assert order[1..][i] == order[i + 1] && order[1..][j] == order[j + 1];
        }
      }
      var headP := ps[0].key == order[0] && KeysFollow(ps[1..], order[1..]);
      var headQ := qs[0].key == order[0] && KeysFollow(qs[1..], order[1..]);
      if headP && headQ {
        NotLater(ps[1..], order);
        NotLater(qs[1..], order);
        assert ps[0] in qs;
        assert ps[0] == qs[0];
        forall p ensures p in ps[1..] <==> p in qs[1..] {
          if p in ps[1..] { assert p.key != order[0]; assert p in qs; assert p != qs[0]; }
          if p in qs[1..] { assert p.key != order[0]; assert p in ps; assert p != ps[0]; }
        }
        KeysFollowDetermined(ps[1..], qs[1..], order[1..]);
        assert ps == [ps[0]] + ps[1..] && qs == [qs[0]] + qs[1..];
      } else if !headP && !headQ {
        KeysFollowDetermined(ps, qs, order[1..]);
      } else if headP {
        NotLater(qs, [order[0]] + order[1..]) by {
          assert [order[0]] + order[1..] == order;
        }
        assert false;
      } else {
        NotLater(ps, [order[0]] + order[1..]) by {
          assert [order[0]] + order[1..] == order;
        }
        assert false;
      }
    }
  }

  lemma HeadIn(ps: seq<Param>)
    requires |ps| > 0
    ensures ps[0] in ps
  {
  }

  /** A list following `order[1..]` holds no pair with key `order[0]`. */
  lemma NotLater(ps: seq<Param>, order: seq<Key>)
    requires |order| > 0 && Distinct(order) && KeysFollow(ps, order[1..])
    ensures forall p :: p in ps ==> p.key != order[0]
  {
    forall p | p in ps ensures p.key != order[0] {
      var i :| 0 <= i < |ps| && ps[i] == p;
      KeysFollowIn(ps, order[1..], i);
    }
  }
}
