/**
 * The binary's own URL builder and argument dispatch (src/main.rs): a flat
 * `NewsApiUrl` record rendered as a `newsapi.org/v2` URL, and `main`'s single
 * pass over the arguments deciding what to fetch. Printing and the HTTP calls
 * themselves are not modelled; the calls are returned as values.
 */
module Cli {
  import opened Options
  import opened Calendar
  import opened Query

  datatype NewsApiUrl = NewsApiUrl(
    endpoint: string,
    apiKey: string,
    country: Option<string>,
    language: Option<string>,
    query: Option<string>,
    category: Option<string>,
    sources: Option<string>)

  /** `everything` searches the articles of the last two weeks. */
  const SearchWindowDays: int := 14

  /** Every key `to_str` can emit, in the order it emits them. */
  const KeyOrder: seq<Key> := [ApiKey, Language, From, PageSize, Country, Category, Sources, Q]

  /** `NewsApiUrl::new`: headlines for the United States, no other filter. */
  function New(endpoint: string, apiKey: string): NewsApiUrl {
    NewsApiUrl(endpoint, apiKey, Some("us"), None, None, None, None)
  }

  /** The `from` date of a search made at local time `now`. */
  function FromDate(now: Timestamp): string {
    FormatYmd(DateOf(now - SearchWindowDays * SecondsPerDay))
  }

  /**
   * The `from` date reads back as the calendar day fourteen days before the
   * day of `now`.
   */
  lemma FromDateWindow(now: Timestamp)
    requires 0 <= DateOf(now - SearchWindowDays * SecondsPerDay).year <= 9999
    ensures var c := DateOf(now - SearchWindowDays * SecondsPerDay);
      ParseIsoDate(FromDate(now)) == Some(c)
      && DaysFromCivil(c) == DaysFromCivil(DateOf(now)) - SearchWindowDays
  {
    IsoDateRoundTrip(DateOf(now - SearchWindowDays * SecondsPerDay));
    DaysEarlier(now, SearchWindowDays);
  }

  /**
   * The value `to_str` gives parameter `k` of `u` when the `from` date is `date`, or
   * `None` when it leaves `k` out.
   */
  function Emitted(u: NewsApiUrl, date: string, k: Key): Option<string> {
    match k
    case ApiKey => Some(u.apiKey)
    case Language => if u.endpoint == "everything" then u.language else None
    case From => if u.endpoint == "everything" then Some(date) else None
    case PageSize => if u.endpoint == "everything" then Some("20") else None
    case Country =>
      if u.endpoint == "top-headlines" && u.sources.None? then u.country else None
    case Category => if u.endpoint == "top-headlines" then u.category else None
    case Sources => u.sources
    case Q => u.query
    case ApiKeyLowercase => None
  }

  /** The keys whose presence depends on the endpoint. */
  predicate IsModeKey(k: Key) {
    k.Language? || k.From? || k.PageSize? || k.Country? || k.Category?
  }

  /** What `to_str` emits between the key and the sources. */
  function ModeParams(u: NewsApiUrl, date: string): (m: seq<Param>)
    ensures forall p :: p in m <==> IsModeKey(p.key) && Emitted(u, date, p.key) == Some(p.value)
  {
    if u.endpoint == "everything" then
      Opt(Language, u.language) + [Param(From, date), Param(PageSize, "20")]
    else if u.endpoint == "top-headlines" then
      (if u.sources.None? then Opt(Country, u.country) else []) + Opt(Category, u.category)
    else []
  }

  /** The query parameters `to_str` emits, in emission order. */
  function Params(u: NewsApiUrl, date: string): (ps: seq<Param>)
    ensures |ps| > 0 && ps[0] == Param(ApiKey, u.apiKey)
  {
    [Param(ApiKey, u.apiKey)] + ModeParams(u, date) + Opt(Sources, u.sources) + Opt(Q, u.query)
  }

  /** `to_str` emits exactly the parameters `Emitted` names, with their values. */
  lemma ParamsEmitted(u: NewsApiUrl, date: string)
    ensures forall p :: p in Params(u, date) <==> Emitted(u, date, p.key) == Some(p.value)
  {
    var m, s, q := ModeParams(u, date), Opt(Sources, u.sources), Opt(Q, u.query);
    assert Params(u, date) == [Param(ApiKey, u.apiKey)] + m + s + q;
    forall p ensures p in Params(u, date) <==> Emitted(u, date, p.key) == Some(p.value) {
      assert p in Params(u, date) <==> p == Param(ApiKey, u.apiKey) || p in m || p in s || p in q;
    }
  }

  /** The URL `to_str` produces. */
  function Url(u: NewsApiUrl, date: string): string {
    Host + u.endpoint + "?" + Join(Params(u, date))
  }

  /**
   * `NewsApiUrl::to_str`, with the clock read replaced by `now`, the local
   * time of the call.
   */
  method ToStr(u: NewsApiUrl, now: Timestamp) returns (base: string)
    ensures base == Url(u, FromDate(now))
  {
    base := Build(u, FromDate(now));
  }

  /**
   * The body of `to_str` once the `from` date is formatted: grows the URL one
   * parameter at a time.
   */
  method Build(u: NewsApiUrl, date: string) returns (base: string)
    ensures base == Url(u, date)
  {
    ghost var prefix := Host + u.endpoint + "?";
    base := Host + u.endpoint + "?apiKey=" + u.apiKey;
    ghost var ps := [Param(ApiKey, u.apiKey)];
    assert base == prefix + Join(ps);

    base, ps := PushMode(base, prefix, ps, u, date);
    base, ps := PushOpt(base, prefix, ps, Sources, u.sources);
    base, ps := PushOpt(base, prefix, ps, Q, u.query);
  }

  /** The endpoint-dependent block of `to_str`. */
  method PushMode(base: string, ghost prefix: string, ghost ps: seq<Param>, u: NewsApiUrl, date: string)
    returns (base': string, ghost ps': seq<Param>)
    requires |ps| > 0 && base == prefix + Join(ps)
    ensures ps' == ps + ModeParams(u, date) && base' == prefix + Join(ps')
  {
    if u.endpoint == "everything" {
      base', ps' := PushOpt(base, prefix, ps, Language, u.language);
      base', ps' := PushOpt(base', prefix, ps', From, Some(date));
      base', ps' := PushOpt(base', prefix, ps', PageSize, Some("20"));
      assert ps' == ps + (Opt(Language, u.language) + [Param(From, date), Param(PageSize, "20")]);
    } else if u.endpoint == "top-headlines" {
      base', ps' := PushHeadlines(base, prefix, ps, u);
    } else {
      base', ps' := base, ps;
      assert ps' == ps + [];
    }
  }

  /** The `top-headlines` branch: the country unless sources are given, then the category. */
  method PushHeadlines(base: string, ghost prefix: string, ghost ps: seq<Param>, u: NewsApiUrl)
    returns (base': string, ghost ps': seq<Param>)
    requires |ps| > 0 && base == prefix + Join(ps)
    ensures ps' == ps + ((if u.sources.None? then Opt(Country, u.country) else []) + Opt(Category, u.category))
    ensures base' == prefix + Join(ps')
  {
    base', ps' := base, ps;
    match u.sources {
      case Some(_) =>
      case None =>
        base', ps' := PushOpt(base', prefix, ps', Country, u.country);
    }
    base', ps' := PushOpt(base', prefix, ps', Category, u.category);
  }

  /** One `if let Some(v) = ... { base.push_str(&format!("&k={}", v)) }` of `to_str`. */
  method PushOpt(base: string, ghost prefix: string, ghost ps: seq<Param>, k: Key, v: Option<string>)
    returns (base': string, ghost ps': seq<Param>)
    requires |ps| > 0 && base == prefix + Join(ps)
    ensures ps' == ps + Opt(k, v) && base' == prefix + Join(ps')
  {
    match v {
      case Some(d) =>
        Extend(base, prefix, ps, k, Lead(k), d);
        base' := base + Lead(k) + d;
        ps' := ps + [Param(k, d)];
      case None =>
        base', ps' := base, ps;
    }
  }

  /** The mode parameters sit between the key and the sources, in `KeyOrder`. */
  lemma ModeOrder(u: NewsApiUrl, date: string, rest: seq<Param>)
    requires KeysFollow(rest, [Sources, Q])
    ensures KeysFollow(ModeParams(u, date) + rest, KeyOrder[1..])
  {
    assert KeyOrder[1..] == [Language, From, PageSize, Country, Category, Sources, Q];
    Skip(Category, rest, [Sources, Q]);
    Skip(Country, rest, [Category, Sources, Q]);
    if u.endpoint == "everything" {
      EverythingOrder(u.language, date, rest);
    } else if u.endpoint == "top-headlines" {
      HeadlinesOrder(if u.sources.None? then u.country else None, u.category, rest);
    } else {
      Skip(PageSize, rest, [Country, Category, Sources, Q]);
      Skip(From, rest, [PageSize, Country, Category, Sources, Q]);
      Skip(Language, rest, [From, PageSize, Country, Category, Sources, Q]);
      assert ModeParams(u, date) + rest == rest;
    }
  }

  lemma EverythingOrder(language: Option<string>, date: string, rest: seq<Param>)
    requires KeysFollow(rest, [Country, Category, Sources, Q])
    ensures KeysFollow(Opt(Language, language) + [Param(From, date), Param(PageSize, "20")] + rest,
      [Language, From, PageSize, Country, Category, Sources, Q])
  {
    var o4 := [Country, Category, Sources, Q];
    var o5 := [PageSize] + o4;
    var o6 := [From] + o5;
    Take(Param(PageSize, "20"), rest, o4);
    Take(Param(From, date), [Param(PageSize, "20")] + rest, o5);
    var tail := [Param(From, date)] + ([Param(PageSize, "20")] + rest);
    TakeOpt(Language, language, tail, o6);
    assert [Param(From, date), Param(PageSize, "20")] + rest == tail;
    assert [Language] + o6 == [Language, From, PageSize, Country, Category, Sources, Q];
  }

  lemma HeadlinesOrder(country: Option<string>, category: Option<string>, rest: seq<Param>)
    requires KeysFollow(rest, [Sources, Q])
    ensures KeysFollow(Opt(Country, country) + Opt(Category, category) + rest,
      [Language, From, PageSize, Country, Category, Sources, Q])
  {
    var o2 := [Sources, Q];
    var o3 := [Category] + o2;
    var o4 := [Country] + o3;
    var o5 := [PageSize] + o4;
    var o6 := [From] + o5;
    var tail := Opt(Country, country) + (Opt(Category, category) + rest);
    TakeOpt(Category, category, rest, o2);
    TakeOpt(Country, country, Opt(Category, category) + rest, o3);
    Skip(PageSize, tail, o4);
    Skip(From, tail, o5);
    Skip(Language, tail, o6);
    assert Opt(Country, country) + Opt(Category, category) + rest == tail;
    assert [Language] + o6 == [Language, From, PageSize, Country, Category, Sources, Q];
  }

  /** `to_str` emits its parameters in `KeyOrder`, each key at most once. */
  lemma ParamOrder(u: NewsApiUrl, date: string)
    ensures KeysFollow(Params(u, date), KeyOrder)
  {
    var q, s := Opt(Q, u.query), Opt(Sources, u.sources);
    assert KeysFollow(q, [Q]) by {
      TakeOpt(Q, u.query, [], []);
      assert q + [] == q;
    }
    TakeOpt(Sources, u.sources, q, [Q]);
    ModeOrder(u, date, s + q);
    Take(Param(ApiKey, u.apiKey), ModeParams(u, date) + (s + q), KeyOrder[1..]);
    assert [ApiKey] + KeyOrder[1..] == KeyOrder;
    assert Params(u, date) == [Param(ApiKey, u.apiKey)] + (ModeParams(u, date) + (s + q));
  }

  lemma KeyOrderDistinct()
    ensures Distinct(KeyOrder)
  {
  }

  /**
   * The parameters are determined by what is emitted and the order: any list
   * in `KeyOrder` holding exactly the emitted pairs is `Params`.
   */
  lemma ParamsCanonical(u: NewsApiUrl, date: string, qs: seq<Param>)
    requires KeysFollow(qs, KeyOrder)
    requires forall p :: p in qs <==> Emitted(u, date, p.key) == Some(p.value)
    ensures qs == Params(u, date)
  {
    var ps := Params(u, date);
    ParamOrder(u, date);
    ParamsEmitted(u, date);
    forall p ensures p in ps <==> p in qs {
      var e := Emitted(u, date, p.key) == Some(p.value);
      assert p in ps <==> e;
      assert p in qs <==> e;
    }
    KeyOrderDistinct();
    KeysFollowDetermined(ps, qs, KeyOrder);
  }

  /** No value of `u` (nor the date) contains the separator `&`. */
  predicate Plain(u: NewsApiUrl, date: string) {
    '&' !in u.apiKey && '&' !in date
    && (u.country.Some? ==> '&' !in u.country.value)
    && (u.language.Some? ==> '&' !in u.language.value)
    && (u.query.Some? ==> '&' !in u.query.value)
    && (u.category.Some? ==> '&' !in u.category.value)
    && (u.sources.Some? ==> '&' !in u.sources.value)
  }

  /** A plain record gives pairs that survive the unescaped encoding. */
  lemma ParamsUnambiguous(u: NewsApiUrl, date: string)
    requires Plain(u, date)
    ensures Unambiguous(Params(u, date))
  {
    var m := ModeParams(u, date);
    assert Unambiguous(m) by {
      if u.endpoint == "everything" {
        UnambiguousAppend(Opt(Language, u.language), [Param(From, date), Param(PageSize, "20")]);
      } else if u.endpoint == "top-headlines" {
        UnambiguousAppend(if u.sources.None? then Opt(Country, u.country) else [], Opt(Category, u.category));
      }
    }
    UnambiguousAppend([Param(ApiKey, u.apiKey)], m);
    UnambiguousAppend([Param(ApiKey, u.apiKey)] + m, Opt(Sources, u.sources));
    UnambiguousAppend([Param(ApiKey, u.apiKey)] + m + Opt(Sources, u.sources), Opt(Q, u.query));
  }

  /**
   * Reading the URL back: the text before `?` is the endpoint's address, and
   * the query splits into exactly the emitted pairs, in order.
   */
  lemma UrlRoundTrip(u: NewsApiUrl, date: string)
    requires '?' !in u.endpoint && Plain(u, date)
    ensures Break(Url(u, date), '?') == (Host + u.endpoint, Join(Params(u, date)))
    ensures ParseQuery(Join(Params(u, date))) == Text(Params(u, date))
  {
    var j := Join(Params(u, date));
    BreakFirst(Host + u.endpoint, '?', j);
    assert Url(u, date) == Host + u.endpoint + ['?'] + j;
    ParamsUnambiguous(u, date);
    QueryRoundTrip(Params(u, date));
  }

  /** The URL of a run without arguments: United States headlines. */
  lemma DefaultUrl(apiKey: string, date: string)
    ensures Url(New("top-headlines", apiKey), date)
      == Host + "top-headlines?apiKey=" + apiKey + "&country=us"
  {
    var u := New("top-headlines", apiKey);
    var prefix, a := Host + u.endpoint + "?", [Param(ApiKey, apiKey)];
    var base := Host + "top-headlines?apiKey=" + apiKey;
    assert base == prefix + Join(a);
    Extend(base, prefix, a, Country, "&country=", "us");
    assert Params(u, date) == a + [Param(Country, "us")];
  }

  /** The parameters of a keyword search: key, date window, page size, query. */
  lemma SearchParams(apiKey: string, q: string, date: string)
    ensures Params(New("top-headlines", apiKey).(endpoint := "everything", query := Some(q)), date)
      == [Param(ApiKey, apiKey), Param(From, date), Param(PageSize, "20"), Param(Q, q)]
  {
    var u := New("top-headlines", apiKey).(endpoint := "everything", query := Some(q));
    assert ModeParams(u, date) == [Param(From, date), Param(PageSize, "20")];
  }

  /** The URL of a keyword search: two weeks of articles, twenty per page. */
  lemma SearchUrl(apiKey: string, q: string, date: string)
    ensures Url(New("top-headlines", apiKey).(endpoint := "everything", query := Some(q)), date)
      == Host + "everything?apiKey=" + apiKey + "&from=" + date + "&pageSize=" + "20" + "&q=" + q
  {
    var u := New("top-headlines", apiKey).(endpoint := "everything", query := Some(q));
    var prefix, a := Host + u.endpoint + "?", [Param(ApiKey, apiKey)];
    var base := Host + "everything?apiKey=" + apiKey;
    assert base == prefix + Join(a);
    var b := a + [Param(From, date)];
    var c := b + [Param(PageSize, "20")];
    Extend(base, prefix, a, From, "&from=", date);
    Extend(base + "&from=" + date, prefix, b, PageSize, "&pageSize=", "20");
    Extend(base + "&from=" + date + "&pageSize=" + "20", prefix, c, Q, "&q=", q);
    SearchParams(apiKey, q, date);
    assert c + [Param(Q, q)] == [Param(ApiKey, apiKey), Param(From, date), Param(PageSize, "20"), Param(Q, q)];
  }

  /** A sources filter suppresses the default country. */
  lemma SourcesUrl(apiKey: string, sources: string, date: string)
    ensures Url(New("top-headlines", apiKey).(sources := Some(sources)), date)
      == Host + "top-headlines?apiKey=" + apiKey + "&sources=" + sources
  {
    var u := New("top-headlines", apiKey).(sources := Some(sources));
    var prefix, a := Host + u.endpoint + "?", [Param(ApiKey, apiKey)];
    var base := Host + "top-headlines?apiKey=" + apiKey;
    assert base == prefix + Join(a);
    Extend(base, prefix, a, Sources, "&sources=", sources);
    assert Params(u, date) == a + [Param(Sources, sources)];
  }

  /** What `main` tells the user on the error stream. */
  datatype Complaint =
    | MissingQuery
    | SourcesWithSpaces
    | MissingSources
    | OneCountryAtATime
    | CannotList(what: string)
    | InvalidArgument

  /**
   * `main` after collecting the arguments (`args[0]` is the program name),
   * with the built-in key passed in. It returns the final `url` and
   * `return_articles`, the complaint it prints, the country filter of the
   * sources listing it asks for (`Some(None)` for all countries) and the
   * article URL it fetches.
   */
  method Run(args: seq<string>, apiKey: string, now: Timestamp)
    returns (url: NewsApiUrl, returnArticles: bool, complaint: Option<Complaint>,
             listing: Option<Option<string>>, fetched: Option<string>)
    ensures url.apiKey == apiKey && url.country == Some("us")
    ensures url.language.None? && url.category.None?
    ensures url.query.Some? <==> |args| > 2 && args[1] == "q"
    ensures url.query.Some? ==> url.query.value == args[2] && url.endpoint == "everything"
    ensures url.query.None? ==> url.endpoint == "top-headlines"
    ensures url.sources.Some? <==> |args| == 3 && args[1] == "source"
    ensures url.sources.Some? ==> url.sources.value == args[2]
    ensures returnArticles <==> !(|args| > 1 && args[1] == "list")
    ensures fetched == if returnArticles then Some(Url(url, FromDate(now))) else None
    ensures listing.Some? <==> 3 <= |args| <= 4 && args[1] == "list" && args[2] == "sources"
    ensures listing.Some? ==> listing.value == if |args| == 4 then Some(args[3]) else None
    ensures complaint == Some(MissingQuery) <==> |args| == 2 && args[1] == "q"
    ensures complaint == Some(SourcesWithSpaces) <==> |args| > 3 && args[1] == "source"
    ensures complaint == Some(MissingSources) <==> |args| == 2 && args[1] == "source"
    ensures complaint == Some(OneCountryAtATime) <==> |args| > 4 && args[1] == "list" && args[2] == "sources"
    ensures (complaint.Some? && complaint.value.CannotList?)
      <==> |args| > 2 && args[1] == "list" && args[2] != "sources"
    ensures complaint.Some? && complaint.value.CannotList? ==> complaint.value.what == args[2]
    ensures complaint == Some(InvalidArgument)
      <==> |args| > 1 && args[1] != "q" && args[1] != "source" && args[1] != "list"
  {
    url := New("top-headlines", apiKey);
    var argCount := |args|;
    returnArticles := true;
    complaint, listing, fetched := None, None, None;

    if argCount > 1 {
      if args[1] == "q" {
        if argCount > 2 {
          url := url.(query := Some(args[2]));
          url := url.(endpoint := "everything");
        } else {
          complaint := Some(MissingQuery);
        }
      } else if args[1] == "source" {
        if argCount > 2 {
          if argCount > 3 {
            complaint := Some(SourcesWithSpaces);
          } else {
            url := url.(sources := Some(args[2]));
          }
        } else {
          complaint := Some(MissingSources);
        }
      } else if args[1] == "list" {
        returnArticles := false;
        if argCount > 2 {
          if args[2] == "sources" {
            if argCount > 3 {
              if argCount < 5 {
                listing := Some(Some(args[3]));
              } else {
                complaint := Some(OneCountryAtATime);
              }
            } else {
              listing := Some(None);
            }
          } else {
            complaint := Some(CannotList(args[2]));
          }
        }
      } else {
        complaint := Some(InvalidArgument);
      }
    }

    if returnArticles {
      var link := ToStr(url, now);
      fetched := Some(link);
    }
  }
}
