/**
 * The library-style request builder (src/request.rs): a `Request` whose
 * `Endpoint` is either an `everything` search from an optional instant or a
 * `top-headlines` query by country and category, the two mode switches, the
 * request built from the stored settings, and `to_string`'s URL.
 */
module Requests {
  import opened Options
  import opened Decimal
  import opened Calendar
  import opened Query
  import opened Config

  /** Rust's `i32`. */
  newtype i32 = x: int | -0x8000_0000 <= x < 0x8000_0000

  /** `Endpoint`; its constructors are `Endpoint::new_everything` and `Endpoint::new_headlines`. */
  datatype Endpoint =
    | Everything(from: Option<Timestamp>)
    | Headlines(country: Option<string>, category: Option<string>)

  /** `Request`; its constructor is `Request::new`. */
  datatype Request = Request(
    endpoint: Endpoint,
    apikey: string,
    sources: Option<string>,
    q: Option<string>,
    pageSize: i32,
    language: string)

  /** Switching to `everything` from headlines searches the last ten days. */
  const FallbackWindowDays: int := 10

  /** Every key `to_string` can emit, in the order it emits them. */
  const KeyOrder: seq<Key> := [From, Country, Category, Q, Sources, Language, PageSize, ApiKeyLowercase]

  /** The fields a mode switch carries over unchanged. */
  predicate SameSettings(r: Request, r': Request) {
    r'.apikey == r.apikey && r'.sources == r.sources && r'.q == r.q
    && r'.pageSize == r.pageSize && r'.language == r.language
  }

  /** `with_everything`, at UTC time `now`. */
  function WithEverything(r: Request, now: Timestamp): (r': Request)
    ensures r'.endpoint.Everything? && SameSettings(r, r')
    ensures r.endpoint.Everything? ==> r'.endpoint == r.endpoint
    ensures r.endpoint.Headlines? ==> r'.endpoint.from == Some(now - FallbackWindowDays * SecondsPerDay)
  {
    var endpoint := match r.endpoint
      case Everything(from) => Everything(from)
      case _ => Everything(Some(now - FallbackWindowDays * SecondsPerDay));
    Request(endpoint, r.apikey, r.sources, r.q, r.pageSize, r.language)
  }

  /** `with_headlines`. */
  function WithHeadlines(r: Request): (r': Request)
    ensures r'.endpoint.Headlines? && SameSettings(r, r')
    ensures r.endpoint.Headlines? ==> r'.endpoint == r.endpoint
    ensures r.endpoint.Everything? ==> r'.endpoint == Headlines(None, None)
  {
    var endpoint := match r.endpoint
      case Headlines(country, category) => Headlines(country, category)
      case _ => Headlines(None, None);
    Request(endpoint, r.apikey, r.sources, r.q, r.pageSize, r.language)
  }

  /** A mode switch is idempotent, whatever the clock reads the second time. */
  lemma {:induction false} SwitchIdempotent(r: Request, now: Timestamp, later: Timestamp)
    ensures WithEverything(WithEverything(r, now), later) == WithEverything(r, now)
    ensures WithHeadlines(WithHeadlines(r)) == WithHeadlines(r)
  {
    var e := WithEverything(r, now);
    assert e.endpoint.Everything?;
    var h := WithHeadlines(r);
    assert h.endpoint.Headlines?;
  }

  /** Switching away and back loses the case's own fields and nothing else. */
  lemma RoundTripForgets(r: Request, now: Timestamp)
    ensures r.endpoint.Everything? ==>
      WithEverything(WithHeadlines(r), now)
        == r.(endpoint := Everything(Some(now - FallbackWindowDays * SecondsPerDay)))
    ensures r.endpoint.Headlines? ==> WithHeadlines(WithEverything(r, now)) == r.(endpoint := Headlines(None, None))
  {
  }

  /** `new_empty`, given what `get_config` produced. */
  function NewEmpty(loaded: Outcome<NewsConfig>): (r: Outcome<Request>)
    ensures r.Ok? <==> loaded.Ok?
    ensures loaded.Err? ==> r == Err(loaded.error)
    ensures loaded.Panic? ==> r == Panic(loaded.reason)
    ensures r.Ok? ==>
      && r.value.endpoint == Headlines(None, None) && r.value.pageSize == 20
      && r.value.sources.None? && r.value.q.None?
      && r.value.apikey == loaded.value.apikey && r.value.language == loaded.value.language
  {
    match loaded
    case Ok(config) => Ok(Request(Headlines(None, None), config.apikey, None, None, 20, config.language))
    case Err(e) => Err(e)
    case Panic(p) => Panic(p)
  }

  /** After `set_config` returns, `new_empty` builds on exactly the record it wrote. */
  lemma NewEmptyAfterSave(s: Store, key: Option<string>, lang: Option<string>, recover: bool)
    requires Save(s, key, lang, recover).0.Ok?
    ensures var c := Save(s, key, lang, recover).1.file.value.config;
      NewEmpty(Load(Save(s, key, lang, recover).1).0)
        == Ok(Request(Headlines(None, None), c.apikey, None, None, 20, c.language))
    ensures key.Some? ==> NewEmpty(Load(Save(s, key, lang, recover).1).0).value.apikey == key.value
    ensures lang.Some? ==> NewEmpty(Load(Save(s, key, lang, recover).1).0).value.language == lang.value
  {
    SaveThenLoad(s, key, lang, recover);
  }

  /** `from` as `to_string` formats it: `%Y-%d-%m` of the UTC date. */
  function FromText(from: Timestamp): (s: string)
    ensures '&' !in s
  {
    FormatYdm(DateOf(from))
  }

  /** The date text `to_string` would print for the endpoint, if any. */
  function DateText(e: Endpoint): string {
    if e.Everything? && e.from.Some? then FromText(e.from.value) else ""
  }

  /** The path, with its `?`, of the endpoint. */
  function Path(e: Endpoint): string {
    if e.Everything? then "everything?" else "top-headlines?"
  }

  /**
   * The value `to_string` gives parameter `k` of `r` when the `from` instant
   * prints as `date`, or `None` when it leaves `k` out.
   */
  function Emitted(r: Request, date: string, k: Key): Option<string> {
    match k
    case From => if r.endpoint.Everything? && r.endpoint.from.Some? then Some(date) else None
    case Country => if r.endpoint.Headlines? then r.endpoint.country else None
    case Category => if r.endpoint.Headlines? then r.endpoint.category else None
    case Q => r.q
    case Sources => r.sources
    case Language => Some(r.language)
    case PageSize => Some(IntToDecimal(r.pageSize as int))
    case ApiKeyLowercase => Some(r.apikey)
    case _ => None
  }

  /** The optional pairs of the endpoint. */
  function ModeParams(r: Request, date: string): seq<Param> {
    match r.endpoint
    case Everything(from) => if from.Some? then [Param(From, date)] else []
    case Headlines(country, category) => Opt(Country, country) + Opt(Category, category)
  }

  /** The optional pairs, each followed by `&`. */
  function Optional(r: Request, date: string): seq<Param> {
    ModeParams(r, date) + Opt(Q, r.q) + Opt(Sources, r.sources)
  }

  /** The three pairs every URL ends with. */
  function Fixed(r: Request): seq<Param> {
    [Param(Language, r.language), Param(PageSize, IntToDecimal(r.pageSize as int)), Param(ApiKeyLowercase, r.apikey)]
  }

  /** The query pairs of `to_string`, in emission order. */
  function Params(r: Request, date: string): (ps: seq<Param>)
    ensures |ps| >= 3 && ps[|ps| - 3..] == Fixed(r)
  {
    Optional(r, date) + Fixed(r)
  }

  /** `to_string` emits exactly the pairs `Emitted` names, with their values. */
  lemma ParamsEmitted(r: Request, date: string)
    ensures forall p :: p in Params(r, date) <==> Emitted(r, date, p.key) == Some(p.value)
  {
    var m, q, s, f := ModeParams(r, date), Opt(Q, r.q), Opt(Sources, r.sources), Fixed(r);
    assert Params(r, date) == m + q + s + f;
    forall p ensures p in Params(r, date) <==> Emitted(r, date, p.key) == Some(p.value) {
      assert p in Params(r, date) <==> p in m || p in q || p in s || p in f;
      assert p in m <==> (p.key.From? || p.key.Country? || p.key.Category?) && Emitted(r, date, p.key) == Some(p.value);
    }
  }

  /** `to_string` emits its pairs in `KeyOrder`, each key at most once. */
  lemma ParamOrder(r: Request, date: string)
    ensures KeysFollow(Params(r, date), KeyOrder)
  {
    var f := Fixed(r);
    var o0: seq<Key> := [];
    var o1 := [ApiKeyLowercase] + o0;
    var o2 := [PageSize] + o1;
    var o3 := [Language] + o2;
    Take(f[2], [], o0);
    Take(f[1], [f[2]], o1);
    Take(f[0], [f[1]] + [f[2]], o2);
    assert [f[0]] + ([f[1]] + [f[2]]) == f;
    var o4 := [Sources] + o3;
    var o5 := [Q] + o4;
    TakeOpt(Sources, r.sources, f, o3);
    var tail := Opt(Q, r.q) + (Opt(Sources, r.sources) + f);
    TakeOpt(Q, r.q, Opt(Sources, r.sources) + f, o4);
    ModeOrder(r, date, tail, o5);
    Associate(ModeParams(r, date), Opt(Q, r.q), Opt(Sources, r.sources), f);
    KeyOrderShape();
  }

  lemma Associate(m: seq<Param>, q: seq<Param>, s: seq<Param>, f: seq<Param>)
    ensures m + q + s + f == m + (q + (s + f))
  {
  }

  lemma KeyOrderShape()
    ensures KeyOrder == [From, Country, Category] + ([Q] + ([Sources] + ([Language] + ([PageSize] + ([ApiKeyLowercase] + [])))))
  {
  }

  lemma ModeOrder(r: Request, date: string, tail: seq<Param>, order: seq<Key>)
    requires KeysFollow(tail, order)
    ensures KeysFollow(ModeParams(r, date) + tail, [From, Country, Category] + order)
  {
    var o1 := [Category] + order;
    var o2 := [Country] + o1;
    match r.endpoint {
      case Everything(from) =>
        Skip(Category, tail, order);
        Skip(Country, tail, o1);
        if from.Some? {
          Take(Param(From, date), tail, o2);
        } else {
          Skip(From, tail, o2);
          assert ModeParams(r, date) + tail == tail;
        }
      case Headlines(country, category) =>
        TakeOpt(Category, category, tail, order);
        TakeOpt(Country, country, Opt(Category, category) + tail, o1);
        Skip(From, Opt(Country, country) + (Opt(Category, category) + tail), o2);
        assert ModeParams(r, date) + tail == Opt(Country, country) + (Opt(Category, category) + tail);
    }
    assert [From] + o2 == [From, Country, Category] + order;
  }

  lemma KeyOrderDistinct()
    ensures Distinct(KeyOrder)
  {
  }

  /**
   * The pairs are determined by what is emitted and the order: any list in
   * `KeyOrder` holding exactly the emitted pairs is `Params`.
   */
  lemma ParamsCanonical(r: Request, date: string, qs: seq<Param>)
    requires KeysFollow(qs, KeyOrder)
    requires forall p :: p in qs <==> Emitted(r, date, p.key) == Some(p.value)
    ensures qs == Params(r, date)
  {
    var ps := Params(r, date);
    ParamOrder(r, date);
    ParamsEmitted(r, date);
    forall p ensures p in ps <==> p in qs {
      var e := Emitted(r, date, p.key) == Some(p.value);
      assert p in ps <==> e;
      assert p in qs <==> e;
    }
    KeyOrderDistinct();
    KeysFollowDetermined(ps, qs, KeyOrder);
  }

  /** `to_string` sends the country even when sources are given. */
  lemma CountryDespiteSources(r: Request, date: string)
    requires r.endpoint.Headlines? && r.endpoint.country.Some? && r.sources.Some?
    ensures Param(Country, r.endpoint.country.value) in Params(r, date)
    ensures Param(Sources, r.sources.value) in Params(r, date)
  {
    ParamsEmitted(r, date);
  }

  /** No text field of `r` (nor the date) contains the separator `&`. */
  predicate Plain(r: Request, date: string) {
    '&' !in r.apikey && '&' !in r.language && '&' !in date
    && (r.q.Some? ==> '&' !in r.q.value)
    && (r.sources.Some? ==> '&' !in r.sources.value)
    && (r.endpoint.Headlines? && r.endpoint.country.Some? ==> '&' !in r.endpoint.country.value)
    && (r.endpoint.Headlines? && r.endpoint.category.Some? ==> '&' !in r.endpoint.category.value)
  }

  /** A plain request gives pairs that survive the unescaped encoding. */
  lemma ParamsUnambiguous(r: Request, date: string)
    requires Plain(r, date)
    ensures Unambiguous(Params(r, date))
  {
    var m := ModeParams(r, date);
    assert Unambiguous(m) by {
      if r.endpoint.Headlines? {
        UnambiguousAppend(Opt(Country, r.endpoint.country), Opt(Category, r.endpoint.category));
      }
    }
    UnambiguousAppend(m, Opt(Q, r.q));
    UnambiguousAppend(m + Opt(Q, r.q), Opt(Sources, r.sources));
    UnambiguousAppend(Optional(r, date), Fixed(r));
  }

  /**
   * Reading the URL back: the text before `?` is the endpoint's address, and
   * the query splits into exactly the emitted pairs, in order.
   */
  lemma UrlRoundTrip(r: Request, date: string)
    requires Plain(r, date)
    ensures var name := if r.endpoint.Everything? then "everything" else "top-headlines";
      Break(Url(r, date), '?') == (Host + name, Join(Params(r, date)))
    ensures ParseQuery(Join(Params(r, date))) == Text(Params(r, date))
  {
    var name := if r.endpoint.Everything? then "everything" else "top-headlines";
    var j := Join(Params(r, date));
    Address(r.endpoint);
    BreakFirst(Host + name, '?', j);
    Regroup3(Host, name, "?", j);
    assert "?" == ['?'];
    ParamsUnambiguous(r, date);
    QueryRoundTrip(Params(r, date));
  }

  lemma Regroup3(h: string, n: string, q: string, j: string)
    ensures h + (n + q) + j == h + n + q + j
  {
  }

  /** The address before the `?` holds no `?` itself. */
  lemma Address(e: Endpoint)
    ensures var name := if e.Everything? then "everything" else "top-headlines";
      Path(e) == name + "?" && '?' !in Host + name
  {
  }

  /**
   * `from` prints day before month: read as an ISO date it is the same day
   * with day and month exchanged, or no date at all once the day exceeds 12.
   */
  lemma FromTextSwapped(t: Timestamp)
    requires 0 <= DateOf(t).year <= 9999
    ensures var c := DateOf(t);
      var swapped := Civil(c.year, c.day, c.month);
      ParseIsoDate(FromText(t)) == (if Valid(swapped) then Some(swapped) else None)
  {
    DayMonthReadAsIso(DateOf(t));
  }

  /** The URL `to_string` produces. */
  function Url(r: Request, date: string): string {
    Host + Path(r.endpoint) + Join(Params(r, date))
  }

  /** `to_string`. */
  method ToString(r: Request) returns (link: string)
    ensures link == Url(r, DateText(r.endpoint))
  {
    link := Build(r, DateText(r.endpoint));
  }

  /**
   * The body of `to_string` once the `from` instant is formatted as `date`:
   * grows the link one `k=v&` at a time and closes it with the fixed pairs.
   */
  method Build(r: Request, date: string) returns (link: string)
    ensures link == Url(r, date)
  {
    link := Host;
    ghost var ps: seq<Param>;
    link, ps := PushEndpoint(link, r, date);
    ghost var prefix := Host + Path(r.endpoint);
    link, ps := PushOpt(link, prefix, ps, Q, r.q);
    link, ps := PushOpt(link, prefix, ps, Sources, r.sources);
    assert ps == Optional(r, date);
    Close(link, prefix, ps, r);
    var size := IntToDecimal(r.pageSize as int);
    link := link + "language=" + r.language + "&pageSize=" + size + "&apikey=" + r.apikey;
  }

  /** The `match self.endpoint` block of `to_string`. */
  method PushEndpoint(link: string, r: Request, date: string) returns (link': string, ghost ps: seq<Param>)
    requires link == Host
    ensures ps == ModeParams(r, date) && link' == Host + Path(r.endpoint) + Terminated(ps)
  {
    ps := [];
    match r.endpoint {
      case Everything(from) =>
        link' := link + "everything?";
        if from.Some? {
          AppendTerminated(link', link', [], Param(From, date));
          link' := link' + "from=" + date + "&";
          ps := [Param(From, date)];
        }
      case Headlines(country, category) =>
        link' := link + "top-headlines?";
        link', ps := PushOpt(link', link', [], Country, country);
        link', ps := PushOpt(link', Host + Path(r.endpoint), ps, Category, category);
    }
  }

  /** One `if let Some(v) = ... { link = format!("{}k={}&", link, v) }` of `to_string`. */
  method PushOpt(link: string, ghost prefix: string, ghost ps: seq<Param>, k: Key, v: Option<string>)
    returns (link': string, ghost ps': seq<Param>)
    requires link == prefix + Terminated(ps)
    ensures ps' == ps + Opt(k, v) && link' == prefix + Terminated(ps')
  {
    match v {
      case Some(d) =>
        AppendTerminated(link, prefix, ps, Param(k, d));
        link' := link + Name(k) + "=" + d + "&";
        ps' := ps + [Param(k, d)];
      case None =>
        link', ps' := link, ps;
        assert ps' == ps + [];
    }
  }

  /** The closing `format!` completes the URL. */
  lemma Close(link: string, prefix: string, ps: seq<Param>, r: Request)
    requires link == prefix + Terminated(ps)
    ensures link + "language=" + r.language + "&pageSize=" + IntToDecimal(r.pageSize as int) + "&apikey=" + r.apikey
      == prefix + Join(ps + Fixed(r))
  {
    var l, n, k := r.language, IntToDecimal(r.pageSize as int), r.apikey;
    JoinAppend(ps, Fixed(r));
    FixedJoin(l, n, k);
    Regroup8(prefix, Terminated(ps), "language=", l, "&pageSize=", n, "&apikey=", k);
  }

  /** The fixed pairs render as `language=L&pageSize=N&apikey=K`. */
  lemma FixedJoin(l: string, n: string, k: string)
    ensures Join([Param(Language, l), Param(PageSize, n), Param(ApiKeyLowercase, k)])
      == "language=" + l + "&pageSize=" + n + "&apikey=" + k
  {
    var a, b, c := Param(Language, l), Param(PageSize, n), Param(ApiKeyLowercase, k);
    assert [a, b, c][1..] == [b, c];
    assert [b, c][1..] == [c];
    assert Render(a) == "language=" + l;
    assert Render(b) == "pageSize=" + n;
    assert Render(c) == "apikey=" + k;
    assert Join([c]) == Render(c);
    assert Join([b, c]) == Render(b) + "&" + Render(c);
    assert Join([a, b, c]) == Render(a) + "&" + Join([b, c]);
    assert "&" + "pageSize=" == "&pageSize=";
    assert "&" + "apikey=" == "&apikey=";
    Regroup7("language=", l, "&", "pageSize=", n, "apikey=", k);
  }

  lemma Regroup7(a: string, l: string, amp: string, p: string, n: string, q: string, k: string)
    ensures (a + l) + amp + ((p + n) + amp + (q + k)) == a + l + (amp + p) + n + (amp + q) + k
  {
  }

  lemma Regroup8(p: string, t: string, a: string, b: string, c: string, d: string, e: string, f: string)
    ensures p + t + a + b + c + d + e + f == p + (t + (a + b + c + d + e + f))
  {
  }
}
