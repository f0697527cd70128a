/**
 * The binary's URL builder (src/main.rs) and the library's (src/request.rs)
 * talk to the same service but disagree; these lemmas state where.
 */
module Compare {
  import opened Options
  import opened Calendar
  import opened Query
  import Cli
  import Requests

  /**
   * Given both a country and sources, the binary drops the country while the
   * library sends both.
   */
  lemma CountryWithSources(key: string, language: string, country: string, sources: string, date: string)
    ensures Param(Country, country) !in
      Cli.Params(Cli.NewsApiUrl("top-headlines", key, Some(country), None, None, None, Some(sources)), date)
    ensures Param(Country, country) in
      Requests.Params(Requests.Request(Requests.Headlines(Some(country), None), key, Some(sources), None, 20, language), date)
  {
    Cli.ParamsEmitted(Cli.NewsApiUrl("top-headlines", key, Some(country), None, None, None, Some(sources)), date);
    Requests.ParamsEmitted(Requests.Request(Requests.Headlines(Some(country), None), key, Some(sources), None, 20, language), date);
  }

  /**
   * For a day after the twelfth, the binary's date reads back as that day
   * while the library's, day before month, is no ISO date at all.
   */
  lemma DateOrder(t: Timestamp)
    requires 0 <= DateOf(t).year <= 9999 && DateOf(t).day > 12
    ensures ParseIsoDate(FormatYmd(DateOf(t))) == Some(DateOf(t))
    ensures ParseIsoDate(Requests.FromText(t)).None?
  {
    IsoDateRoundTrip(DateOf(t));
    Requests.FromTextSwapped(t);
  }

  /**
   * The two builders spell the key parameter differently: the binary's URL
   * starts with `apiKey`, the library's ends with `apikey`, and the two names
   * differ.
   */
  lemma KeyName(u: Cli.NewsApiUrl, r: Requests.Request, date: string)
    ensures var ps := Cli.Params(u, date);
      ps[0] == Param(ApiKey, u.apiKey) && Name(ps[0].key) == "apiKey"
    ensures var ps := Requests.Params(r, date);
      ps[|ps| - 1] == Param(ApiKeyLowercase, r.apikey) && Name(ps[|ps| - 1].key) == "apikey"
    ensures Name(Cli.Params(u, date)[0].key) != Name(Requests.Params(r, date)[|Requests.Params(r, date)| - 1].key)
  {
    var ps := Requests.Params(r, date);
    assert ps[|ps| - 1] == ps[|ps| - 3..][2];
  }
}
