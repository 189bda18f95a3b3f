/** `BazosSkDataService`: the bazos.sk RSS query for a validated parameter
    model and the fetch of its items. `BASE_URL`, `urllib.parse.quote`, the
    HTTP client and the date parser are parameters. */
module BazosSkDataService {

  import opened Common
  import Strings
  import BazosFeed
  import P = BazosSkParameters

  /** `_build_url`: the base URL, `?`, then the kept fields' pairs joined with
      `&` in the Slovak field order, with one extra leading `&` when the
      category is skipped and some later field is kept. */
  method BuildUrl(baseUrl: string, params: P.Params, quote: string -> string) returns (url: string)
    ensures url == baseUrl + "?" + BazosFeed.Lead(P.Fields(params), 6, quote)
      + Strings.Join(BazosFeed.Kept(P.Fields(params), 6, quote), "&")
  {
    url := BazosFeed.BuildUrl(baseUrl, P.Fields(params), quote);
    BazosFeed.QueryJoinsKept(P.Fields(params), 6, quote);
  }

  /** `get_items`: one request to the built URL; a status other than 200
      fails with the URL and the status, otherwise the feed's items are
      parsed in feed order. */
  method GetItems(baseUrl: string, params: P.Params, quote: string -> string,
                  http: string -> BazosFeed.Response, parseDate: string -> Option<int>)
    returns (r: Result<seq<BazosFeed.FeedItem>>)
    ensures var url := baseUrl + "?" + BazosFeed.Query(P.Fields(params), 6, quote);
      if http(url).status != 200 then r == Err(FetchFailed(url, http(url).status))
      else r == BazosFeed.ParseAll(http(url).entries, BazosFeed.Parser(parseDate))
  {
    r := BazosFeed.GetItems(baseUrl, P.Fields(params), quote, http, parseDate);
  }

  /** With every parameter at its default the zero prices are dropped as
      falsy, only the radius is kept, and the query starts with `&`:
      `&humkreis=25`. */
  lemma DefaultQuery(quote: string -> string)
    requires quote("25") == "25"
    ensures P.Parse(map[]).Ok?
    ensures BazosFeed.Query(P.Fields(P.Parse(map[]).value), 6, quote) == "&humkreis=25"
  {
    P.Defaults();
    DefaultFieldsQuery(P.Fields(P.Parse(map[]).value), quote);
  }

  lemma DefaultFieldsQuery(fields: seq<BazosFeed.Field>, quote: string -> string)
    requires fields == P.Fields(P.Params(Some(P.NONE), Some(""), Some(""), Some(0), Some(0), Some(25)))
    requires quote("25") == "25"
    ensures BazosFeed.Query(fields, 6, quote) == "&humkreis=25"
  {
    DefaultFieldsFalsy(fields);
    BazosFeed.SingleKept(fields, 5, 6, quote);
    BazosFeed.RadiusPair(quote);
  }

  /** Of the default fields only the radius is truthy. */
  lemma DefaultFieldsFalsy(fields: seq<BazosFeed.Field>)
    requires fields == P.Fields(P.Params(Some(P.NONE), Some(""), Some(""), Some(0), Some(0), Some(25)))
    ensures |fields| == 6 && fields[5] == BazosFeed.Field("humkreis", Int(25))
    ensures forall i :: 0 <= i < |fields| && i != 5 ==> BazosFeed.Falsy(fields[i].value)
  {
    forall i | 0 <= i < |fields| && i != 5
      ensures BazosFeed.Falsy(fields[i].value)
    {
      if i == 0 {} else if i == 1 {} else if i == 2 {} else if i == 3 {} else if i == 4 {} else {}
    }
  }

  /** A price of 0 is dropped from the query exactly like an unset one, so
      the Slovak defaults of 0 never reach the query. */
  lemma ZeroPriceIsUnset(params: P.Params, quote: string -> string)
    requires params.minPrice == Some(0)
    ensures BazosFeed.Query(P.Fields(params.(minPrice := None)), 6, quote)
      == BazosFeed.Query(P.Fields(params), 6, quote)
  {
    var fields := P.Fields(params);
    BazosFeed.FalsyValueIrrelevant(fields, 3, Null, 6, quote);
    assert P.Fields(params.(minPrice := None)) == fields[3 := BazosFeed.Field("cenaod", Null)];
  }
}
