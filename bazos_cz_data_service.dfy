/** `BazosCzDataService`: the bazos.cz RSS query for a validated parameter
    model and the fetch of its items. `BASE_URL`, `urllib.parse.quote`, the
    HTTP client and the date parser are parameters. */
module BazosCzDataService {

  import opened Common
  import Strings
  import BazosFeed
  import P = BazosCzParameters

  /** `_build_url`: the base URL, `?`, then the kept fields' pairs joined with
      `&`, with one extra leading `&` when the category is skipped and some
      later field is kept. */
  method BuildUrl(baseUrl: string, params: P.Params, quote: string -> string) returns (url: string)
    ensures url == baseUrl + "?" + BazosFeed.Lead(P.Fields(params), 6, quote)
      + Strings.Join(BazosFeed.Kept(P.Fields(params), 6, quote), "&")
  {
    url := BazosFeed.BuildUrl(baseUrl, P.Fields(params), quote);
    BazosFeed.QueryJoinsKept(P.Fields(params), 6, quote);
  }

  /** `get_items`: one request to the built URL; a status other than 200
      fails with the URL and the status, otherwise the feed's items are
      parsed in feed order. */
  method GetItems(baseUrl: string, params: P.Params, quote: string -> string,
                  http: string -> BazosFeed.Response, parseDate: string -> Option<int>)
    returns (r: Result<seq<BazosFeed.FeedItem>>)
    ensures var url := baseUrl + "?" + BazosFeed.Query(P.Fields(params), 6, quote);
      if http(url).status != 200 then r == Err(FetchFailed(url, http(url).status))
      else r == BazosFeed.ParseAll(http(url).entries, BazosFeed.Parser(parseDate))
  {
    r := BazosFeed.GetItems(baseUrl, P.Fields(params), quote, http, parseDate);
  }

  /** With every parameter at its default, only the radius is kept, and as it
      is not the first field the query starts with `&`: `&humkreis=25`. */
  lemma DefaultQuery(quote: string -> string)
    requires quote("25") == "25"
    ensures P.Parse(map[]).Ok?
    ensures BazosFeed.Query(P.Fields(P.Parse(map[]).value), 6, quote) == "&humkreis=25"
  {
    P.Defaults();
    DefaultFieldsQuery(P.Fields(P.Parse(map[]).value), quote);
  }

  lemma DefaultFieldsQuery(fields: seq<BazosFeed.Field>, quote: string -> string)
    requires fields == P.Fields(P.Params(Some(P.NONE), Some(""), Some(""), Some(25), None, None))
    requires quote("25") == "25"
    ensures BazosFeed.Query(fields, 6, quote) == "&humkreis=25"
  {
    DefaultFieldsFalsy(fields);
    BazosFeed.SingleKept(fields, 3, 6, quote);
    BazosFeed.RadiusPair(quote);
  }

  /** Of the default fields only the radius is truthy. */
  lemma DefaultFieldsFalsy(fields: seq<BazosFeed.Field>)
    requires fields == P.Fields(P.Params(Some(P.NONE), Some(""), Some(""), Some(25), None, None))
    ensures |fields| == 6 && fields[3] == BazosFeed.Field("humkreis", Int(25))
    ensures forall i :: 0 <= i < |fields| && i != 3 ==> BazosFeed.Falsy(fields[i].value)
  {
    forall i | 0 <= i < |fields| && i != 3
      ensures BazosFeed.Falsy(fields[i].value)
    {
      if i == 0 {} else if i == 1 {} else if i == 2 {} else if i == 3 {} else if i == 4 {} else {}
    }
  }

  /** A chosen category comes first, unprefixed, as `rub=` and at most two
      characters of its quoted value. */
  lemma CategoryLeads(params: P.Params, quote: string -> string)
    requires params.category.Some? && params.category.value != P.NONE
    ensures var q := quote(P.Value(params.category.value));
      Strings.StartsWith(BazosFeed.Query(P.Fields(params), 6, quote),
                         "rub=" + if |q| > 2 then q[..2] else q)
  {
    var fields := P.Fields(params);
    var q := quote(P.Value(params.category.value));
    assert BazosFeed.Pair(fields[0], quote) == "rub=" + if |q| > 2 then q[..2] else q;
    assert !BazosFeed.Falsy(fields[0].value);
    BazosFeed.FirstKeptGivesJoinedPairs(fields, quote);
  }
}
