/** The logic `bazos_cz_data_service.py` and `bazos_sk_data_service.py` share
    line for line: the query string `_build_url` assembles from the parameter
    fields, the per-item string rules of `_parse_response_xml` with its item
    loop, and the status guard of `get_items`. Each data service feeds it its
    own fields in its own declaration order. */
module BazosFeed {

  import opened Common
  import Strings

  /** One parameter field, in declaration order: its `uri_param_name` and the
      value `model_dump` gives for it. */
  datatype Field = Field(uriName: string, value: Scalar)

  /** Python truthiness of a field value: `""`, `0` and `None` are false. */
  predicate Falsy(v: Scalar)
  {
    match v
    case Str(s) => s == ""
    case Int(n) => n == 0
    case Null => true
  }

  /** `str(value)`. */
  function Show(v: Scalar): string
  {
    match v
    case Str(s) => s
    case Int(n) => Strings.IntToString(n)
    case Null => "None"
  }

  /** The value written for a kept field: the quoted text, which for the
      field named `rub` is cut to at most its first two characters. */
  function UriValue(f: Field, quote: string -> string): (v: string)
    ensures f.uriName != "rub" ==> v == quote(Show(f.value))
    ensures f.uriName == "rub" ==> Strings.StartsWith(quote(Show(f.value)), v)
    ensures f.uriName == "rub" ==> |v| == if |quote(Show(f.value))| < 2 then |quote(Show(f.value))| else 2
  {
    var q := quote(Show(f.value));
    if f.uriName == "rub" && |q| > 2 then q[..2] else q
  }

  /** `<uri_param_name>=<value>` for a kept field. */
  function Pair(f: Field, quote: string -> string): string
  {
    f.uriName + "=" + UriValue(f, quote)
  }

  /** What one turn of the loop appends for the field at index `i`: nothing
      for a falsy value, else the pair, preceded by `&` unless `i` is 0. */
  function Step(fields: seq<Field>, i: nat, quote: string -> string): string
    requires i < |fields|
  {
    if Falsy(fields[i].value) then ""
    else (if i != 0 then "&" else "") + Pair(fields[i], quote)
  }

  /** `uri` once the loop has seen the first `n` fields. */
  function Query(fields: seq<Field>, n: nat, quote: string -> string): string
    requires n <= |fields|
  {
    if n == 0 then "" else Query(fields, n - 1, quote) + Step(fields, n - 1, quote)
  }

  /** Reference definition: the pairs of the kept fields among the first `n`,
      in field order. */
  function Kept(fields: seq<Field>, n: nat, quote: string -> string): seq<string>
    requires n <= |fields|
  {
    if n == 0 then []
    else Kept(fields, n - 1, quote) + if Falsy(fields[n - 1].value) then [] else [Pair(fields[n - 1], quote)]
  }

  /** The extra `&` in front of the query: present exactly when the first
      field is skipped and some later field among the first `n` is kept. */
  function Lead(fields: seq<Field>, n: nat, quote: string -> string): string
    requires n <= |fields|
  {
    if n > 0 && Falsy(fields[0].value) && |Kept(fields, n, quote)| > 0 then "&" else ""
  }

  /** A field is skipped exactly when its value is falsy: no pair is kept iff
      every value is falsy. */
  lemma {:induction false} NothingKept(fields: seq<Field>, n: nat, quote: string -> string)
    requires n <= |fields|
    ensures |Kept(fields, n, quote)| == 0 <==> forall i :: 0 <= i < n ==> Falsy(fields[i].value)
  {
    if n > 0 {
      NothingKept(fields, n - 1, quote);
    }
  }

  /** The query is the kept pairs joined with `&`, preceded by the extra `&`
      of `Lead`. */
  lemma {:induction false} QueryJoinsKept(fields: seq<Field>, n: nat, quote: string -> string)
    requires n <= |fields|
    ensures Query(fields, n, quote) == Lead(fields, n, quote) + Strings.Join(Kept(fields, n, quote), "&")
  {
    if n > 0 {
      QueryJoinsKept(fields, n - 1, quote);
      if Falsy(fields[n - 1].value) {
        SkippedStep(fields, n, quote);
      } else if |Kept(fields, n - 1, quote)| == 0 {
        FirstKeptStep(fields, n, quote);
      } else {
        LaterKeptStep(fields, n, quote);
      }
    }
  }

  /** Induction step of `QueryJoinsKept` for a skipped field. */
  lemma SkippedStep(fields: seq<Field>, n: nat, quote: string -> string)
    requires 0 < n <= |fields| && Falsy(fields[n - 1].value)
    requires Query(fields, n - 1, quote) == Lead(fields, n - 1, quote) + Strings.Join(Kept(fields, n - 1, quote), "&")
    ensures Query(fields, n, quote) == Lead(fields, n, quote) + Strings.Join(Kept(fields, n, quote), "&")
  {
    assert Kept(fields, n, quote) == Kept(fields, n - 1, quote);
    assert Lead(fields, n, quote) == Lead(fields, n - 1, quote);
    assert Query(fields, n, quote) == Query(fields, n - 1, quote) + "";
  }

  /** Induction step of `QueryJoinsKept` for the first kept field. */
  lemma FirstKeptStep(fields: seq<Field>, n: nat, quote: string -> string)
    requires 0 < n <= |fields| && !Falsy(fields[n - 1].value) && |Kept(fields, n - 1, quote)| == 0
    requires Query(fields, n - 1, quote) == Lead(fields, n - 1, quote) + Strings.Join(Kept(fields, n - 1, quote), "&")
    ensures Query(fields, n, quote) == Lead(fields, n, quote) + Strings.Join(Kept(fields, n, quote), "&")
  {
    var p := Pair(fields[n - 1], quote);
    assert Kept(fields, n, quote) == [p];
    assert Query(fields, n - 1, quote) == "";
    if n - 1 > 0 {
      NothingKept(fields, n - 1, quote);
      assert Lead(fields, n, quote) == "&";
      assert Query(fields, n, quote) == "" + ("&" + p);
    } else {
      assert Lead(fields, n, quote) == "";
      assert Query(fields, n, quote) == "" + ("" + p);
    }
  }

  /** Induction step of `QueryJoinsKept` for a kept field after another kept one. */
  lemma LaterKeptStep(fields: seq<Field>, n: nat, quote: string -> string)
    requires 0 < n <= |fields| && !Falsy(fields[n - 1].value) && |Kept(fields, n - 1, quote)| > 0
    requires Query(fields, n - 1, quote) == Lead(fields, n - 1, quote) + Strings.Join(Kept(fields, n - 1, quote), "&")
    ensures Query(fields, n, quote) == Lead(fields, n, quote) + Strings.Join(Kept(fields, n, quote), "&")
  {
    var prev := Kept(fields, n - 1, quote);
    var p := Pair(fields[n - 1], quote);
    var lead := Lead(fields, n - 1, quote);
    var joined := Strings.Join(prev, "&");
    assert Kept(fields, n, quote) == prev + [p];
    assert Lead(fields, n, quote) == lead;
    assert Strings.Join(prev + [p], "&") == joined + "&" + p by {
      Strings.JoinSnoc(prev + [p], "&");
      assert (prev + [p])[..|prev|] == prev;
    }
    assert Query(fields, n, quote) == (lead + joined) + ("&" + p) by {
      assert n - 1 > 0;
    }
    Assoc(lead, joined, "&" + p);
    Assoc(joined, "&", p);
  }

  /** When every value is falsy the query is empty. */
  lemma AllSkippedGivesEmptyQuery(fields: seq<Field>, quote: string -> string)
    requires forall i :: 0 <= i < |fields| ==> Falsy(fields[i].value)
    ensures Query(fields, |fields|, quote) == ""
  {
    NothingKept(fields, |fields|, quote);
    QueryJoinsKept(fields, |fields|, quote);
  }

  /** With the first value truthy, the query is exactly the kept pairs joined
      with `&`, starting with the first field's pair. */
  lemma FirstKeptGivesJoinedPairs(fields: seq<Field>, quote: string -> string)
    requires |fields| > 0 && !Falsy(fields[0].value)
    ensures Query(fields, |fields|, quote) == Strings.Join(Kept(fields, |fields|, quote), "&")
    ensures Strings.StartsWith(Query(fields, |fields|, quote), Pair(fields[0], quote))
  {
    QueryJoinsKept(fields, |fields|, quote);
    QueryStartsWithFirstStep(fields, |fields|, quote);
  }

  /** The first loop turn's text begins the query. */
  lemma {:induction false} QueryStartsWithFirstStep(fields: seq<Field>, n: nat, quote: string -> string)
    requires 0 < n <= |fields|
    ensures Strings.StartsWith(Query(fields, n, quote), Step(fields, 0, quote))
  {
    if n > 1 {
      QueryStartsWithFirstStep(fields, n - 1, quote);
    }
  }

  /** Fields before `n` that are all falsy contribute nothing. */
  lemma {:induction false} SkippedPrefixEmpty(fields: seq<Field>, n: nat, quote: string -> string)
    requires n <= |fields|
    requires forall i :: 0 <= i < n ==> Falsy(fields[i].value)
    ensures Query(fields, n, quote) == ""
  {
    if n > 0 {
      SkippedPrefixEmpty(fields, n - 1, quote);
    }
  }

  /** When exactly one field is kept, the query is that field's own text,
      with its `&` when it is not field 0. */
  lemma {:induction false} SingleKept(fields: seq<Field>, k: nat, n: nat, quote: string -> string)
    requires k < n <= |fields| && !Falsy(fields[k].value)
    requires forall i :: 0 <= i < |fields| && i != k ==> Falsy(fields[i].value)
    ensures Query(fields, n, quote) == Step(fields, k, quote)
  {
    if n == k + 1 {
      SkippedPrefixEmpty(fields, k, quote);
    } else {
      SingleKept(fields, k, n - 1, quote);
    }
  }

  /** The default radius field `humkreis=25` keeps its digits when `quote`
      leaves `"25"` alone. */
  lemma RadiusPair(quote: string -> string)
    requires quote("25") == "25"
    ensures Pair(Field("humkreis", Int(25)), quote) == "humkreis=25"
  {
    Strings.TwoDigits(25);
  }

  /** Which falsy value a skipped field holds does not matter: `""`, `0` and
      `None` give the same query. */
  lemma {:induction false} FalsyValueIrrelevant(fields: seq<Field>, i: nat, v: Scalar, n: nat, quote: string -> string)
    requires i < |fields| && n <= |fields|
    requires Falsy(fields[i].value) && Falsy(v)
    ensures Query(fields[i := Field(fields[i].uriName, v)], n, quote) == Query(fields, n, quote)
  {
    if n > 0 {
      FalsyValueIrrelevant(fields, i, v, n - 1, quote);
      var changed := fields[i := Field(fields[i].uriName, v)];
      assert Step(changed, n - 1, quote) == Step(fields, n - 1, quote);
    }
  }

  /** `_build_url`: walks the fields in order, appending each kept field's
      pair (with `&` before it unless it is field 0), then prefixes the base
      URL and `?`. */
  method BuildUrl(baseUrl: string, fields: seq<Field>, quote: string -> string) returns (url: string)
    ensures url == baseUrl + "?" + Query(fields, |fields|, quote)
  {
    var uri := "";
    for i := 0 to |fields|
      invariant uri == Query(fields, i, quote)
    {
      var f := fields[i];
      if !Falsy(f.value) {
        var value := quote(Show(f.value));
        if f.uriName == "rub" && |value| > 2 {
          value := value[..2];
        }
        ghost var before := uri;
        if i != 0 {
          uri := uri + "&";
        }
        uri := uri + (f.uriName + "=" + value);
        Assoc(before, if i != 0 then "&" else "", Pair(f, quote));
      } else {
        assert uri + "" == uri;
      }
    }
    url := baseUrl + "?" + uri;
  }

  /** The texts of one `<item>` of the feed: title, link, description and
      publication date. */
  datatype Entry = Entry(title: string, link: string, description: string, pubDate: string)

  /** A parsed feed item (`BazosCzItem` / `BazosSkItem`); `pubDate` is the
      instant the date text denotes. */
  datatype FeedItem = FeedItem(title: string, price: string, url: string, description: string, pubDate: int)

  /** The (title, price) pair read from an item's title text: the stripped
      text is split on `:`, the last piece stripped is the price and the
      earlier pieces joined with `:` are the title. */
  function SplitTitle(text: string): (string, string)
  {
    var parts := Strings.Split(Strings.Strip(text), ':');
    (Strings.Join(parts[..|parts| - 1], ":"), Strings.Strip(parts[|parts| - 1]))
  }

  /** Splitting on `:` cuts at the colons: without one there is one piece,
      the text itself; otherwise the last piece is what follows the last
      colon and the earlier pieces re-joined are what precedes it. */
  lemma {:induction false} PiecesAroundLastColon(t: string)
    ensures Strings.LastIndexOf(t, ':').None? ==> Strings.Split(t, ':') == [t]
    ensures Strings.LastIndexOf(t, ':').Some? ==>
      var k, parts := Strings.LastIndexOf(t, ':').value, Strings.Split(t, ':');
      Strings.Join(parts[..|parts| - 1], ":") == t[..k] && parts[|parts| - 1] == t[k + 1..]
  {
    var parts := Strings.Split(t, ':');
    if |parts| == 1 {
      assert t == parts[0] by {
        Strings.JoinSplit(t, ':');
      }
      assert ':' !in t;
    } else {
      CutAtLastColon(t);
    }
  }

  /** With two or more pieces, the re-joined earlier pieces end where the last
      `:` stands, and the last piece follows it. */
  lemma {:induction false} CutAtLastColon(t: string)
    requires |Strings.Split(t, ':')| >= 2
    ensures var parts := Strings.Split(t, ':');
      var pre := Strings.Join(parts[..|parts| - 1], ":");
      && Strings.LastIndexOf(t, ':') == Some(|pre|)
      && t[..|pre|] == pre && t[|pre| + 1..] == parts[|parts| - 1]
  {
    var parts := Strings.Split(t, ':');
    var pre, last := Strings.Join(parts[..|parts| - 1], ":"), parts[|parts| - 1];
    assert t == pre + (":" + last) by {
      Strings.JoinSplit(t, ':');
      assert ":" == [':'];
      Strings.JoinSnoc(parts, ":");
      Assoc(pre, ":", last);
    }
    var k0 := |pre|;
    assert t[..k0] == pre && t[k0] == ':' && t[k0 + 1..] == last by {
      assert t[k0..] == ":" + last;
    }
    assert ':' !in last;
    Strings.LastIndexOfUnique(t, ':', k0);
  }

  /** The split happens at the last `:` of the stripped title text; without a
      `:` the title is empty and the whole stripped text is the price. */
  lemma TitleSplitsAtLastColon(text: string)
    ensures var t := Strings.Strip(text);
      Strings.LastIndexOf(t, ':').None? ==> SplitTitle(text) == ("", Strings.Strip(t))
    ensures var t := Strings.Strip(text);
      Strings.LastIndexOf(t, ':').Some? ==>
        var k := Strings.LastIndexOf(t, ':').value;
        SplitTitle(text) == (t[..k], Strings.Strip(t[k + 1..]))
  {
    PiecesAroundLastColon(Strings.Strip(text));
  }

  /** `description` with a leading `<img .../>` tag removed: everything up to
      and including the first `/>` is dropped; when there is no `/>`, the
      `-1` from `find` drops only the first character. */
  function StripImage(d: string): string
  {
    if Strings.StartsWith(d, "<img") then d[Strings.Find(d, "/>") + 2..] else d
  }

  /** A description not starting with `<img` is kept as it is. */
  lemma PlainDescriptionKept(d: string)
    requires !Strings.StartsWith(d, "<img")
    ensures StripImage(d) == d
  {
  }

  /** With `/>` first occurring at `k`, the image tag and everything before
      it are dropped. */
  lemma ImageTagDropped(d: string, k: nat)
    requires Strings.StartsWith(d, "<img")
    requires k <= |d| && Strings.StartsWith(d[k..], "/>")
    requires forall j :: 0 <= j < k ==> !Strings.StartsWith(d[j..], "/>")
    ensures StripImage(d) == d[k + 2..]
  {
  }

  /** Without any `/>`, only the first character (`<`) is dropped. */
  lemma UnclosedImageTag(d: string)
    requires Strings.StartsWith(d, "<img")
    requires forall j :: 0 <= j <= |d| ==> !Strings.StartsWith(d[j..], "/>")
    ensures StripImage(d) == d[1..]
  {
  }

  /** One item: the title split, the link, the description without its image
      tag, and the parsed date; `parseDate` is `strptime` with the RFC 822
      date format, `None` where it raises. */
  function ParseEntry(e: Entry, parseDate: string -> Option<int>): (r: Result<FeedItem>)
    ensures r.Err? <==> parseDate(e.pubDate).None?
    ensures r.Err? ==> r.error == DateParseFailed(e.pubDate)
    ensures r.Ok? ==> r.value.url == e.link && parseDate(e.pubDate) == Some(r.value.pubDate)
  {
    var (title, price) := SplitTitle(e.title);
    match parseDate(e.pubDate)
    case None => Err(DateParseFailed(e.pubDate))
    case Some(t) => Ok(FeedItem(title, price, e.link, StripImage(e.description), t))
  }

  /** `ParseEntry` with its date parser fixed, as a function value. */
  function Parser(parseDate: string -> Option<int>): Entry -> Result<FeedItem>
  {
    e => ParseEntry(e, parseDate)
  }

  /** The items of a feed under the per-item rule `parse`, in feed order, or
      the failure of the first item that fails. */
  function ParseAll(entries: seq<Entry>, parse: Entry -> Result<FeedItem>): (r: Result<seq<FeedItem>>)
    ensures r.Ok? <==> forall i :: 0 <= i < |entries| ==> parse(entries[i]).Ok?
    ensures r.Ok? ==> |r.value| == |entries|
    ensures r.Ok? ==> forall i :: 0 <= i < |entries| ==> r.value[i] == parse(entries[i]).value
  {
    if |entries| == 0 then Ok([])
    else
      var n := |entries| - 1;
      var prefix := ParseAll(entries[..n], parse);
      assert forall i :: 0 <= i < n ==> entries[..n][i] == entries[i];
      if prefix.Err? then prefix
      else
        var last := parse(entries[n]);
        if last.Err? then Err(last.error) else Ok(prefix.value + [last.value])
  }

  /** A failed parse reports the failure of the first item that fails. */
  lemma {:induction false} ParseAllFirstFailure(entries: seq<Entry>, parse: Entry -> Result<FeedItem>)
    requires ParseAll(entries, parse).Err?
    ensures exists i :: (0 <= i < |entries|
      && parse(entries[i]) == Err(ParseAll(entries, parse).error)
      && forall j :: 0 <= j < i ==> parse(entries[j]).Ok?)
  {
    var n := |entries| - 1;
    var prefix := ParseAll(entries[..n], parse);
    if prefix.Err? {
      ParseAllFirstFailure(entries[..n], parse);
      var i :| 0 <= i < n && parse(entries[..n][i]) == Err(prefix.error)
        && forall j :: 0 <= j < i ==> parse(entries[..n][j]).Ok?;
      assert entries[..n][i] == entries[i];
      forall j | 0 <= j < i
        ensures parse(entries[j]).Ok?
      {
        assert entries[..n][j] == entries[j];
      }
    } else {
      forall j | 0 <= j < n
        ensures parse(entries[j]).Ok?
      {
        assert entries[..n][j] == entries[j];
      }
    }
  }

  /** Once a prefix of the feed fails, the whole feed fails the same way:
      later items are never looked at. */
  lemma {:induction false} FailureSticks(entries: seq<Entry>, k: nat, parse: Entry -> Result<FeedItem>)
    requires k <= |entries| && ParseAll(entries[..k], parse).Err?
    ensures ParseAll(entries, parse) == ParseAll(entries[..k], parse)
    decreases |entries| - k
  {
    if k < |entries| {
      var n := |entries| - 1;
      assert entries[..n][..k] == entries[..k];
      FailureSticks(entries[..n], k, parse);
    } else {
      assert entries[..k] == entries;
    }
  }

  /** The item loop of `_parse_response_xml`: each item in feed order goes
      through the per-item rule `parse` and is appended; the first failure
      ends the loop. */
  method ParseItems(entries: seq<Entry>, parse: Entry -> Result<FeedItem>) returns (r: Result<seq<FeedItem>>)
    ensures r == ParseAll(entries, parse)
  {
    var items: seq<FeedItem> := [];
    for i := 0 to |entries|
      invariant ParseAll(entries[..i], parse) == Ok(items)
    {
      assert entries[..i + 1][..i] == entries[..i];
      var item := parse(entries[i]);
      if item.Err? {
        FailureSticks(entries, i + 1, parse);
        return Err(item.error);
      }
      items := items + [item.value];
    }
    assert entries[..|entries|] == entries;
    r := Ok(items);
  }

  /** An HTTP response: its status code and the items of the feed it carries. */
  datatype Response = Response(status: int, entries: seq<Entry>)

  /** `get_items`: the URL is built, fetched once through `http`, a status
      other than 200 fails with that URL and status before any parsing, and
      otherwise the items are parsed in feed order. */
  method GetItems(baseUrl: string, fields: seq<Field>, quote: string -> string,
                  http: string -> Response, parseDate: string -> Option<int>)
    returns (r: Result<seq<FeedItem>>)
    ensures var url := baseUrl + "?" + Query(fields, |fields|, quote);
      if http(url).status != 200 then r == Err(FetchFailed(url, http(url).status))
      else r == ParseAll(http(url).entries, Parser(parseDate))
  {
    var url := BuildUrl(baseUrl, fields, quote);
    var response := http(url);
    if response.status != 200 {
      return Err(FetchFailed(url, response.status));
    }
    r := ParseItems(response.entries, Parser(parseDate));
  }
}
