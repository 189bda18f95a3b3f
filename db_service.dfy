/** `CoreDbService`: the watcher document store. Each table is a list of
    documents in insertion order; a query by name returns every document with
    that name, in table order. */
module CoreDbService {

  import opened Common

  /** A parameter dictionary as stored in a watcher document. */
  type ParamBag = map<string, Scalar>

  datatype DataSourceRef = DataSourceRef(name: string, formatter: string, parameters: ParamBag)
  datatype PlatformRef = PlatformRef(name: string, parameters: ParamBag)

  /** A document of the `watchers` table. */
  datatype WatcherDoc = WatcherDoc(name: string, dataSource: DataSourceRef, notificationPlatform: PlatformRef)

  /** A document of the `watcher_data` table: a watcher's stored item list. */
  datatype ItemsDoc<Item> = ItemsDoc(name: string, data: seq<Item>)

  /** A document of the `data_sources` or `notification_platforms` table. */
  datatype NamedDoc = NamedDoc(name: string, fields: ParamBag)

  /** The documents of `watchers` named `name`, in table order. */
  function WatchersNamed(table: seq<WatcherDoc>, name: string): (found: seq<WatcherDoc>)
    ensures |found| <= |table|
    ensures forall d :: d in found <==> d in table && d.name == name
  {
    if |table| == 0 then []
    else (if table[0].name == name then [table[0]] else []) + WatchersNamed(table[1..], name)
  }

  /** The query keeps duplicates: each document named `name` occurs in the
      result as often as in the table, and no other document occurs. */
  lemma {:induction false} WatchersNamedCounts(table: seq<WatcherDoc>, name: string)
    ensures forall d :: multiset(WatchersNamed(table, name))[d] == if d.name == name then multiset(table)[d] else 0
  {
    if |table| > 0 {
      assert table == [table[0]] + table[1..];
      WatchersNamedCounts(table[1..], name);
    }
  }

  /** What `get_watcher_data` yields for `name`: the single document with that
      name, or an error when there is none or more than one. */
  function LookupWatcher(table: seq<WatcherDoc>, name: string): (r: Result<WatcherDoc>)
    ensures r.Ok? <==> |WatchersNamed(table, name)| == 1
    ensures r.Ok? ==> r.value in table && r.value.name == name
    ensures r == Err(WatcherNotFound(name)) <==>
      forall i :: 0 <= i < |table| ==> table[i].name != name
    ensures r.Err? && !r.error.WatcherNotFound? ==>
      r.error == WatcherNotUnique(name, |WatchersNamed(table, name)|) && |WatchersNamed(table, name)| > 1
  {
    var found := WatchersNamed(table, name);
    if |found| == 0 then
      assert forall i :: 0 <= i < |table| ==> table[i].name != name by {
        forall i | 0 <= i < |table|
          ensures table[i].name != name
        {
          assert table[i] in table;
        }
      }
      Err(WatcherNotFound(name))
    else
      assert found[0] in found;
      if |found| > 1 then Err(WatcherNotUnique(name, |found|))
      else Ok(found[0])
  }

  /** Two copies of the same document count twice: the lookup refuses them
      as not unique, with count 2. */
  lemma DuplicateDocNotUnique(d: WatcherDoc)
    ensures LookupWatcher([d, d], d.name) == Err(WatcherNotUnique(d.name, 2))
  {
    WatchersNamedCounts([d, d], d.name);
    assert multiset([d, d])[d] == 2;
  }

  /** The data of the first `watcher_data` document named `name`, or the empty
      list when there is none. */
  function ItemsOf<Item>(table: seq<ItemsDoc<Item>>, name: string): seq<Item>
  {
    if |table| == 0 then []
    else if table[0].name == name then table[0].data
    else ItemsOf(table[1..], name)
  }

  predicate HasItemsDoc<Item>(table: seq<ItemsDoc<Item>>, name: string)
  {
    exists i :: 0 <= i < |table| && table[i].name == name
  }

  /** TinyDB's `upsert(doc, name == w)`: every document named `w` gets data
      `xs`; when there is none, one document is appended. */
  function Upsert<Item>(table: seq<ItemsDoc<Item>>, w: string, xs: seq<Item>): (r: seq<ItemsDoc<Item>>)
    ensures HasItemsDoc(table, w) ==> |r| == |table|
    ensures !HasItemsDoc(table, w) ==> r == table + [ItemsDoc(w, xs)]
    ensures forall i :: 0 <= i < |table| ==>
      r[i] == if table[i].name == w then ItemsDoc(w, xs) else table[i]
  {
    if HasItemsDoc(table, w) then ReplaceData(table, w, xs) else table + [ItemsDoc(w, xs)]
  }

  function ReplaceData<Item>(table: seq<ItemsDoc<Item>>, w: string, xs: seq<Item>): (r: seq<ItemsDoc<Item>>)
    ensures |r| == |table|
    ensures forall i :: 0 <= i < |table| ==>
      r[i] == if table[i].name == w then ItemsDoc(w, xs) else table[i]
  {
    if |table| == 0 then []
    else [if table[0].name == w then ItemsDoc(w, xs) else table[0]] + ReplaceData(table[1..], w, xs)
  }

  /** After `set_watcher_items(w, xs)`, `get_watcher_items(w)` returns `xs`. */
  lemma {:induction false} GetAfterSet<Item>(table: seq<ItemsDoc<Item>>, w: string, xs: seq<Item>)
    ensures ItemsOf(Upsert(table, w, xs), w) == xs
  {
    if HasItemsDoc(table, w) {
      ReplacedFirstHasData(table, w, xs);
    } else {
      AppendedFound(table, w, xs);
    }
  }

  lemma {:induction false} ReplacedFirstHasData<Item>(table: seq<ItemsDoc<Item>>, w: string, xs: seq<Item>)
    requires HasItemsDoc(table, w)
    ensures ItemsOf(ReplaceData(table, w, xs), w) == xs
  {
    if table[0].name != w {
      var i :| 0 <= i < |table| && table[i].name == w;
      assert table[1..][i - 1].name == w;
      ReplacedFirstHasData(table[1..], w, xs);
    }
  }

  lemma {:induction false} AppendedFound<Item>(table: seq<ItemsDoc<Item>>, w: string, xs: seq<Item>)
    requires !HasItemsDoc(table, w)
    ensures ItemsOf(table + [ItemsDoc(w, xs)], w) == xs
  {
    if |table| > 0 {
      assert !HasItemsDoc(table[1..], w) by {
        forall i | 0 <= i < |table[1..]|
          ensures table[1..][i].name != w
        {
          assert table[1..][i] == table[i + 1];
        }
      }
      AppendedFound(table[1..], w, xs);
      assert (table + [ItemsDoc(w, xs)])[1..] == table[1..] + [ItemsDoc(w, xs)];
    }
  }

  /** `set_watcher_items(w, xs)` does not change what other watchers read. */
  lemma {:induction false} SetLeavesOthers<Item>(table: seq<ItemsDoc<Item>>, w: string, xs: seq<Item>, other: string)
    requires other != w
    ensures ItemsOf(Upsert(table, w, xs), other) == ItemsOf(table, other)
  {
    if HasItemsDoc(table, w) {
      ReplaceLeavesOthers(table, w, xs, other);
    } else {
      AppendLeavesOthers(table, w, xs, other);
    }
  }

  lemma {:induction false} ReplaceLeavesOthers<Item>(table: seq<ItemsDoc<Item>>, w: string, xs: seq<Item>, other: string)
    requires other != w
    ensures ItemsOf(ReplaceData(table, w, xs), other) == ItemsOf(table, other)
  {
    if |table| > 0 {
      ReplaceLeavesOthers(table[1..], w, xs, other);
    }
  }

  lemma {:induction false} AppendLeavesOthers<Item>(table: seq<ItemsDoc<Item>>, w: string, xs: seq<Item>, other: string)
    requires other != w
    ensures ItemsOf(table + [ItemsDoc(w, xs)], other) == ItemsOf(table, other)
  {
    if |table| > 0 {
      AppendLeavesOthers(table[1..], w, xs, other);
      assert (table + [ItemsDoc(w, xs)])[1..] == table[1..] + [ItemsDoc(w, xs)];
    }
  }

  /** Writing the same items twice leaves the table as writing them once. */
  lemma SetIsIdempotent<Item>(table: seq<ItemsDoc<Item>>, w: string, xs: seq<Item>)
    ensures Upsert(Upsert(table, w, xs), w, xs) == Upsert(table, w, xs)
  {
    var once := Upsert(table, w, xs);
    if !HasItemsDoc(table, w) {
      assert once[|table|].name == w;
    }
  }

  /** The search loop shared by `get_data_source_data` and
      `get_notification_platform_data`: the first document named `name`. */
  method FindDoc(table: seq<NamedDoc>, name: string) returns (found: Option<NamedDoc>)
    ensures found.None? <==> forall i :: 0 <= i < |table| ==> table[i].name != name
    ensures found.Some? ==> (exists i :: 0 <= i < |table| && table[i] == found.value
                               && table[i].name == name
                               && forall j :: 0 <= j < i ==> table[j].name != name)
  {
    var i := 0;
    while i < |table|
      invariant 0 <= i <= |table|
      invariant forall j :: 0 <= j < i ==> table[j].name != name
    {
      if table[i].name == name {
        return Some(table[i]);
      }
      i := i + 1;
    }
    return None;
  }

  /** TinyDB's `search(Query().name == name)` on the `watchers` table: the
      matching documents in table order. */
  method SearchWatchers(table: seq<WatcherDoc>, name: string) returns (found: seq<WatcherDoc>)
    ensures found == WatchersNamed(table, name)
  {
    found := [];
    var i := 0;
    while i < |table|
      invariant 0 <= i <= |table|
      invariant found + WatchersNamed(table[i..], name) == WatchersNamed(table, name)
    {
      var here := if table[i].name == name then [table[i]] else [];
      ghost var rest := WatchersNamed(table[i + 1..], name);
      assert WatchersNamed(table[i..], name) == here + rest by {
        assert table[i..][0] == table[i] && table[i..][1..] == table[i + 1..];
      }
      Assoc(found, here, rest);
      found := found + here;
      i := i + 1;
    }
    assert table[i..] == [];
  }

  class CoreDb<Item(==)> {
    /** The `watchers` table. */
    var watchers: seq<WatcherDoc>
    /** The `watcher_data` table. */
    var watcherData: seq<ItemsDoc<Item>>
    /** The `data_sources` table. */
    var dataSources: seq<NamedDoc>
    /** The `notification_platforms` table. */
    var notificationPlatforms: seq<NamedDoc>

    constructor (watchers: seq<WatcherDoc>, watcherData: seq<ItemsDoc<Item>>,
                 dataSources: seq<NamedDoc>, notificationPlatforms: seq<NamedDoc>)
      ensures this.watchers == watchers && this.watcherData == watcherData
      ensures this.dataSources == dataSources && this.notificationPlatforms == notificationPlatforms
    {
      this.watchers := watchers;
      this.watcherData := watcherData;
      this.dataSources := dataSources;
      this.notificationPlatforms := notificationPlatforms;
    }

    /** `get_watcher_data`: collects the documents named `watcherName`, fails
        when there are none or more than one, else returns the only one. */
    method GetWatcherData(watcherName: string) returns (r: Result<WatcherDoc>)
      ensures r == LookupWatcher(watchers, watcherName)
    {
      var found := SearchWatchers(watchers, watcherName);
      if |found| == 0 {
        return Err(WatcherNotFound(watcherName));
      }
      if |found| > 1 {
        return Err(WatcherNotUnique(watcherName, |found|));
      }
      r := Ok(found[0]);
    }

    /** `get_watcher_items`: the data of the first document for the watcher,
        or the empty list when the watcher has no document. */
    method GetWatcherItems(watcher: string) returns (items: seq<Item>)
      ensures (forall i :: 0 <= i < |watcherData| ==> watcherData[i].name != watcher) ==> items == []
      ensures forall i :: (0 <= i < |watcherData| && watcherData[i].name == watcher
                           && forall j :: 0 <= j < i ==> watcherData[j].name != watcher)
                          ==> items == watcherData[i].data
      ensures items == ItemsOf(watcherData, watcher)
    {
      var i := 0;
      while i < |watcherData|
        invariant 0 <= i <= |watcherData|
        invariant forall j :: 0 <= j < i ==> watcherData[j].name != watcher
        invariant ItemsOf(watcherData, watcher) == ItemsOf(watcherData[i..], watcher)
      {
        assert watcherData[i..][1..] == watcherData[i + 1..];
        if watcherData[i].name == watcher {
          return watcherData[i].data;
        }
        i := i + 1;
      }
      return [];
    }

    /** `set_watcher_items`: upserts the watcher's item list; the other tables
        are untouched. */
    method SetWatcherItems(watcher: string, data: seq<Item>)
      modifies this
      ensures watcherData == Upsert(old(watcherData), watcher, data)
      ensures watchers == old(watchers) && dataSources == old(dataSources)
      ensures notificationPlatforms == old(notificationPlatforms)
    {
      var table := watcherData;
      var updated := false;
      var i := 0;
      while i < |table|
        invariant 0 <= i <= |table| && |table| == |watcherData|
        invariant updated <==> exists j :: 0 <= j < i && watcherData[j].name == watcher
        invariant forall j :: 0 <= j < |table| ==>
          table[j] == if j < i && watcherData[j].name == watcher then ItemsDoc(watcher, data) else watcherData[j]
      {
        if table[i].name == watcher {
          table := table[i := ItemsDoc(watcher, data)];
          updated := true;
        }
        i := i + 1;
      }
      if !updated {
        table := table + [ItemsDoc(watcher, data)];
      }
      watcherData := table;
    }

    /** `get_data_source_data`: the first document with the name, with no
        uniqueness check, or an error when there is none. */
    method GetDataSourceData(dataSourceName: string) returns (r: Result<NamedDoc>)
      ensures r.Err? <==> forall i :: 0 <= i < |dataSources| ==> dataSources[i].name != dataSourceName
      ensures r.Err? ==> r.error == DataSourceDataNotFound(dataSourceName)
      ensures r.Ok? ==> (exists i :: 0 <= i < |dataSources| && dataSources[i] == r.value
                           && dataSources[i].name == dataSourceName
                           && forall j :: 0 <= j < i ==> dataSources[j].name != dataSourceName)
    {
      var found := FindDoc(dataSources, dataSourceName);
      if found.None? {
        return Err(DataSourceDataNotFound(dataSourceName));
      }
      return Ok(found.value);
    }

    /** `get_notification_platform_data`: the first document with the name,
        or an error when there is none. */
    method GetNotificationPlatformData(platformName: string) returns (r: Result<NamedDoc>)
      ensures r.Err? <==> forall i :: 0 <= i < |notificationPlatforms| ==>
        notificationPlatforms[i].name != platformName
      ensures r.Err? ==> r.error == NotificationPlatformDataNotFound(platformName)
      ensures r.Ok? ==> (exists i :: 0 <= i < |notificationPlatforms| && notificationPlatforms[i] == r.value
                           && notificationPlatforms[i].name == platformName
                           && forall j :: 0 <= j < i ==> notificationPlatforms[j].name != platformName)
    {
      var found := FindDoc(notificationPlatforms, platformName);
      if found.None? {
        return Err(NotificationPlatformDataNotFound(platformName));
      }
      return Ok(found.value);
    }
  }
}
