/** `Watcher`: one check of a configured watcher. The watcher document names
    a data source (with its parameters and formatter) and a notification
    platform (with its parameters). A check fetches the source's items,
    compares them with the stored baseline and notifies about the new ones.

    The data sources and platforms themselves are collaborators outside this
    model: a `World` gives, per class, what configuring, fetching, formatter
    lookup and delivery do. Every call into the world is logged as an
    `Event`. */
module UniversalWatcher {

  import opened Common
  import opened Plugins
  import opened CoreDbService
  import DataSourceRegistryService
  import NotificationRegistryService
  import opened BazosSkFormatterService

  /** The input `format_items` builds for a platform: the formatter class that
      rendered it and the items it rendered. */
  datatype Payload<Item> = Payload(formatter: ClassId, items: seq<Item>)

  /** The behaviour of the plugins, by class. */
  datatype World<!Item> = World(
    configureSource: (ClassId, ParamBag) -> Outcome,          // `set_params` of a data source
    fetch: (ClassId, ParamBag) -> Result<seq<Item>>,         // `fetch_items` under those parameters
    formatters: ClassId -> FormatterTable,                    // each data source's formatter table
    configurePlatform: (ClassId, ParamBag) -> Outcome,        // `set_params` of a platform
    deliver: (ClassId, Payload<Item>) -> Outcome)             // `notify`

  /** A call into a plugin. */
  datatype Event<Item> =
    | ConfigureSource(source: ClassId, sourceParams: ParamBag)
    | Fetch(fetched: ClassId)
    | ConfigurePlatform(platform: ClassId, platformParams: ParamBag)
    | Notify(notified: ClassId, payload: Payload<Item>)

  /** What `format_items` is handed: the formatter object `get_formatter`
      returned, as the source does, or the configured formatter name. */
  datatype FormatterPassing = PassObject | PassName

  /** The items of `items` not equal to any item of `current`, in their order,
      repeats kept: the list comprehension that computes `new_items`. */
  function NewItems<Item(==)>(items: seq<Item>, current: seq<Item>): (r: seq<Item>)
    ensures |r| <= |items|
  {
    if |items| == 0 then []
    else (if items[0] in current then [] else [items[0]]) + NewItems(items[1..], current)
  }

  /** An item is in `new_items` exactly when it was fetched and is not in the
      baseline; so nothing is new exactly when every fetched item is in the
      baseline. */
  lemma {:induction false} NewItemsMembers<Item>(items: seq<Item>, current: seq<Item>)
    ensures forall x :: x in NewItems(items, current) <==> x in items && x !in current
    ensures NewItems(items, current) == [] <==> forall i :: 0 <= i < |items| ==> items[i] in current
  {
    if |items| > 0 {
      NewItemsMembers(items[1..], current);
      assert items == [items[0]] + items[1..];
      if NewItems(items, current) == [] {
        forall i | 0 <= i < |items|
          ensures items[i] in current
        {
          if i > 0 {
            assert items[i] == items[1..][i - 1];
          }
        }
      }
    }
  }

  /** Each item of `items` not in `current` occurs in `new_items` as often as
      it was fetched; baseline items never occur. */
  lemma {:induction false} NewItemsCounts<Item>(items: seq<Item>, current: seq<Item>, x: Item)
    ensures multiset(NewItems(items, current))[x] == if x in current then 0 else multiset(items)[x]
  {
    if |items| > 0 {
      NewItemsCounts(items[1..], current, x);
      var head := if items[0] in current then [] else [items[0]];
      assert NewItems(items, current) == head + NewItems(items[1..], current);
      assert items == [items[0]] + items[1..];
      assert multiset(items) == multiset([items[0]]) + multiset(items[1..]);
    }
  }

  /** The comprehension keeps fetch order: filtering a concatenation is
      concatenating the filtered parts. */
  lemma {:induction false} NewItemsOfConcat<Item>(a: seq<Item>, b: seq<Item>, current: seq<Item>)
    ensures NewItems(a + b, current) == NewItems(a, current) + NewItems(b, current)
  {
    if |a| == 0 {
      assert a + b == b;
    } else {
      var head := if a[0] in current then [] else [a[0]];
      assert NewItems(a + b, current) == head + NewItems(a[1..] + b, current) by {
        assert a + b == [a[0]] + (a[1..] + b);
        NewItemsCons(a[0], a[1..] + b, current);
      }
      assert NewItems(a, current) == head + NewItems(a[1..], current) by {
        assert a == [a[0]] + a[1..];
        NewItemsCons(a[0], a[1..], current);
      }
      NewItemsOfConcat(a[1..], b, current);
      Assoc(head, NewItems(a[1..], current), NewItems(b, current));
    }
  }

  lemma NewItemsCons<Item>(x: Item, rest: seq<Item>, current: seq<Item>)
    ensures NewItems([x] + rest, current) == (if x in current then [] else [x]) + NewItems(rest, current)
  {
    assert ([x] + rest)[1..] == rest;
  }

  /** How far a check gets before it looks at the baseline: it stops with an
      outcome, or holds the watcher document, the data source class and the
      fetched items. */
  datatype Stage<Item> =
    | Stopped(outcome: Outcome, events: seq<Event<Item>>)
    | Fetched(doc: WatcherDoc, cls: ClassId, items: seq<Item>, events: seq<Event<Item>>)

  /** The end of a check: its outcome, the plugin calls it made, and the
      `watcher_data` table it leaves. */
  datatype Run<Item> = Run(outcome: Outcome, events: seq<Event<Item>>, watcherData: seq<ItemsDoc<Item>>)

  /** Loading the watcher, resolving and configuring its data source, fetching. */
  function FetchStage<Item>(watchers: seq<WatcherDoc>, sources: seq<Entry>, world: World<Item>, name: string): Stage<Item>
  {
    match LookupWatcher(watchers, name)
    case Err(e) => Stopped(Fail(e), [])
    case Ok(doc) =>
      match FirstNamed(sources, doc.dataSource.name)
      case None => Stopped(Fail(DataSourceNotFound(doc.dataSource.name)), [])
      case Some(entry) =>
        var params := doc.dataSource.parameters;
        match world.configureSource(entry.cls, params)
        case Fail(e) => Stopped(Fail(e), [ConfigureSource(entry.cls, params)])
        case Pass =>
          var events := [ConfigureSource(entry.cls, params), Fetch(entry.cls)];
          match world.fetch(entry.cls, params)
          case Err(e) => Stopped(Fail(e), events)
          case Ok(items) => Fetched(doc, entry.cls, items, events)
  }

  /** The formatter key `format_items` receives. */
  function FormatKey(passing: FormatterPassing, name: string, formatter: Instance): FormatterKey
  {
    match passing
    case PassObject => ByObject(formatter.cls)
    case PassName => ByName(name)
  }

  /** Resolving and configuring the platform, formatting the new items and
      notifying: the outcome and the plugin calls made. */
  function NotifyStage<Item>(doc: WatcherDoc, cls: ClassId, newItems: seq<Item>, platforms: seq<Entry>,
                             world: World<Item>, passing: FormatterPassing): (Outcome, seq<Event<Item>>)
  {
    match FirstNamed(platforms, doc.notificationPlatform.name)
    case None => (Fail(NotificationPlatformNotFound(doc.notificationPlatform.name)), [])
    case Some(platform) =>
      var params := doc.notificationPlatform.parameters;
      var configure := ConfigurePlatform(platform.cls, params);
      match world.configurePlatform(platform.cls, params)
      case Fail(e) => (Fail(e), [configure])
      case Pass =>
        var table := world.formatters(cls);
        match GetFormatter(table, ByName(doc.dataSource.formatter))
        case Err(e) => (Fail(e), [configure])
        case Ok(formatter) =>
          match GetFormatter(table, FormatKey(passing, doc.dataSource.formatter, formatter))
          case Err(e) => (Fail(e), [configure])
          case Ok(used) =>
            var payload := Payload(used.cls, newItems);
            (world.deliver(platform.cls, payload), [configure, Notify(platform.cls, payload)])
  }

  /** A whole check of watcher `name`, from the store and registry contents. */
  function CheckRun<Item(==)>(watchers: seq<WatcherDoc>, data: seq<ItemsDoc<Item>>, sources: seq<Entry>,
                              platforms: seq<Entry>, world: World<Item>, name: string,
                              passing: FormatterPassing): Run<Item>
  {
    match FetchStage(watchers, sources, world, name)
    case Stopped(outcome, events) => Run(outcome, events, data)
    case Fetched(doc, cls, items, events) =>
      var current := ItemsOf(data, name);
      if |current| == 0 then Run(Pass, events, Upsert(data, name, items))
      else
        var newItems := NewItems(items, current);
        if |newItems| == 0 then Run(Pass, events, data)
        else
          var (outcome, tail) := NotifyStage(doc, cls, newItems, platforms, world, passing);
          Run(outcome, events + tail, data)
  }

  predicate Notifies<Item>(events: seq<Event<Item>>)
  {
    exists i :: 0 <= i < |events| && events[i].Notify?
  }

  predicate ConfiguresPlatform<Item>(events: seq<Event<Item>>)
  {
    exists i :: 0 <= i < |events| && events[i].ConfigurePlatform?
  }

  /** Before the baseline is read only the data source is called. */
  lemma FetchStageEvents<Item>(watchers: seq<WatcherDoc>, sources: seq<Entry>, world: World<Item>, name: string)
    ensures var events := FetchStage(watchers, sources, world, name).events;
      forall i :: 0 <= i < |events| ==> events[i].ConfigureSource? || events[i].Fetch?
  {
  }

  /** The calls of the notifying part: the platform's configuration when it
      is registered, then at most one notification. */
  lemma NotifyStageShape<Item>(doc: WatcherDoc, cls: ClassId, newItems: seq<Item>, platforms: seq<Entry>,
                               world: World<Item>, passing: FormatterPassing)
    ensures var events := NotifyStage(doc, cls, newItems, platforms, world, passing).1;
      && |events| <= 2
      && (|events| > 0 <==> FirstNamed(platforms, doc.notificationPlatform.name).Some?)
      && (|events| > 0 ==> events[0].ConfigurePlatform?)
      && (|events| == 2 ==> events[1].Notify?)
  {
  }

  /** Handing over the formatter object never reaches `notify`; where handing
      over the name does, the object fails with `FormatterNotFound` instead. */
  lemma ObjectKeyStopsNotify<Item>(doc: WatcherDoc, cls: ClassId, newItems: seq<Item>, platforms: seq<Entry>,
                                   world: World<Item>)
    ensures |NotifyStage(doc, cls, newItems, platforms, world, PassObject).1| <= 1
    ensures var intended := NotifyStage(doc, cls, newItems, platforms, world, PassName);
      |intended.1| == 2 ==>
        NotifyStage(doc, cls, newItems, platforms, world, PassObject) == (Fail(FormatterNotFound), intended.1[..1])
  {
    var intended := NotifyStage(doc, cls, newItems, platforms, world, PassName);
    if |intended.1| == 2 {
      assert intended.1[..1] == [intended.1[0]];
    }
  }

  /** An unknown or duplicated watcher name fails at the first step: no plugin
      is called and the store is not written. */
  lemma UnknownWatcherFailsFirst<Item>(watchers: seq<WatcherDoc>, data: seq<ItemsDoc<Item>>, sources: seq<Entry>,
                                           platforms: seq<Entry>, world: World<Item>, name: string,
                                           passing: FormatterPassing)
    requires |WatchersNamed(watchers, name)| != 1
    ensures var run := CheckRun(watchers, data, sources, platforms, world, name, passing);
      && run.outcome == Fail(if |WatchersNamed(watchers, name)| == 0 then WatcherNotFound(name)
                             else WatcherNotUnique(name, |WatchersNamed(watchers, name)|))
      && run.events == [] && run.watcherData == data
  {
    if |WatchersNamed(watchers, name)| == 0 {
      forall i | 0 <= i < |watchers|
        ensures watchers[i].name != name
      {
        assert watchers[i] in watchers;
      }
    }
  }

  /** On the first run (empty baseline) the fetched items become the
      baseline, nothing is notified, and a later read returns them. */
  lemma FirstRunStoresBaseline<Item>(watchers: seq<WatcherDoc>, data: seq<ItemsDoc<Item>>, sources: seq<Entry>,
                                         platforms: seq<Entry>, world: World<Item>, name: string,
                                         passing: FormatterPassing)
    requires FetchStage(watchers, sources, world, name).Fetched?
    requires ItemsOf(data, name) == []
    ensures var run := CheckRun(watchers, data, sources, platforms, world, name, passing);
      && run.outcome == Pass && !Notifies(run.events) && !ConfiguresPlatform(run.events)
      && ItemsOf(run.watcherData, name) == FetchStage(watchers, sources, world, name).items
      && forall other :: other != name ==> ItemsOf(run.watcherData, other) == ItemsOf(data, other)
  {
    var stage := FetchStage(watchers, sources, world, name);
    GetAfterSet(data, name, stage.items);
    forall other | other != name
      ensures ItemsOf(Upsert(data, name, stage.items), other) == ItemsOf(data, other)
    {
      SetLeavesOthers(data, name, stage.items, other);
    }
  }

  /** When every fetched item is already in a non-empty baseline, the check
      passes without notifying and without writing. */
  lemma NothingNewIsQuiet<Item>(watchers: seq<WatcherDoc>, data: seq<ItemsDoc<Item>>, sources: seq<Entry>,
                                    platforms: seq<Entry>, world: World<Item>, name: string,
                                    passing: FormatterPassing)
    requires FetchStage(watchers, sources, world, name).Fetched?
    requires ItemsOf(data, name) != []
    requires var items := FetchStage(watchers, sources, world, name).items;
      forall i :: 0 <= i < |items| ==> items[i] in ItemsOf(data, name)
    ensures CheckRun(watchers, data, sources, platforms, world, name, passing) ==
      Run(Pass, FetchStage(watchers, sources, world, name).events, data)
  {
    NewItemsMembers(FetchStage(watchers, sources, world, name).items, ItemsOf(data, name));
  }

  /** The notification platform is resolved and configured exactly when the
      fetch succeeded, the baseline is non-empty, some fetched item is new,
      and the platform is registered. */
  lemma PlatformOnlyWhenNew<Item>(watchers: seq<WatcherDoc>, data: seq<ItemsDoc<Item>>, sources: seq<Entry>,
                                      platforms: seq<Entry>, world: World<Item>, name: string,
                                      passing: FormatterPassing)
    ensures var stage := FetchStage(watchers, sources, world, name);
      ConfiguresPlatform(CheckRun(watchers, data, sources, platforms, world, name, passing).events) <==>
        && stage.Fetched?
        && ItemsOf(data, name) != []
        && (exists i :: 0 <= i < |stage.items| && stage.items[i] !in ItemsOf(data, name))
        && FirstNamed(platforms, stage.doc.notificationPlatform.name).Some?
  {
    var stage := FetchStage(watchers, sources, world, name);
    var run := CheckRun(watchers, data, sources, platforms, world, name, passing);
    FetchStageEvents(watchers, sources, world, name);
    if stage.Fetched? {
      var current := ItemsOf(data, name);
      var newItems := NewItems(stage.items, current);
      NewItemsMembers(stage.items, current);
      if current != [] && |newItems| > 0 {
        var tail := NotifyStage(stage.doc, stage.cls, newItems, platforms, world, passing).1;
        NotifyStageShape(stage.doc, stage.cls, newItems, platforms, world, passing);
        assert run.events == stage.events + tail;
        if |tail| > 0 {
          assert run.events[|stage.events|] == tail[0];
        }
        if ConfiguresPlatform(run.events) {
          var i :| 0 <= i < |run.events| && run.events[i].ConfigurePlatform?;
          assert i >= |stage.events|;
        }
      }
    }
  }

  /** With the formatter name passed through, a check that reaches the
      notification notifies exactly once, with the new items rendered by the
      configured formatter, and leaves the baseline as it was. */
  lemma NotifiesOnceWithNewItems<Item>(watchers: seq<WatcherDoc>, data: seq<ItemsDoc<Item>>, sources: seq<Entry>,
                                           platforms: seq<Entry>, world: World<Item>, name: string,
                                           platform: Entry, formatter: ClassId)
    requires FetchStage(watchers, sources, world, name).Fetched?
    requires var stage := FetchStage(watchers, sources, world, name);
      && ItemsOf(data, name) != []
      && NewItems(stage.items, ItemsOf(data, name)) != []
      && FirstNamed(platforms, stage.doc.notificationPlatform.name) == Some(platform)
      && world.configurePlatform(platform.cls, stage.doc.notificationPlatform.parameters) == Pass
      && GetFormatter(world.formatters(stage.cls), ByName(stage.doc.dataSource.formatter)) == Ok(Instance(formatter))
    ensures var stage := FetchStage(watchers, sources, world, name);
      var payload := Payload(formatter, NewItems(stage.items, ItemsOf(data, name)));
      var run := CheckRun(watchers, data, sources, platforms, world, name, PassName);
      && run.events == stage.events + [ConfigurePlatform(platform.cls, stage.doc.notificationPlatform.parameters),
                                       Notify(platform.cls, payload)]
      && run.outcome == world.deliver(platform.cls, payload)
      && run.watcherData == data
  {
  }

  /** Only the first run writes: any other check leaves `watcher_data` as it
      was, so after a notification the same fetch notifies again. */
  lemma OnlyFirstRunWrites<Item>(watchers: seq<WatcherDoc>, data: seq<ItemsDoc<Item>>, sources: seq<Entry>,
                                     platforms: seq<Entry>, world: World<Item>, name: string,
                                     passing: FormatterPassing)
    ensures var run := CheckRun(watchers, data, sources, platforms, world, name, passing);
      run.watcherData != data ==>
        FetchStage(watchers, sources, world, name).Fetched? && ItemsOf(data, name) == []
    ensures var run := CheckRun(watchers, data, sources, platforms, world, name, passing);
      Notifies(run.events) ==>
        run.watcherData == data && CheckRun(watchers, run.watcherData, sources, platforms, world, name, passing) == run
  {
    var stage := FetchStage(watchers, sources, world, name);
    var run := CheckRun(watchers, data, sources, platforms, world, name, passing);
    if Notifies(run.events) && !(stage.Fetched? && ItemsOf(data, name) != []) {
      var i :| 0 <= i < |run.events| && run.events[i].Notify?;
      assert run.events == stage.events;
    }
  }

  /** As written, `format_items` receives the formatter object and looks it up
      as a name, which always fails: no check ever notifies, and wherever the
      name-passing check would notify, the written one fails with
      `FormatterNotFound` after configuring the platform. */
  lemma AsWrittenNeverNotifies<Item>(watchers: seq<WatcherDoc>, data: seq<ItemsDoc<Item>>, sources: seq<Entry>,
                                         platforms: seq<Entry>, world: World<Item>, name: string)
    ensures !Notifies(CheckRun(watchers, data, sources, platforms, world, name, PassObject).events)
    ensures var intended := CheckRun(watchers, data, sources, platforms, world, name, PassName);
      Notifies(intended.events) ==>
        CheckRun(watchers, data, sources, platforms, world, name, PassObject) ==
          Run(Fail(FormatterNotFound), intended.events[..|intended.events| - 1], data)
  {
    WrittenStaysSilent(watchers, data, sources, platforms, world, name);
    WrittenFailsWhereIntendedNotifies(watchers, data, sources, platforms, world, name);
  }

  lemma WrittenStaysSilent<Item>(watchers: seq<WatcherDoc>, data: seq<ItemsDoc<Item>>, sources: seq<Entry>,
                                 platforms: seq<Entry>, world: World<Item>, name: string)
    ensures !Notifies(CheckRun(watchers, data, sources, platforms, world, name, PassObject).events)
  {
    var stage := FetchStage(watchers, sources, world, name);
    var run := CheckRun(watchers, data, sources, platforms, world, name, PassObject);
    FetchStageEvents(watchers, sources, world, name);
    if stage.Fetched? && ItemsOf(data, name) != [] && NewItems(stage.items, ItemsOf(data, name)) != [] {
      var newItems := NewItems(stage.items, ItemsOf(data, name));
      var written := NotifyStage(stage.doc, stage.cls, newItems, platforms, world, PassObject).1;
      ObjectKeyStopsNotify(stage.doc, stage.cls, newItems, platforms, world);
      NotifyStageShape(stage.doc, stage.cls, newItems, platforms, world, PassObject);
      assert run.events == stage.events + written;
    }
  }

  lemma WrittenFailsWhereIntendedNotifies<Item>(watchers: seq<WatcherDoc>, data: seq<ItemsDoc<Item>>, sources: seq<Entry>,
                                                platforms: seq<Entry>, world: World<Item>, name: string)
    ensures var intended := CheckRun(watchers, data, sources, platforms, world, name, PassName);
      Notifies(intended.events) ==>
        CheckRun(watchers, data, sources, platforms, world, name, PassObject) ==
          Run(Fail(FormatterNotFound), intended.events[..|intended.events| - 1], data)
  {
    var stage := FetchStage(watchers, sources, world, name);
    var run := CheckRun(watchers, data, sources, platforms, world, name, PassObject);
    var intended := CheckRun(watchers, data, sources, platforms, world, name, PassName);
    FetchStageEvents(watchers, sources, world, name);
    if stage.Fetched? && ItemsOf(data, name) != [] && NewItems(stage.items, ItemsOf(data, name)) != [] {
      var newItems := NewItems(stage.items, ItemsOf(data, name));
      var written := NotifyStage(stage.doc, stage.cls, newItems, platforms, world, PassObject).1;
      var tail := NotifyStage(stage.doc, stage.cls, newItems, platforms, world, PassName).1;
      ObjectKeyStopsNotify(stage.doc, stage.cls, newItems, platforms, world);
      NotifyStageShape(stage.doc, stage.cls, newItems, platforms, world, PassName);
      assert intended.events == stage.events + tail;
      if Notifies(intended.events) {
        var i :| 0 <= i < |intended.events| && intended.events[i].Notify?;
        assert i >= |stage.events| + 1;
        assert intended.events[..|intended.events| - 1] == stage.events + tail[..1];
      }
    }
  }

  class Watcher<Item(==)> {
    /** `_db_service`. */
    const db: CoreDb<Item>
    /** `_data_sources_service`. */
    const sources: DataSourceRegistryService.Registry
    /** `_notifications_service`. */
    const platforms: NotificationRegistryService.Registry
    /** The plugin calls made so far. */
    ghost var trace: seq<Event<Item>>

    ghost predicate Valid()
      reads sources, platforms
    {
      sources.Valid() && platforms.Valid()
    }

    constructor (db: CoreDb<Item>, sources: DataSourceRegistryService.Registry,
                 platforms: NotificationRegistryService.Registry)
      ensures this.db == db && this.sources == sources && this.platforms == platforms
      ensures trace == []
    {
      this.db := db;
      this.sources := sources;
      this.platforms := platforms;
      trace := [];
    }

    /** `create`: not implemented; changes nothing. */
    method Create()
      ensures unchanged(this, db)
    {
    }

    /** `check_all`: not implemented; changes nothing. */
    method CheckAll()
      ensures unchanged(this, db)
    {
    }

    /** `check`, as written: the formatter object is what `format_items` gets. */
    method Check(world: World<Item>, watcherName: string) returns (outcome: Outcome)
      requires Valid()
      modifies this, db
      ensures var run := CheckRun(old(db.watchers), old(db.watcherData), sources.dataSources,
                                  platforms.platforms, world, watcherName, PassObject);
        outcome == run.outcome && db.watcherData == run.watcherData && trace == old(trace) + run.events
      ensures db.watchers == old(db.watchers) && db.dataSources == old(db.dataSources)
      ensures db.notificationPlatforms == old(db.notificationPlatforms)
    {
      outcome := Run(world, watcherName, PassObject);
    }

    /** `check` with the configured formatter name handed to `format_items`,
        as the data source's `format_items` expects. */
    method CheckPassingName(world: World<Item>, watcherName: string) returns (outcome: Outcome)
      requires Valid()
      modifies this, db
      ensures var run := CheckRun(old(db.watchers), old(db.watcherData), sources.dataSources,
                                  platforms.platforms, world, watcherName, PassName);
        outcome == run.outcome && db.watcherData == run.watcherData && trace == old(trace) + run.events
      ensures db.watchers == old(db.watchers) && db.dataSources == old(db.dataSources)
      ensures db.notificationPlatforms == old(db.notificationPlatforms)
    {
      outcome := Run(world, watcherName, PassName);
    }

    /** The steps of `check`, with the formatter handed on as `passing` says. */
    method Run(world: World<Item>, watcherName: string, passing: FormatterPassing) returns (outcome: Outcome)
      requires Valid()
      modifies this, db
      ensures var run := CheckRun(old(db.watchers), old(db.watcherData), sources.dataSources,
                                  platforms.platforms, world, watcherName, passing);
        outcome == run.outcome && db.watcherData == run.watcherData && trace == old(trace) + run.events
      ensures db.watchers == old(db.watchers) && db.dataSources == old(db.dataSources)
      ensures db.notificationPlatforms == old(db.notificationPlatforms)
    {
      var stage := Load(world, watcherName);
      if stage.Stopped? {
        return stage.outcome;
      }
      var _ := db.GetWatcherItems(watcherName);
      var current := db.GetWatcherItems(watcherName);
      if |current| == 0 {
        db.SetWatcherItems(watcherName, stage.items);
        return Pass;
      }
      var newItems := NewItems(stage.items, current);
      if |newItems| == 0 {
        return Pass;
      }
      ghost var before := trace;
      outcome := NotifyNew(world, stage.doc, stage.cls, newItems, passing);
      Assoc(old(trace), stage.events, trace[|before|..]);
    }

    /** The part of `check` before the baseline is read: loading the watcher
        document, resolving and configuring the data source, fetching. */
    method Load(world: World<Item>, watcherName: string) returns (stage: Stage<Item>)
      requires Valid()
      modifies this
      ensures stage == FetchStage(db.watchers, sources.dataSources, world, watcherName)
      ensures trace == old(trace) + stage.events
    {
      var watcherData := db.GetWatcherData(watcherName);
      if watcherData.Err? {
        return Stopped(Fail(watcherData.error), []);
      }
      var doc := watcherData.value;
      var source := sources.GetDataSource(doc.dataSource.name);
      FirstNamedFinds(sources.dataSources, doc.dataSource.name);
      if source.Err? {
        return Stopped(Fail(source.error), []);
      }
      var cls := source.value.cls;
      var params := doc.dataSource.parameters;
      trace := trace + [ConfigureSource(cls, params)];
      var configured := world.configureSource(cls, params);
      if configured.Fail? {
        return Stopped(configured, [ConfigureSource(cls, params)]);
      }
      trace := trace + [Fetch(cls)];
      var fetched := world.fetch(cls, params);
      if fetched.Err? {
        return Stopped(Fail(fetched.error), [ConfigureSource(cls, params), Fetch(cls)]);
      }
      stage := Fetched(doc, cls, fetched.value, [ConfigureSource(cls, params), Fetch(cls)]);
    }

    /** The part of `check` after new items were found: resolving and
        configuring the platform, getting the formatter, formatting and
        notifying. */
    method NotifyNew(world: World<Item>, doc: WatcherDoc, cls: ClassId, newItems: seq<Item>, passing: FormatterPassing)
      returns (outcome: Outcome)
      requires Valid()
      modifies this
      ensures var (result, events) := NotifyStage(doc, cls, newItems, platforms.platforms, world, passing);
        outcome == result && trace == old(trace) + events
    {
      var platform := platforms.GetNotificationPlatform(doc.notificationPlatform.name);
      FirstNamedFinds(platforms.platforms, doc.notificationPlatform.name);
      if platform.Err? {
        return Fail(platform.error);
      }
      var platformCls := platform.value.cls;
      var platformParams := doc.notificationPlatform.parameters;
      trace := trace + [ConfigurePlatform(platformCls, platformParams)];
      var platformConfigured := world.configurePlatform(platformCls, platformParams);
      if platformConfigured.Fail? {
        return platformConfigured;
      }
      var table := world.formatters(cls);
      var formatter := GetFormatter(table, ByName(doc.dataSource.formatter));
      if formatter.Err? {
        return Fail(formatter.error);
      }
      var used := GetFormatter(table, FormatKey(passing, doc.dataSource.formatter, formatter.value));
      if used.Err? {
        return Fail(used.error);
      }
      var payload := Payload(used.value.cls, newItems);
      trace := trace + [Notify(platformCls, payload)];
      outcome := world.deliver(platformCls, payload);
    }
  }
}
