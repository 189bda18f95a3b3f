# universal-watcher, modelled in Dafny

universal-watcher polls classified-ad sites (bazos.cz, bazos.sk) for each
configured *watcher*. It compares the fetched items with the stored baseline
and notifies a platform (e.g. email) about the new ones. This project models
the following parts:

- the check cycle of `Watcher` (`watcher.dfy`): load the watcher document, resolve
  and configure the data source, fetch, read the baseline, store it on the
  first run, diff, resolve and configure the notification platform, format,
  notify. The cycle is a method on a `Watcher` class over a `CoreDb` object and two
  registries. It is proved equal to a specification function `CheckRun`, and
  the cycle's properties are lemmas about `CheckRun`. Calls into plugins are
  recorded in a ghost trace of `Event`s; what the plugins do is a `World`
  value;
- the two plugin registries, each a class with an entry list it appends
  to, search loops and the `__new__` singleton (`data_source_registry.dfy`,
  `notification_registry.dfy`, shared searches in `plugins.dfy`). The
  notification registry also has the pure parameters-class-name rule;
- the watcher document store `CoreDbService` (`db_service.dfy`): tables as
  sequences of documents, the unique-name lookup, the empty-if-absent
  baseline read and TinyDB's upsert;
- the dependency injector (`injector.dfy`): the resolution stack with its
  cycle check, the singleton cache, the marker decorator and the parameter
  loop of `inject_dependencies`;
- the Bazos data services (`bazos_feed.dfy` with the shared logic,
  `bazos_cz_data_service.dfy`, `bazos_sk_data_service.dfy`):
  - the query string `_build_url` writes, including its stray leading `&`;
  - the title/price split and image-tag stripping of each feed item;
  - the item loop;
  - the status guard of `get_items`;
- the parameter models of both sources (`bazos_cz_parameters.dfy`,
  `bazos_sk_parameters.dfy`, field rules in `model_fields.dfy`) and the
  Slovak formatter lookup (`bazos_sk_formatter_service.dfy`).

`common.dfy` holds `Option`, `Result`, `Outcome` and the error values that
stand for the exceptions raised. `strings.dfy` holds the Python string
operations used: `split`, `join`, `strip`, `find`, `isdigit`, `capitalize`
and `str(int)`.

Behaviour as written, which the model follows:
- After notifying, `check` does not write the fetched items back as the new
  baseline: the call is commented out (`watcher.py:75-76`). So a repeated
  check with the same fetch notifies again (`OnlyFirstRunWrites`).
- The notification platform is resolved only once new items exist
  (`watcher.py:57-62`), after the fetch and the diff.
- `format_items` is handed the formatter object `get_formatter` returned,
  not the configured formatter name (`watcher.py:67-72`). This is listed
  under Findings.

## Model

| member | source | states |
|---|---|---|
| UniversalWatcher.Watcher.Check | src/universal_watcher/watcher.py:34-76 | `check` as written. The outcome, the calls made and the new `watcher_data` are those of `CheckRun` with the formatter object handed to `format_items`. The watchers, data-source and platform tables are unchanged. |
| UniversalWatcher.Watcher.CheckPassingName | src/universal_watcher/watcher.py:34-76 | `check` with the configured formatter name handed on. Its outcome, calls and store are those of `CheckRun(…, PassName)`. |
| UniversalWatcher.Watcher.Run | src/universal_watcher/watcher.py:34-76 | The step sequence of `check`: reading the baseline twice, the first-run write, the diff and the early returns. It yields exactly `CheckRun`'s outcome, trace and `watcher_data`, and no other table changes. |
| UniversalWatcher.Watcher.Load | src/universal_watcher/watcher.py:35-43 | Loading the watcher, resolving and configuring the data source, and fetching give the stage `FetchStage` describes. The trace grows by exactly that stage's calls. |
| UniversalWatcher.Watcher.NotifyNew | src/universal_watcher/watcher.py:57-73 | Resolving and configuring the platform, looking up the formatter, formatting and notifying give `NotifyStage`'s outcome and calls. |
| UniversalWatcher.Watcher.Create | src/universal_watcher/watcher.py:30-32 | `create` changes neither the watcher nor the store. |
| UniversalWatcher.Watcher.CheckAll | src/universal_watcher/watcher.py:78-80 | `check_all` changes neither the watcher nor the store. |
| UniversalWatcher.Watcher.constructor | src/universal_watcher/watcher.py:19-28 | The watcher keeps the store and both registries it is given, and has made no calls. |
| UniversalWatcher.CheckRun | src/universal_watcher/watcher.py:34-76 | The whole of `check` as one value: outcome, plugin calls in order, and the new `watcher_data`. `Watcher.Run`, `Check` and `CheckPassingName` are proved equal to it. FirstRunStoresBaseline, NothingNewIsQuiet, PlatformOnlyWhenNew, NotifiesOnceWithNewItems, OnlyFirstRunWrites and AsWrittenNeverNotifies state what it does. |
| UniversalWatcher.FetchStage | src/universal_watcher/watcher.py:35-43 | Loading the watcher document, resolving and configuring its data source, and fetching. FetchStageEvents states that only these calls happen before the baseline read, and UnknownWatcherFailsFirst that a missing or repeated watcher stops before any call. `Watcher.Load` is proved equal to it. |
| UniversalWatcher.NotifyStage | src/universal_watcher/watcher.py:57-73 | Resolving and configuring the platform, getting the formatter, formatting and notifying. NotifyStageShape states its calls, and `Watcher.NotifyNew` is proved equal to it. |
| UniversalWatcher.FormatKey | src/universal_watcher/watcher.py:67-72 | What `check` hands to `format_items`: the formatter object as written, or the configured name as intended. ObjectKeyStopsNotify and WrittenFailsWhereIntendedNotifies state the difference. |
| UniversalWatcher.NewItems | src/universal_watcher/watcher.py:52 | `new_items` is never longer than the fetched list. |
| UniversalWatcher.NewItemsMembers | src/universal_watcher/watcher.py:52 | An item is new iff it was fetched and is not in the baseline. Nothing is new iff every fetched item is in the baseline. |
| UniversalWatcher.NewItemsCounts | src/universal_watcher/watcher.py:52 | Each non-baseline item occurs in `new_items` exactly as often as it was fetched (duplicates kept). Baseline items occur zero times. |
| UniversalWatcher.NewItemsOfConcat | src/universal_watcher/watcher.py:52 | The diff keeps fetch order: the diff of a concatenation is the concatenation of the diffs. |
| UniversalWatcher.NewItemsCons | src/universal_watcher/watcher.py:52 | The diff of `[x] + rest` is `x` (unless it is in the baseline) followed by the diff of `rest`. |
| UniversalWatcher.FetchStageEvents | src/universal_watcher/watcher.py:35-43 | Before the baseline is read, only the data source is called (configure, fetch). |
| UniversalWatcher.NotifyStageShape | src/universal_watcher/watcher.py:57-73 | The notifying part makes at most two calls. The platform's configuration comes first and happens iff the platform is registered. A second call is the single `notify`. |
| UniversalWatcher.ObjectKeyStopsNotify | src/universal_watcher/watcher.py:67-72 | Handing over the formatter object never reaches `notify`. Where the name would notify, the object fails with `FormatterNotFound` after configuring the platform. |
| UniversalWatcher.UnknownWatcherFailsFirst | src/universal_watcher/watcher.py:35 | A watcher name with no document fails with WatcherNotFound. One with several documents fails with WatcherNotUnique(count). Either way no plugin is called and the store is not written. |
| UniversalWatcher.FirstRunStoresBaseline | src/universal_watcher/watcher.py:47-50 | With an empty baseline the check passes and configures no platform. Nothing is notified, the fetched items become the watcher's baseline, and every other watcher's baseline is unchanged. |
| UniversalWatcher.NothingNewIsQuiet | src/universal_watcher/watcher.py:54-55 | When every fetched item is in a non-empty baseline, the check passes after only the data-source calls and leaves `watcher_data` as it was. |
| UniversalWatcher.PlatformOnlyWhenNew | src/universal_watcher/watcher.py:57-62 | The platform is configured iff all four hold: the fetch succeeded, the baseline is non-empty, some fetched item is not in it, and the platform is registered. |
| UniversalWatcher.NotifiesOnceWithNewItems | src/universal_watcher/watcher.py:67-73 | With the name handed on, a check that reaches formatting calls `notify` exactly once. The payload is `new_items` rendered by the configured formatter, the outcome is the delivery's, and the baseline is unchanged. |
| UniversalWatcher.OnlyFirstRunWrites | src/universal_watcher/watcher.py:75-76 | Only a first run changes `watcher_data`. After a notifying check the store is unchanged, so the same check again yields the same calls and outcome. |
| UniversalWatcher.AsWrittenNeverNotifies | src/universal_watcher/watcher.py:67-72 | As written, no check ever calls `notify`. Wherever the name-passing check notifies, the written one fails with `FormatterNotFound`, with that check's calls minus the final `notify`. |
| UniversalWatcher.WrittenStaysSilent | src/universal_watcher/watcher.py:67-72 | The as-written check's calls contain no `notify`. |
| UniversalWatcher.WrittenFailsWhereIntendedNotifies | src/universal_watcher/watcher.py:67-72 | Where the name-passing check notifies, the as-written check fails with `FormatterNotFound` and stops just before `notify`. |
| Plugins.FirstNamedFinds | src/universal_watcher/core/services/data_source_registry_service.py:41-45 | The search by name finds an entry iff some entry has the name, and then it is the first such entry. |
| Plugins.FirstNamedUnique | src/universal_watcher/core/services/data_source_registry_service.py:41-45 | With pairwise distinct names, the entry found by name is the only one with that name. |
| Plugins.FirstWithClassFinds | src/universal_watcher/core/services/data_source_registry_service.py:100-104 | The search by class finds an entry iff some entry has the class, and then it is the first such entry. |
| Plugins.AppendFreshKeepsDistinct | src/universal_watcher/core/services/data_source_registry_service.py:60-65 | Appending under a name not yet present keeps names pairwise distinct. |
| Plugins.FindEntry | src/universal_watcher/core/services/notification_registry_service.py:45-48 | The search loop by name returns the first entry with the name, or none. |
| Plugins.FindByClass | src/universal_watcher/core/services/notification_registry_service.py:105-107 | The search loop by class returns the first entry with the class, or none. |
| Plugins.FirstNamed | src/universal_watcher/core/services/data_source_registry_service.py:31-45 | The `_get_data_source_entry` / `_get_notification_platform_entry` search: FirstNamedFinds states that it finds an entry iff one has the name, and that it is the first; FirstNamedUnique that with distinct names it is the only one. `FindEntry` is proved equal to it. |
| Plugins.FirstWithClass | src/universal_watcher/core/services/notification_registry_service.py:35-48 | The search by class used for the name of an instance. FirstWithClassFinds states completeness and that the first match is returned. `FindByClass` is proved equal to it. |
| DataSourceRegistryService.Registry.constructor | src/universal_watcher/core/services/data_source_registry_service.py:19 | A new registry has an empty entry list. |
| DataSourceRegistryService.Registry.RegisterDataSource | src/universal_watcher/core/services/data_source_registry_service.py:60-65 | A name already present fails with DuplicateDataSource and leaves the list unchanged. A fresh name is appended as one last entry, and names stay distinct. |
| DataSourceRegistryService.Registry.GetDataSource | src/universal_watcher/core/services/data_source_registry_service.py:80-85 | An unregistered name fails with DataSourceNotFound. A registered one yields an instance of the class registered under it. |
| DataSourceRegistryService.Registry.GetDataSourceName | src/universal_watcher/core/services/data_source_registry_service.py:100-104 | Fails iff no entry has the class. Otherwise it returns the name of the first entry that does. |
| DataSourceRegistryService.Registry.GetDataSourceClass | src/universal_watcher/core/services/data_source_registry_service.py:119-124 | An unregistered name fails with DataSourceNotFound. Otherwise it returns the class registered under the name. |
| DataSourceRegistryService.Singleton.constructor | src/universal_watcher/core/services/data_source_registry_service.py:7 | `_instance` starts as `None`. |
| DataSourceRegistryService.Singleton.New | src/universal_watcher/core/services/data_source_registry_service.py:9-20 | The first construction creates a fresh registry with an empty list and stores it. Every later one returns that same registry. |
| NotificationRegistryService.Registry.constructor | src/universal_watcher/core/services/notification_registry_service.py:23 | A new registry has an empty entry list. |
| NotificationRegistryService.Registry.RegisterNotificationPlatform | src/universal_watcher/core/services/notification_registry_service.py:63-68 | A duplicate name fails with DuplicateNotificationPlatform and leaves the list unchanged. A fresh name is appended as one last entry, and names stay distinct. |
| NotificationRegistryService.Registry.GetNotificationPlatform | src/universal_watcher/core/services/notification_registry_service.py:83-88 | An unknown name fails with NotificationPlatformNotFound. A registered one yields an instance of its class. |
| NotificationRegistryService.Registry.GetNotificationPlatformName | src/universal_watcher/core/services/notification_registry_service.py:105-109 | Fails iff no entry has the class. Otherwise it returns the first matching entry's name. |
| NotificationRegistryService.Registry.GetParametersClass | src/universal_watcher/core/services/notification_registry_service.py:124-140 | An unregistered name fails with NotificationPlatformNotFound before any import. Otherwise the result is attribute `<Words>Parameters` of module `universal_watcher.notification_platforms.<name>.models.<name>_parameters`, or InvalidParametersClass when the module or attribute is missing. |
| NotificationRegistryService.Singleton.constructor | src/universal_watcher/core/services/notification_registry_service.py:11 | `_instance` starts as `None`. |
| NotificationRegistryService.Singleton.New | src/universal_watcher/core/services/notification_registry_service.py:13-24 | The first construction creates a fresh registry with an empty list and stores it. Every later one returns that same registry. |
| NotificationRegistryService.CapitalizeAll | src/universal_watcher/core/services/notification_registry_service.py:134 | Each word is capitalised, and the number and order of words are kept. |
| NotificationRegistryService.ParametersModulePath | src/universal_watcher/core/services/notification_registry_service.py:130 | The module imported for a platform's parameters. `GetParametersClass` fails unless this path is an importable module that has the derived class name. |
| NotificationRegistryService.ParametersClassName | src/universal_watcher/core/services/notification_registry_service.py:133-136 | The class name derived from a platform name. ParametersClassNameOfWords, ParametersClassNameShape and EmailParametersClassName state its value. |
| NotificationRegistryService.ParametersClassNameOfWords | src/universal_watcher/core/services/notification_registry_service.py:133-136 | For a name made of `_`-joined words without `_`, the class name is the capitalised words concatenated, then `Parameters`. |
| NotificationRegistryService.EmailParametersClassName | src/universal_watcher/core/services/notification_registry_service.py:133-136 | Platform `email` has parameters class `EmailParameters`. |
| NotificationRegistryService.CapitalizeEmail | src/universal_watcher/core/services/notification_registry_service.py:134 | `"email".capitalize()` is `"Email"`. |
| NotificationRegistryService.ParametersClassNameShape | src/universal_watcher/core/services/notification_registry_service.py:133-136 | A derived class name never contains `_` and always ends in `Parameters`. |
| NotificationRegistryService.NoUnderscoreAfterCapitalize | src/universal_watcher/core/services/notification_registry_service.py:134 | Capitalising `_`-free words introduces no `_`. |
| NotificationRegistryService.NoUnderscoreInConcat | src/universal_watcher/core/services/notification_registry_service.py:134 | Concatenating `_`-free words gives a `_`-free string. |
| CoreDbService.WatchersNamed | src/universal_watcher/core/services/db_service.py:50-52 | The query result holds exactly the table's documents with the name, and no more documents than the table. |
| CoreDbService.WatchersNamedCounts | src/universal_watcher/core/services/db_service.py:50-52 | The query keeps duplicates: each document with the name occurs in the result as often as in the table, and no other document occurs. |
| CoreDbService.ItemsOf | src/universal_watcher/core/services/db_service.py:75-82 | `[]` when no `watcher_data` document has the name, otherwise the first match's `data`. `CoreDb.GetWatcherItems` is proved equal to it. GetAfterSet, SetLeavesOthers and the other write lemmas state how writes change it. |
| CoreDbService.DuplicateDocNotUnique | src/universal_watcher/core/services/db_service.py:50-60 | Two identical documents with the name make the lookup fail with WatcherNotUnique and count 2. |
| CoreDbService.LookupWatcher | src/universal_watcher/core/services/db_service.py:54-62 | Ok iff exactly one document has the name, and then it is that document. WatcherNotFound iff none has it. Otherwise WatcherNotUnique with the count, which is above one. |
| CoreDbService.SearchWatchers | src/universal_watcher/core/services/db_service.py:50-52 | The search loop collects exactly `WatchersNamed`, in table order. |
| CoreDbService.Upsert | src/universal_watcher/core/services/db_service.py:94-96 | Every document named `w` gets the new data and all others are untouched. When there is none, exactly one document is appended. |
| CoreDbService.ReplaceData | src/universal_watcher/core/services/db_service.py:94-96 | The update half of the upsert: same length, documents named `w` replaced, others kept. |
| CoreDbService.GetAfterSet | src/universal_watcher/core/services/db_service.py:92-96 | After `set_watcher_items(w, xs)`, `get_watcher_items(w)` returns `xs`. |
| CoreDbService.ReplacedFirstHasData | src/universal_watcher/core/services/db_service.py:94-96 | After replacing, the first document named `w` carries the new data. |
| CoreDbService.AppendedFound | src/universal_watcher/core/services/db_service.py:94-96 | An appended document is the one a later read of `w` finds. |
| CoreDbService.SetLeavesOthers | src/universal_watcher/core/services/db_service.py:94-96 | `set_watcher_items(w, …)` does not change what any other watcher reads. |
| CoreDbService.ReplaceLeavesOthers | src/universal_watcher/core/services/db_service.py:94-96 | Replacing `w`'s data leaves other watchers' reads unchanged. |
| CoreDbService.AppendLeavesOthers | src/universal_watcher/core/services/db_service.py:94-96 | Appending `w`'s document leaves other watchers' reads unchanged. |
| CoreDbService.SetIsIdempotent | src/universal_watcher/core/services/db_service.py:94-96 | Writing the same items twice leaves the table as writing them once. |
| CoreDbService.FindDoc | src/universal_watcher/core/services/db_service.py:112-119 | The search finds nothing iff no document has the name. Otherwise it finds the first one that does. |
| CoreDbService.CoreDb.constructor | src/universal_watcher/core/services/db_service.py:23-34 | The store holds the four tables it is given. |
| CoreDbService.CoreDb.GetWatcherData | src/universal_watcher/core/services/db_service.py:36-62 | `get_watcher_data` yields `LookupWatcher` of the watchers table: not found, not unique with the count, or the single document. |
| CoreDbService.CoreDb.GetWatcherItems | src/universal_watcher/core/services/db_service.py:64-82 | Empty when no document has the name. Otherwise the data of the first document that does. |
| CoreDbService.CoreDb.SetWatcherItems | src/universal_watcher/core/services/db_service.py:84-96 | `watcher_data` becomes its upsert with the items. The other three tables are unchanged. |
| CoreDbService.CoreDb.GetDataSourceData | src/universal_watcher/core/services/db_service.py:98-119 | Fails with DataSourceDataNotFound iff no document has the name. Otherwise it returns the first such document, with no uniqueness check. |
| CoreDbService.CoreDb.GetNotificationPlatformData | src/universal_watcher/core/services/db_service.py:121-146 | Fails with NotificationPlatformDataNotFound iff no document has the name. Otherwise it returns the first such document. |
| Injector.DependencyInjector.constructor | src/universal_watcher/core/decorators/injector.py:12-15 | An empty stack, an empty singleton cache and no marked classes. |
| Injector.DependencyInjector.InjectAsSingleton | src/universal_watcher/core/decorators/injector.py:27-28 | Returns the same class and adds it to the marked set, so marking twice equals marking once. Nothing else changes. |
| Injector.DependencyInjector.Resolve | src/universal_watcher/core/decorators/injector.py:44-66 | A class already on the stack fails with the cycle (stack + class) and changes nothing. Success restores the stack and yields an object of the class. A failure never pops below the old stack: it stays a prefix. There is no `finally`, so when the class was not already on the stack it stays pushed right above the old stack, and resolving it again reports a cycle. A marked class with a cached instance returns it without constructing. A marked class is cached after success. An unmarked class is constructed afresh. The cache only grows. |
| Injector.DependencyInjector.Construct | src/universal_watcher/core/decorators/injector.py:106-131 | Calling a class injects its parameters and yields a fresh object of it. The stack is restored on success, and the cache only grows. |
| Injector.DependencyInjector.InjectKwargs | src/universal_watcher/core/decorators/injector.py:110-129 | Caller kwargs are never overwritten. Every parameter that is not `self` and has no default ends up in kwargs. Each added one is resolved from its annotated class. Success implies every required parameter has a type hint, so a missing annotation or type hint fails. A failure stops at a required parameter whose required predecessors all have type hints. When that parameter itself lacks its annotation or type hint, the error is MissingAnnotation or MissingTypeHint with its name. Parameter names of a signature are distinct. |
| BazosFeed.UriValue | src/universal_watcher/data_sources/bazos_cz/services/bazos_cz_data_service.py:46-50 | The quoted `str(value)`. For `rub` it is its prefix of length min(2, length). |
| BazosFeed.Falsy | src/universal_watcher/data_sources/bazos_cz/services/bazos_cz_data_service.py:43 | `not param_value` for a text, an integer or None. NothingKept and FalsyValueIrrelevant state its role in the query. |
| BazosFeed.Show | src/universal_watcher/data_sources/bazos_cz/services/bazos_cz_data_service.py:46 | `str(param_value)`: the text itself, the decimal digits of an integer (IntToStringValue), or `"None"`. UriValue quotes it. |
| BazosFeed.Step | src/universal_watcher/data_sources/bazos_cz/services/bazos_cz_data_service.py:43-55 | What one pass of the `enumerate` loop appends: nothing for a falsy value, otherwise `&` unless the index is 0, then the pair. SkippedStep, FirstKeptStep and LaterKeptStep state each case. |
| BazosFeed.Query | src/universal_watcher/data_sources/bazos_cz/services/bazos_cz_data_service.py:39-55 | The `uri` after the first `n` fields. QueryJoinsKept proves it equal to the independent `Lead` + `Join(Kept, "&")`, and `BuildUrl`'s loop is proved equal to it. |
| BazosFeed.NothingKept | src/universal_watcher/data_sources/bazos_cz/services/bazos_cz_data_service.py:43-44 | No pair is written iff every value is falsy. |
| BazosFeed.QueryJoinsKept | src/universal_watcher/data_sources/bazos_cz/services/bazos_cz_data_service.py:39-55 | The loop's `uri` is the kept pairs joined with `&`, in field order. An extra `&` comes first exactly when the first field is skipped and a later one is kept. |
| BazosFeed.SkippedStep | src/universal_watcher/data_sources/bazos_cz/services/bazos_cz_data_service.py:43-44 | A skipped field keeps the join form of the query. |
| BazosFeed.FirstKeptStep | src/universal_watcher/data_sources/bazos_cz/services/bazos_cz_data_service.py:52-55 | The first kept field keeps the join form, including the extra `&` when its index is not 0. |
| BazosFeed.LaterKeptStep | src/universal_watcher/data_sources/bazos_cz/services/bazos_cz_data_service.py:52-55 | A later kept field adds `&` and its pair to the join. |
| BazosFeed.AllSkippedGivesEmptyQuery | src/universal_watcher/data_sources/bazos_cz/services/bazos_cz_data_service.py:43-44 | All values falsy: the query is empty. |
| BazosFeed.FirstKeptGivesJoinedPairs | src/universal_watcher/data_sources/bazos_cz/services/bazos_cz_data_service.py:52-55 | A truthy first field: no leading `&`, and the query starts with that field's pair. |
| BazosFeed.QueryStartsWithFirstStep | src/universal_watcher/data_sources/bazos_cz/services/bazos_cz_data_service.py:40-55 | The text written for field 0 begins the query. |
| BazosFeed.SkippedPrefixEmpty | src/universal_watcher/data_sources/bazos_cz/services/bazos_cz_data_service.py:43-44 | An all-falsy prefix writes nothing. |
| BazosFeed.SingleKept | src/universal_watcher/data_sources/bazos_cz/services/bazos_cz_data_service.py:40-55 | With exactly one truthy field, the query is that field's pair, preceded by `&` unless it is field 0. |
| BazosFeed.RadiusPair | src/universal_watcher/data_sources/bazos_cz/services/bazos_cz_data_service.py:46-55 | The default radius is written as `humkreis=25`. |
| BazosFeed.FalsyValueIrrelevant | src/universal_watcher/data_sources/bazos_cz/services/bazos_cz_data_service.py:43-44 | `""`, `0` and `None` are interchangeable in a skipped field: the query is the same. |
| BazosFeed.BuildUrl | src/universal_watcher/data_sources/bazos_cz/services/bazos_cz_data_service.py:39-57 | The loop yields `BASE_URL + "?" + Query(fields)`. |
| BazosFeed.PiecesAroundLastColon | src/universal_watcher/data_sources/bazos_cz/services/bazos_cz_data_service.py:72-73 | Without a `:` the split is the whole text. Otherwise the earlier pieces re-joined are the text before the last `:`, and the last piece is the text after it. |
| BazosFeed.CutAtLastColon | src/universal_watcher/data_sources/bazos_cz/services/bazos_cz_data_service.py:72-73 | With two or more pieces, the re-joined earlier pieces end exactly at the last `:`. |
| BazosFeed.SplitTitle | src/universal_watcher/data_sources/bazos_cz/services/bazos_cz_data_service.py:72-77 | The title and price of an item. TitleSplitsAtLastColon states that the title is the stripped text before the last `:` (empty without one) and the price the stripped text after it. |
| BazosFeed.TitleSplitsAtLastColon | src/universal_watcher/data_sources/bazos_cz/services/bazos_cz_data_service.py:72-77 | Title is the stripped text before its last `:` (empty without one). Price is the text after it, stripped. |
| BazosFeed.PlainDescriptionKept | src/universal_watcher/data_sources/bazos_cz/services/bazos_cz_data_service.py:80 | A description not starting with `<img` is kept. |
| BazosFeed.ImageTagDropped | src/universal_watcher/data_sources/bazos_cz/services/bazos_cz_data_service.py:80-82 | With `/>` first at `k`, the description becomes the text after it. |
| BazosFeed.UnclosedImageTag | src/universal_watcher/data_sources/bazos_cz/services/bazos_cz_data_service.py:81-82 | Without `/>`, `find` gives -1 and only the first character is dropped. |
| BazosFeed.StripImage | src/universal_watcher/data_sources/bazos_cz/services/bazos_cz_data_service.py:80-82 | Removing the leading image tag. PlainDescriptionKept, ImageTagDropped and UnclosedImageTag state its three cases. |
| BazosFeed.ParseEntry | src/universal_watcher/data_sources/bazos_cz/services/bazos_cz_data_service.py:71-95 | One item fails iff its date does not parse, with the date text in the error. Otherwise the link is kept as the url and the parsed date is stored. |
| BazosFeed.ParseAll | src/universal_watcher/data_sources/bazos_cz/services/bazos_cz_data_service.py:70-97 | Succeeds iff every item parses. Then the items are in feed order, one per entry. |
| BazosFeed.ParseAllFirstFailure | src/universal_watcher/data_sources/bazos_cz/services/bazos_cz_data_service.py:71-97 | A failure is the failure of the first item that fails, after all earlier ones parsed. |
| BazosFeed.FailureSticks | src/universal_watcher/data_sources/bazos_cz/services/bazos_cz_data_service.py:71-97 | A failing prefix makes the whole feed fail the same way. |
| BazosFeed.ParseItems | src/universal_watcher/data_sources/bazos_cz/services/bazos_cz_data_service.py:70-97 | The item loop yields `ParseAll`. |
| BazosFeed.GetItems | src/universal_watcher/data_sources/bazos_cz/services/bazos_cz_data_service.py:115-123 | A status other than 200 fails with FetchFailed(url, status). Otherwise the result is the parsed items of the response. |
| BazosCzDataService.BuildUrl | src/universal_watcher/data_sources/bazos_cz/services/bazos_cz_data_service.py:20-57 | The URL is `BASE_URL?` followed by the lead `&` and the kept pairs of the Czech fields joined with `&`. |
| BazosCzDataService.GetItems | src/universal_watcher/data_sources/bazos_cz/services/bazos_cz_data_service.py:99-123 | The status guard and parse over the Czech URL. |
| BazosCzDataService.DefaultQuery | src/universal_watcher/data_sources/bazos_cz/services/bazos_cz_data_service.py:39-57 | Default parameters give the query `&humkreis=25`. |
| BazosCzDataService.DefaultFieldsQuery | src/universal_watcher/data_sources/bazos_cz/services/bazos_cz_data_service.py:39-57 | The default Czech field values give `&humkreis=25`. |
| BazosCzDataService.DefaultFieldsFalsy | src/universal_watcher/data_sources/bazos_cz/models/bazos_cz_parameters.py:38-73 | Of the Czech defaults only the radius is truthy. |
| BazosCzDataService.CategoryLeads | src/universal_watcher/data_sources/bazos_cz/services/bazos_cz_data_service.py:49-55 | A chosen category comes first, as `rub=` plus at most two quoted characters, with no `&` before it. |
| BazosSkDataService.BuildUrl | src/universal_watcher/data_sources/bazos_sk/services/bazos_sk_data_service.py:20-57 | The URL is `BASE_URL?` followed by the lead `&` and the kept pairs in Slovak field order. |
| BazosSkDataService.GetItems | src/universal_watcher/data_sources/bazos_sk/services/bazos_sk_data_service.py:99-123 | The status guard and parse over the Slovak URL. |
| BazosSkDataService.DefaultQuery | src/universal_watcher/data_sources/bazos_sk/services/bazos_sk_data_service.py:39-57 | The default prices of 0 are dropped, and default parameters give `&humkreis=25`. |
| BazosSkDataService.DefaultFieldsQuery | src/universal_watcher/data_sources/bazos_sk/services/bazos_sk_data_service.py:39-57 | The default Slovak field values give `&humkreis=25`. |
| BazosSkDataService.DefaultFieldsFalsy | src/universal_watcher/data_sources/bazos_sk/models/bazos_sk_parameters.py:38-70 | Of the Slovak defaults only the radius is truthy. |
| BazosSkDataService.ZeroPriceIsUnset | src/universal_watcher/data_sources/bazos_sk/services/bazos_sk_data_service.py:43-44 | A minimum price of 0 gives the same query as an unset one. |
| ModelFields.TextField | src/universal_watcher/data_sources/bazos_cz/models/bazos_cz_parameters.py:42-52 | An `Optional[str]` field takes its default when absent and accepts `None` or a string unchanged. An integer is refused. |
| ModelFields.NonNegativeField | src/universal_watcher/data_sources/bazos_cz/models/bazos_cz_parameters.py:53-73 | An `Optional[int]` field with `ge=0` takes its default when absent and accepts `None` or an integer ≥ 0. Anything else is refused. |
| BazosCzParameters.CategoryField | src/universal_watcher/data_sources/bazos_cz/models/bazos_cz_parameters.py:38-41 | An absent `category` gives `CategoryEnum.NONE` and an explicit null gives `None`. A string is accepted exactly when it is the value of a category, which is the one chosen. Anything else is refused with a `category` validation error. |
| BazosCzParameters.LocationField | src/universal_watcher/data_sources/bazos_cz/models/bazos_cz_parameters.py:47-52 | An absent `location` gives `""`. A string or null goes through `validate_location`. An integer is refused with a `location` validation error. |
| BazosSkParameters.CategoryField | src/universal_watcher/data_sources/bazos_sk/models/bazos_sk_parameters.py:38-42 | An absent `category` gives `CategoryEnum.NONE` and an explicit null gives `None`. A string is accepted exactly when it is the value of a category, which is the one chosen. Anything else is refused with a `category` validation error. |
| BazosSkParameters.LocationField | src/universal_watcher/data_sources/bazos_sk/models/bazos_sk_parameters.py:43-47 | An absent `location` gives `""`. A string or null goes through `validate_location`. An integer is refused with a `location` validation error. |
| BazosCzParameters.FromValue | src/universal_watcher/data_sources/bazos_cz/models/bazos_cz_parameters.py:10-34 | An accepted text is the string form of the member returned. |
| BazosCzParameters.CategoryRoundTrip | src/universal_watcher/data_sources/bazos_cz/models/bazos_cz_parameters.py:10-34 | Each of the 21 members is accepted back from its string form. |
| BazosCzParameters.Value | src/universal_watcher/data_sources/bazos_cz/models/bazos_cz_parameters.py:10-34 | `CategoryEnum.__str__` returns the member's value. CategoryRoundTrip states that `FromValue` inverts it over all 21 members. |
| BazosCzParameters.Fields | src/universal_watcher/data_sources/bazos_cz/models/bazos_cz_parameters.py:38-73 | The `model_dump` items in declaration order, each with its `uri_param_name`: rub, hledat, hlokalita, humkreis, cenaod, cenado. DefaultFieldsFalsy, DefaultFieldsQuery and CategoryLeads state the query they give. |
| BazosCzParameters.ValidateLocation | src/universal_watcher/data_sources/bazos_cz/models/bazos_cz_parameters.py:75-84 | Passes iff the value is falsy or exactly five digits, and returns it unchanged. Otherwise ValidationFailed("location"). |
| BazosCzParameters.Parse | src/universal_watcher/data_sources/bazos_cz/models/bazos_cz_parameters.py:37-84 | An accepted model satisfies the `ge=0` bounds and the location rule. The dictionary is accepted iff every field validator accepts it. A given integer for `radius`, `min_price` or `max_price` is kept, and a negative one is refused. Each field of an accepted model is what its own validator gives: the category chosen by its value, `None` for an explicit null, the default when absent. |
| BazosCzParameters.CategoryChosen | src/universal_watcher/data_sources/bazos_cz/models/bazos_cz_parameters.py:37-84 | A lone category text is accepted iff it is an enum value, and the model then holds that member. |
| BazosCzParameters.NullGivesNone | src/universal_watcher/data_sources/bazos_cz/models/bazos_cz_parameters.py:37-84 | An explicit `None` stays `None` in every field that accepts it, instead of becoming the default. |
| BazosCzParameters.Defaults | src/universal_watcher/data_sources/bazos_cz/models/bazos_cz_parameters.py:38-73 | The defaults are category NONE, search "", location "", radius 25, and no prices. |
| BazosCzParameters.LocationRule | src/universal_watcher/data_sources/bazos_cz/models/bazos_cz_parameters.py:76-84 | A given location is accepted iff it is empty or five digits, and is kept as given. |
| BazosCzParameters.GivenTextKept | src/universal_watcher/data_sources/bazos_cz/models/bazos_cz_parameters.py:42-52 | An accepted model keeps the given search and location texts. |
| BazosSkParameters.FromValue | src/universal_watcher/data_sources/bazos_sk/models/bazos_sk_parameters.py:10-34 | An accepted text is the string form of the member returned. |
| BazosSkParameters.CategoryRoundTrip | src/universal_watcher/data_sources/bazos_sk/models/bazos_sk_parameters.py:10-34 | Each of the 21 members is accepted back from its string form. |
| BazosSkParameters.Value | src/universal_watcher/data_sources/bazos_sk/models/bazos_sk_parameters.py:10-34 | `CategoryEnum.__str__` over the Slovak members. CategoryRoundTrip states that `FromValue` inverts it over all 21 members. |
| BazosSkParameters.Fields | src/universal_watcher/data_sources/bazos_sk/models/bazos_sk_parameters.py:38-70 | The Slovak `model_dump` order: rub, hlokalita, hledat, cenaod, cenado, humkreis. DefaultFieldsFalsy, DefaultFieldsQuery and ZeroPriceIsUnset state the query they give. |
| BazosSkParameters.ValidateLocation | src/universal_watcher/data_sources/bazos_sk/models/bazos_sk_parameters.py:72-78 | Passes iff the value is exactly five digits, and returns it unchanged. Otherwise ValidationFailed("location"). |
| BazosSkParameters.Parse | src/universal_watcher/data_sources/bazos_sk/models/bazos_sk_parameters.py:37-78 | An accepted model satisfies the bounds. A given location passed the validator, and an absent one is the unvalidated default "". The dictionary is accepted iff every field validator accepts it. A given integer for `min_price`, `max_price` or `radius` is kept, and a negative one is refused. Each field of an accepted model is what its own validator gives: the category chosen by its value, `None` for an explicit null, the default when absent. |
| BazosSkParameters.CategoryChosen | src/universal_watcher/data_sources/bazos_sk/models/bazos_sk_parameters.py:37-78 | A lone category text is accepted iff it is an enum value, and the model then holds that member. |
| BazosSkParameters.NullGivesNone | src/universal_watcher/data_sources/bazos_sk/models/bazos_sk_parameters.py:37-78 | An explicit `None` stays `None` in every field that accepts it, instead of becoming the default. |
| BazosSkParameters.Defaults | src/universal_watcher/data_sources/bazos_sk/models/bazos_sk_parameters.py:38-70 | The defaults are category NONE, location "", search "", prices 0 and 0, radius 25. |
| BazosSkParameters.LocationRule | src/universal_watcher/data_sources/bazos_sk/models/bazos_sk_parameters.py:72-78 | A given location is accepted iff it is five digits. An explicit empty string is refused. |
| BazosSkParameters.NullLocationRefused | src/universal_watcher/data_sources/bazos_sk/models/bazos_sk_parameters.py:74 | An explicit `None` location is refused. |
| BazosSkFormatterService.GetFormatter | src/universal_watcher/data_sources/bazos_sk/services/bazos_sk_formatter_service.py:21-24 | Succeeds iff the key is a name with a non-`None` entry, and then yields an instance of the mapped class. Otherwise FormatterNotFound. The table is a value and is not changed. |
| BazosSkFormatterService.ShippedTable | src/universal_watcher/data_sources/bazos_sk/formatters/config.py:4-6 | With the shipped table exactly `email_formatter` resolves, to `BazosSkEmailFormatter`. |
| BazosSkFormatterService.ObjectKeyFails | src/universal_watcher/data_sources/bazos_sk/services/bazos_sk_formatter_service.py:21-22 | A formatter object used as key fails, whatever the table. |
| Strings.Split | src/universal_watcher/data_sources/bazos_cz/services/bazos_cz_data_service.py:72 | `split` yields at least one piece, and no piece contains the separator. |
| Strings.JoinSplit | src/universal_watcher/data_sources/bazos_cz/services/bazos_cz_data_service.py:72-73 | Joining the pieces with the separator gives back the string. |
| Strings.SplitJoin | src/universal_watcher/core/services/notification_registry_service.py:134 | Splitting a join of separator-free words gives back the words. |
| Strings.SplitAfterWord | src/universal_watcher/core/services/notification_registry_service.py:134 | A leading separator-free word splits off as one piece. |
| Strings.SplitWord | src/universal_watcher/core/services/notification_registry_service.py:134 | A separator-free word splits into itself. |
| Strings.JoinSnoc | src/universal_watcher/data_sources/bazos_cz/services/bazos_cz_data_service.py:73 | A join of two or more pieces is the join of all but the last, the separator, then the last. |
| Strings.LastIndexOf | src/universal_watcher/data_sources/bazos_cz/services/bazos_cz_data_service.py:72-77 | None iff the character is absent. Otherwise an index of it with no occurrence after. |
| Strings.LastIndexOfUnique | src/universal_watcher/data_sources/bazos_cz/services/bazos_cz_data_service.py:72-77 | An occurrence with none after it is the one found. |
| Strings.TrimLeft | src/universal_watcher/data_sources/bazos_cz/services/bazos_cz_data_service.py:72 | A suffix that does not start with whitespace, everything removed being whitespace. |
| Strings.TrimRight | src/universal_watcher/data_sources/bazos_cz/services/bazos_cz_data_service.py:77 | A prefix that does not end with whitespace, everything removed being whitespace. |
| Strings.Strip | src/universal_watcher/data_sources/bazos_cz/services/bazos_cz_data_service.py:72 | No longer than its input, and neither starts nor ends with whitespace. |
| Strings.StripSlice | src/universal_watcher/data_sources/bazos_cz/services/bazos_cz_data_service.py:72 | The result is the slice of the input that starts right after the leading whitespace: character by character it equals the input from that point. |
| Strings.StripRemovesSpace | src/universal_watcher/data_sources/bazos_cz/services/bazos_cz_data_service.py:72 | Everything `strip` removes is whitespace: the characters before the slice and those after it. |
| Strings.FindFrom | src/universal_watcher/data_sources/bazos_cz/services/bazos_cz_data_service.py:81 | `find` gives the lowest match index, or -1 iff there is no match. |
| Strings.LowerAll | src/universal_watcher/core/services/notification_registry_service.py:134 | Lower-cases each character. |
| Strings.Capitalize | src/universal_watcher/core/services/notification_registry_service.py:134 | Same length, first character upper-cased, the rest lower-cased. |
| Strings.NatToString | src/universal_watcher/data_sources/bazos_cz/services/bazos_cz_data_service.py:46 | `str(n)` of a natural number is all digits, and a single digit for n < 10. |
| Strings.NatToStringValue | src/universal_watcher/data_sources/bazos_cz/services/bazos_cz_data_service.py:46 | The digits of `str(n)` have decimal value `n`, and there is no leading zero unless the text is `"0"`. |
| Strings.IntToString | src/universal_watcher/data_sources/bazos_cz/services/bazos_cz_data_service.py:46 | `str(n)` is digits, with a leading `-` for negatives. |
| Strings.IntToStringValue | src/universal_watcher/data_sources/bazos_cz/services/bazos_cz_data_service.py:46 | The digits of `str(n)` (after the `-` of a negative `n`) have decimal value `abs(n)`, with no leading zero unless `n` is 0. |
| Strings.TwoDigits | src/universal_watcher/data_sources/bazos_cz/services/bazos_cz_data_service.py:46 | A two-digit number prints as its tens digit, then its units digit. |

## Left out

- Network I/O: the HTTP request is a function `http` from URL to a status and the feed's item texts. `BASE_URL` is a parameter because `bazos_*/config.py` is not part of this model.
- Item validation: `BazosSkItem`'s `url: HttpUrl` field (`bazos_sk_item.py:11`) refuses a link that is not an http(s) URL and normalises a valid one. The model stores each link unchanged and fails an entry only on its date. The Czech item model is not part of this model.
- XML parsing (`ET.fromstring`, `findall`, `find(...).text`): each item arrives as its four texts. A missing element (`.text` of `None`) is not modelled.
- Date parsing (`datetime.strptime`): a parameter `parseDate` that may fail. Its failure is reported as DateParseFailed.
- `urllib.parse.quote`: a parameter `quote`. Lemmas that need the radius written out require only that `quote` leaves `"25"` alone.
- TinyDB, the database file path and locking: tables are sequences of documents, and each method is one atomic step.
- Serialisation: `model_dump_json`/`loads` on write and the item constructor in `get_stored_items` on read are left out. The stored items are the items themselves, so value equality of items is that of the model.
- `get_stored_items`: the data source's baseline read is `CoreDb.GetWatcherItems` directly, because the Bazos database services only forward to it.
- Plugin discovery (`setup.py`), `importlib`, `inspect.signature` and `get_type_hints` are not modelled. Registries start empty and are filled by the register methods. Importable modules are a map from module path to attribute names. Constructor parameters are a table per class.
- The data sources and notification platforms themselves (set_params, fetch, formatter tables, notify, the email platform, SMTP and Jinja) are abstracted as a `World` value. Each formatter table follows the Slovak lookup rule of `get_formatter`, because `bazos_cz_formatter_service.py` is not part of this model.
- Watcher documents: the model's `WatcherDoc` always has the shape of `WatcherModel` (`core/models/watcher_model.py`): `data_source` with `name`, `formatter` and `parameters`, and `notification_platform` with `name` and `parameters`. In the source a watcher document is a plain TinyDB dict that nothing validates, and `check` indexes it at `watcher.py:38`, 41, 58, 61 and 68. A document missing one of those keys raises KeyError there, in some cases after the fetch (lines 58 and 61) or after the platform is configured (line 68). Those KeyError paths of `check` are not modelled.
- The `print` calls of `check` are not modelled.
- Pydantic: lax coercion (e.g. the text `"5"` for an integer field), unknown keys and collecting all field errors are not modelled. A field of the wrong kind, and the first failing field in declaration order, give ValidationFailed.
- BazosSkParameters.NullLocationRefused: an explicit `None` location makes `None.isdigit()` raise AttributeError in the source. The model reports it as ValidationFailed("location").
- Strings.Capitalize: ASCII case mapping only. Strings.AllDigits accepts ASCII digits only, where Python's `isdigit` accepts other Unicode digits too.
- `get_data_sources`/`get_notification_platforms` return the live list in the source. The model exposes the `seq` field, so aliasing through the returned list is not captured.
- The dependency injector's cycle message (class names joined by ` -> `) is kept as the list of classes on the stack. Thread-safety of its `RLock` is not modelled.
- DataSourceRegistryService.Registry.GetDataSource, NotificationRegistryService.Registry.GetNotificationPlatform, BazosSkFormatterService.GetFormatter and Injector.DependencyInjector.Construct: calling a registered class (`data["class"]()`, `formatter_cls()`, the wrapped `original_init` at `injector.py:131`) always succeeds in the model. In the source a constructor body can raise. For example, `EmailService.__init__` reads `int(os.getenv("SMTP_PORT"))` (`email_env_service.py:16`), so without SMTP settings `get_notification_platform` raises at `watcher.py:57` and the class being built stays on the injector's stack. Constructor bodies are not part of this model, so that failure path, and the stack leak `Resolve` would show through it, cannot be reached.
- UniversalWatcher.PlatformOnlyWhenNew: "every registered platform is configured when there are new items" holds only under the assumption above, that constructing the platform's class succeeds.
- UniversalWatcher.Watcher.Create and UniversalWatcher.Watcher.CheckAll: unimplemented (`pass`) in the source. They are modelled as methods that change nothing.

## Findings

| source | as written | input that shows it | evidently intended | confidence | as-written member | corrected member |
|---|---|---|---|---|---|---|
| src/universal_watcher/watcher.py:67-72 | `check` passes the formatter object returned by `get_formatter` to `format_items`. `format_items(formatter_name, items)` then looks that object up again as a name in `FORMATTERS` (`bazos_sk_formatter_service.py:21`), which has only string keys, so it raises "Formatter … not found". | Any check whose fetch succeeds, whose baseline is non-empty and holds none of one fetched item, and whose notification platform is registered and accepts its parameters: the platform is configured, then the check fails with FormatterNotFound and `notify` is never called. | Pass the configured formatter name `watcher_data["data_source"]["formatter"]` to `format_items`. Then new items are formatted by the configured formatter and notified exactly once. | not executed | UniversalWatcher.AsWrittenNeverNotifies | UniversalWatcher.NotifiesOnceWithNewItems |
