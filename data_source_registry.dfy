/** `DataSourcesRegistryService`: the process-wide list of (name, class)
    entries for data sources, filled at start-up by plugin discovery. */
module DataSourceRegistryService {

  import opened Common
  import opened Plugins

  class Registry {
    /** `_data_sources`, in registration order. */
    var dataSources: seq<Entry>

    ghost predicate Valid()
      reads this
    {
      NamesDistinct(dataSources)
    }

    /** The entry list of a newly created registry is empty. */
    constructor ()
      ensures Valid() && dataSources == []
    {
      dataSources := [];
    }

    /** `register_data_source`: a name already present is refused and the list
        is left as it was; a fresh name is appended as one new last entry. */
    method RegisterDataSource(name: string, cls: ClassId) returns (r: Outcome)
      requires Valid()
      modifies this
      ensures Valid()
      ensures HasName(old(dataSources), name) ==>
        r == Fail(DuplicateDataSource(name)) && dataSources == old(dataSources)
      ensures !HasName(old(dataSources), name) ==>
        r == Pass && dataSources == old(dataSources) + [Entry(name, cls)]
    {
      var existing := FindEntry(dataSources, name);
      FirstNamedFinds(dataSources, name);
      if existing.Some? {
        return Fail(DuplicateDataSource(name));
      }
      AppendFreshKeepsDistinct(dataSources, Entry(name, cls));
      dataSources := dataSources + [Entry(name, cls)];
      r := Pass;
    }

    /** `get_data_source`: an unregistered name fails; a registered one yields
        a new instance of the class registered under it. */
    method GetDataSource(name: string) returns (r: Result<Instance>)
      requires Valid()
      ensures !HasName(dataSources, name) ==> r == Err(DataSourceNotFound(name))
      ensures forall i :: 0 <= i < |dataSources| && dataSources[i].name == name ==>
        r == Ok(Instance(dataSources[i].cls))
    {
      var entry := FindEntry(dataSources, name);
      FirstNamedFinds(dataSources, name);
      if entry.None? {
        return Err(DataSourceNotFound(name));
      }
      r := Ok(Instance(entry.value.cls));
      forall i | 0 <= i < |dataSources| && dataSources[i].name == name
        ensures r == Ok(Instance(dataSources[i].cls))
      {
        FirstNamedUnique(dataSources, name, i);
      }
    }

    /** `get_data_source_name`: the name of the first entry of class `cls`, or
        an error when no entry has that class. */
    method GetDataSourceName(cls: ClassId) returns (r: Result<string>)
      ensures r.Err? <==> forall i :: 0 <= i < |dataSources| ==> dataSources[i].cls != cls
      ensures r.Err? ==> r.error == DataSourceClassNotFound(cls)
      ensures r.Ok? ==> (exists i :: 0 <= i < |dataSources| && dataSources[i].cls == cls
                           && r.value == dataSources[i].name
                           && forall j :: 0 <= j < i ==> dataSources[j].cls != cls)
    {
      var entry := FindByClass(dataSources, cls);
      FirstWithClassFinds(dataSources, cls);
      if entry.None? {
        return Err(DataSourceClassNotFound(cls));
      }
      return Ok(entry.value.name);
    }

    /** `get_data_source_class`: the class registered under `name`, or an
        error when the name is not registered. */
    method GetDataSourceClass(name: string) returns (r: Result<ClassId>)
      requires Valid()
      ensures !HasName(dataSources, name) ==> r == Err(DataSourceNotFound(name))
      ensures forall i :: 0 <= i < |dataSources| && dataSources[i].name == name ==>
        r == Ok(dataSources[i].cls)
    {
      var entry := FindEntry(dataSources, name);
      FirstNamedFinds(dataSources, name);
      if entry.None? {
        return Err(DataSourceNotFound(name));
      }
      r := Ok(entry.value.cls);
      forall i | 0 <= i < |dataSources| && dataSources[i].name == name
        ensures r == Ok(dataSources[i].cls)
      {
        FirstNamedUnique(dataSources, name, i);
      }
    }
  }

  /** The class object `DataSourcesRegistryService` with its `_instance`
      attribute, which `__new__` fills once. */
  class Singleton {
    var instance: Registry?

    constructor ()
      ensures instance == null
    {
      instance := null;
    }

    /** `__new__`: the first construction creates the registry with an empty
        entry list; every later one returns that same registry untouched. */
    method New() returns (r: Registry)
      modifies this
      ensures old(instance) != null ==> r == old(instance) && instance == old(instance)
      ensures old(instance) == null ==> fresh(r) && r.Valid() && r.dataSources == [] && instance == r
    {
      if instance == null {
        instance := new Registry();
      }
      r := instance;
    }
  }
}
