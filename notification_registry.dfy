/** `NotificationRegistryService`: the process-wide list of (name, class)
    entries for notification platforms, and the lookup of a platform's
    parameters class by naming convention. */
module NotificationRegistryService {

  import opened Common
  import opened Plugins
  import Strings

  /** A class found by importing `modulePath` and reading attribute `className`. */
  datatype ParametersClass = ParametersClass(modulePath: string, className: string)

  /** The module that must define the parameters class of platform `name`. */
  function ParametersModulePath(name: string): string
  {
    "universal_watcher.notification_platforms." + name + ".models." + name + "_parameters"
  }

  function CapitalizeAll(words: seq<string>): (r: seq<string>)
    ensures |r| == |words| && forall i :: 0 <= i < |words| ==> r[i] == Strings.Capitalize(words[i])
  {
    if |words| == 0 then [] else [Strings.Capitalize(words[0])] + CapitalizeAll(words[1..])
  }

  /** The parameters class name of platform `name`: every `_`-separated word
      capitalised, concatenated, followed by `Parameters`. */
  function ParametersClassName(name: string): string
  {
    Strings.Join(CapitalizeAll(Strings.Split(name, '_')), "") + "Parameters"
  }

  /** The class name of a platform whose name joins words with `_` is the
      concatenation of those words capitalised, then `Parameters`. */
  lemma ParametersClassNameOfWords(words: seq<string>)
    requires |words| >= 1
    requires forall i :: 0 <= i < |words| ==> '_' !in words[i]
    ensures ParametersClassName(Strings.Join(words, "_")) ==
      Strings.Join(CapitalizeAll(words), "") + "Parameters"
  {
    Strings.SplitJoin(words, '_');
  }

  /** The platform shipped with the system, `email`, has parameters class
      `EmailParameters`. */
  lemma EmailParametersClassName()
    ensures ParametersClassName("email") == "EmailParameters"
  {
    ParametersClassNameOfWords(["email"]);
    assert Strings.Join(["email"], "_") == "email";
    CapitalizeEmail();
    assert CapitalizeAll(["email"]) == ["Email"];
    assert Strings.Join(["Email"], "") == "Email";
  }

  lemma CapitalizeEmail()
    ensures Strings.Capitalize("email") == "Email"
  {
    var c := Strings.Capitalize("email");
    assert c[0] == 'E' && c[1] == 'm' && c[2] == 'a' && c[3] == 'i' && c[4] == 'l';
  }

  /** The derived class name never contains `_` and always ends in `Parameters`. */
  lemma {:induction false} ParametersClassNameShape(name: string)
    ensures '_' !in ParametersClassName(name)
    ensures |ParametersClassName(name)| >= 10
    ensures ParametersClassName(name)[|ParametersClassName(name)| - 10..] == "Parameters"
  {
    var words := Strings.Split(name, '_');
    NoUnderscoreAfterCapitalize(words);
    NoUnderscoreInConcat(CapitalizeAll(words));
  }

  lemma {:induction false} NoUnderscoreAfterCapitalize(words: seq<string>)
    requires forall i :: 0 <= i < |words| ==> '_' !in words[i]
    ensures forall i :: 0 <= i < |words| ==> '_' !in CapitalizeAll(words)[i]
  {
    forall i | 0 <= i < |words|
      ensures '_' !in CapitalizeAll(words)[i]
    {
      var w := words[i];
      var c := Strings.Capitalize(w);
      forall k | 0 <= k < |c|
        ensures c[k] != '_'
      {
        assert w[k] != '_';
      }
    }
  }

  lemma {:induction false} NoUnderscoreInConcat(words: seq<string>)
    requires forall i :: 0 <= i < |words| ==> '_' !in words[i]
    ensures '_' !in Strings.Join(words, "")
  {
    if |words| > 1 {
      NoUnderscoreInConcat(words[1..]);
      assert Strings.Join(words, "") == words[0] + "" + Strings.Join(words[1..], "");
    }
  }

  class Registry {
    /** `_notification_platforms`, in registration order. */
    var platforms: seq<Entry>

    ghost predicate Valid()
      reads this
    {
      NamesDistinct(platforms)
    }

    constructor ()
      ensures Valid() && platforms == []
    {
      platforms := [];
    }

    /** `register_notification_platform`: a duplicate name is refused and the
        list kept; a fresh name is appended as one new last entry. */
    method RegisterNotificationPlatform(name: string, cls: ClassId) returns (r: Outcome)
      requires Valid()
      modifies this
      ensures Valid()
      ensures HasName(old(platforms), name) ==>
        r == Fail(DuplicateNotificationPlatform(name)) && platforms == old(platforms)
      ensures !HasName(old(platforms), name) ==>
        r == Pass && platforms == old(platforms) + [Entry(name, cls)]
    {
      var existing := FindEntry(platforms, name);
      FirstNamedFinds(platforms, name);
      if existing.Some? {
        return Fail(DuplicateNotificationPlatform(name));
      }
      AppendFreshKeepsDistinct(platforms, Entry(name, cls));
      platforms := platforms + [Entry(name, cls)];
      r := Pass;
    }

    /** `get_notification_platform`: an unknown name fails; a registered one
        yields a new instance of its class. */
    method GetNotificationPlatform(name: string) returns (r: Result<Instance>)
      requires Valid()
      ensures !HasName(platforms, name) ==> r == Err(NotificationPlatformNotFound(name))
      ensures forall i :: 0 <= i < |platforms| && platforms[i].name == name ==>
        r == Ok(Instance(platforms[i].cls))
    {
      var entry := FindEntry(platforms, name);
      FirstNamedFinds(platforms, name);
      if entry.None? {
        return Err(NotificationPlatformNotFound(name));
      }
      r := Ok(Instance(entry.value.cls));
      forall i | 0 <= i < |platforms| && platforms[i].name == name
        ensures r == Ok(Instance(platforms[i].cls))
      {
        FirstNamedUnique(platforms, name, i);
      }
    }

    /** `get_notification_platform_name`: the name of the first entry of class
        `cls`, or an error when there is none. */
    method GetNotificationPlatformName(cls: ClassId) returns (r: Result<string>)
      ensures r.Err? <==> forall i :: 0 <= i < |platforms| ==> platforms[i].cls != cls
      ensures r.Err? ==> r.error == NotificationPlatformClassNotFound(cls)
      ensures r.Ok? ==> (exists i :: 0 <= i < |platforms| && platforms[i].cls == cls
                           && r.value == platforms[i].name
                           && forall j :: 0 <= j < i ==> platforms[j].cls != cls)
    {
      var entry := FindByClass(platforms, cls);
      FirstWithClassFinds(platforms, cls);
      if entry.None? {
        return Err(NotificationPlatformClassNotFound(cls));
      }
      return Ok(entry.value.name);
    }

    /** `get_notification_platform_parameters_class`. An unregistered name
        fails before anything is imported. Otherwise the class is attribute
        `ParametersClassName(name)` of module `ParametersModulePath(name)`;
        `modules` maps each importable module to the attributes it defines,
        and a missing module or attribute is reported as an invalid class. */
    method GetParametersClass(name: string, modules: map<string, set<string>>)
      returns (r: Result<ParametersClass>)
      ensures !HasName(platforms, name) ==> r == Err(NotificationPlatformNotFound(name))
      ensures HasName(platforms, name) ==>
        var path, cls := ParametersModulePath(name), ParametersClassName(name);
        if path in modules && cls in modules[path] then r == Ok(ParametersClass(path, cls))
        else r == Err(InvalidParametersClass(path, cls))
    {
      var entry := FindEntry(platforms, name);
      FirstNamedFinds(platforms, name);
      if entry.None? {
        return Err(NotificationPlatformNotFound(name));
      }
      var path := ParametersModulePath(name);
      if path !in modules {
        return Err(InvalidParametersClass(path, ParametersClassName(name)));
      }
      var className := ParametersClassName(name);
      if className !in modules[path] {
        return Err(InvalidParametersClass(path, className));
      }
      r := Ok(ParametersClass(path, className));
    }
  }

  /** The class object `NotificationRegistryService` with its `_instance`
      attribute, which `__new__` fills once. */
  class Singleton {
    var instance: Registry?

    constructor ()
      ensures instance == null
    {
      instance := null;
    }

    /** `__new__`: the first construction creates the registry with an empty
        list; every later one returns that same registry. */
    method New() returns (r: Registry)
      modifies this
      ensures old(instance) != null ==> r == old(instance) && instance == old(instance)
      ensures old(instance) == null ==> fresh(r) && r.Valid() && r.platforms == [] && instance == r
    {
      if instance == null {
        instance := new Registry();
      }
      r := instance;
    }
  }
}
