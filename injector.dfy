/** `DependencyInjector`: builds objects whose constructors declare their
    dependencies by type. Classes are ids; `deps` gives each class's
    constructor parameters. Resolution keeps a stack of the classes being
    built (to detect cycles) and a cache of singleton instances. */
module Injector {

  import opened Common

  /** What `inspect`/`get_type_hints` report about a constructor parameter. */
  datatype Annotation =
    | NoAnnotation          // the parameter has no annotation
    | NoTypeHint            // annotated, but no type hint is found for it
    | Hint(cls: ClassId)    // annotated with a class

  datatype Param = Param(name: string, annotation: Annotation, hasDefault: bool)

  /** An object: the `id`-th object the injector had constructed, of class `cls`. */
  datatype Obj = Obj(id: nat, cls: ClassId)

  /** A parameter `new_init` leaves alone: `self`, one the caller passed, or
      one with a default value. */
  predicate Skipped(p: Param, kwargs: map<string, Obj>)
  {
    p.name == "self" || p.name in kwargs || p.hasDefault
  }

  /** The loop of `new_init` can stop with `error` at parameter `at`: `at` is
      required and every required parameter before it has a type hint; a
      missing annotation or type hint at `at` is the error reported. */
  predicate FailsAt(params: seq<Param>, kwargs: map<string, Obj>, at: nat, error: Error)
    requires at < |params|
  {
    && !Skipped(params[at], kwargs)
    && (forall j :: 0 <= j < at && !Skipped(params[j], kwargs) ==> params[j].annotation.Hint?)
    && (params[at].annotation.NoAnnotation? ==> error == MissingAnnotation(params[at].name))
    && (params[at].annotation.NoTypeHint? ==> error == MissingTypeHint(params[at].name))
  }

  /** The parameters of one signature have pairwise distinct names. */
  predicate DistinctNames(params: seq<Param>)
  {
    forall a, b :: 0 <= a < b < |params| ==> params[a].name != params[b].name
  }

  class DependencyInjector {
    /** The constructor parameters of every known class. */
    var deps: map<ClassId, seq<Param>>
    /** Classes carrying the `_di_inject_as_singleton` marker. */
    var marked: set<ClassId>
    /** `_dependency_stack`. */
    var stack: seq<ClassId>
    /** `_singletons`. */
    var singletons: map<ClassId, Obj>
    /** How many objects have been constructed so far. */
    var created: nat

    /** Every class a constructor is annotated with is known, no constructor
        names two parameters alike (as a Python signature cannot), and every
        cached singleton is an already constructed object of its own class. */
    ghost predicate Valid()
      reads this
    {
      && (forall c, i :: c in deps && 0 <= i < |deps[c]| && deps[c][i].annotation.Hint? ==>
            deps[c][i].annotation.cls in deps)
      && (forall c :: c in deps ==> DistinctNames(deps[c]))
      && (forall c :: c in singletons ==> singletons[c].cls == c && singletons[c].id < created)
    }

    /** The classes that are not being constructed right now. */
    ghost function Pending(): set<ClassId>
      reads this
    {
      deps.Keys - set c | c in stack
    }

    constructor (deps: map<ClassId, seq<Param>>)
      requires forall c, i :: c in deps && 0 <= i < |deps[c]| && deps[c][i].annotation.Hint? ==>
        deps[c][i].annotation.cls in deps
      requires forall c :: c in deps ==> DistinctNames(deps[c])
      ensures Valid() && this.deps == deps
      ensures marked == {} && stack == [] && singletons == map[] && created == 0
    {
      this.deps := deps;
      marked := {};
      stack := [];
      singletons := map[];
      created := 0;
    }

    /** `inject_as_singleton`: sets the marker on `cls` and returns `cls`
        itself; nothing else changes, so marking twice is marking once. */
    method InjectAsSingleton(cls: ClassId) returns (r: ClassId)
      modifies this
      ensures r == cls && marked == old(marked) + {cls}
      ensures deps == old(deps) && stack == old(stack)
      ensures singletons == old(singletons) && created == old(created)
    {
      marked := marked + {cls};
      r := cls;
    }

    /** `_get_dependency_instance`. A class already on the stack is a cycle.
        Otherwise the class is pushed, built (or taken from the singleton cache
        when it is marked), and popped; a failure while building leaves the
        pushed classes on the stack, as there is no `finally`: the class
        itself stays right above the old stack, so resolving it again reports
        a cycle. */
    method Resolve(dependency: ClassId) returns (r: Result<Obj>)
      requires Valid() && dependency in deps
      modifies this
      decreases Pending(), 0
      ensures Valid() && deps == old(deps) && marked == old(marked)
      ensures dependency in old(stack) ==>
        && r == Err(CircularDependency(old(stack) + [dependency]))
        && stack == old(stack) && singletons == old(singletons) && created == old(created)
      ensures r.Ok? ==> stack == old(stack) && r.value.cls == dependency
      ensures r.Err? ==> |old(stack)| <= |stack| && stack[..|old(stack)|] == old(stack)
      ensures r.Err? && dependency !in old(stack) ==>
        |old(stack)| < |stack| && stack[|old(stack)|] == dependency
      ensures old(created) <= created
      ensures forall c :: c in old(singletons) ==> c in singletons && singletons[c] == old(singletons)[c]
      ensures dependency !in old(stack) && dependency in marked && dependency in old(singletons) ==>
        r == Ok(old(singletons)[dependency]) && created == old(created) && singletons == old(singletons)
      ensures r.Ok? && dependency in marked ==> dependency in singletons && singletons[dependency] == r.value
      ensures r.Ok? && dependency !in marked ==> old(created) <= r.value.id < created
    {
      if dependency in stack {
        return Err(CircularDependency(stack + [dependency]));
      }
      ghost var before := Pending();
      stack := stack + [dependency];
      ghost var pushed := stack;
      assert Pending() == before - {dependency};
      var instance: Obj;
      if dependency in marked {
        if dependency !in singletons {
          var built := Construct(dependency, map[]);
          if built.Err? {
            return Err(built.error);
          }
          singletons := singletons[dependency := built.value];
        }
        instance := singletons[dependency];
      } else {
        var built := Construct(dependency, map[]);
        if built.Err? {
          return Err(built.error);
        }
        instance := built.value;
      }
      assert stack == pushed;
      stack := stack[..|stack| - 1];
      assert stack == old(stack);
      return Ok(instance);
    }

    /** Calling class `cls` with keyword arguments `kwargs`: the injecting
        `__init__` fills in the missing dependencies, then a new object is made. */
    method Construct(cls: ClassId, kwargs: map<string, Obj>) returns (r: Result<Obj>)
      requires Valid() && cls in deps
      modifies this
      decreases Pending(), 2
      ensures Valid() && deps == old(deps) && marked == old(marked)
      ensures r.Ok? ==> stack == old(stack) && r.value.cls == cls && old(created) <= r.value.id < created
      ensures r.Err? ==> |old(stack)| <= |stack| && stack[..|old(stack)|] == old(stack)
      ensures old(created) <= created
      ensures forall c :: c in old(singletons) ==> c in singletons && singletons[c] == old(singletons)[c]
    {
      var filled := InjectKwargs(cls, kwargs);
      if filled.Err? {
        return Err(filled.error);
      }
      r := Ok(Obj(created, cls));
      created := created + 1;
    }

    /** The parameter loop of `inject_dependencies.new_init`: every parameter
        that is not skipped must carry a class annotation with a type hint and
        is resolved into `kwargs`; skipped parameters and the caller's own
        arguments are never touched. A failure happens at some required
        parameter `at` all of whose required predecessors carry a type hint:
        either `at` itself lacks its annotation or hint, and the error names
        it, or its resolution failed. */
    method InjectKwargs(cls: ClassId, kwargs: map<string, Obj>) returns (r: Result<map<string, Obj>>)
      requires Valid() && cls in deps
      modifies this
      decreases Pending(), 1
      ensures Valid() && deps == old(deps) && marked == old(marked)
      ensures r.Ok? ==> stack == old(stack)
      ensures r.Err? ==> |old(stack)| <= |stack| && stack[..|old(stack)|] == old(stack)
      ensures old(created) <= created
      ensures forall c :: c in old(singletons) ==> c in singletons && singletons[c] == old(singletons)[c]
      ensures r.Ok? ==> forall k :: k in kwargs ==> k in r.value && r.value[k] == kwargs[k]
      ensures r.Ok? ==> forall i :: 0 <= i < |deps[cls]| && deps[cls][i].name != "self" && !deps[cls][i].hasDefault ==>
        deps[cls][i].name in r.value
      ensures r.Ok? ==> forall k :: k in r.value && k !in kwargs ==>
        exists i :: 0 <= i < |deps[cls]| && deps[cls][i].name == k && deps[cls][i].annotation.Hint?
          && r.value[k].cls == deps[cls][i].annotation.cls
      ensures r.Ok? ==> forall i :: 0 <= i < |deps[cls]| && !Skipped(deps[cls][i], kwargs) ==>
        deps[cls][i].annotation.Hint?
      ensures r.Err? ==> exists at :: 0 <= at < |deps[cls]| && FailsAt(deps[cls], kwargs, at, r.error)
    {
      var params := deps[cls];
      var filled := kwargs;
      var i := 0;
      while i < |params|
        invariant 0 <= i <= |params|
        invariant Valid() && deps == old(deps) && marked == old(marked) && stack == old(stack)
        invariant Pending() == old(Pending())
        invariant old(created) <= created
        invariant forall c :: c in old(singletons) ==> c in singletons && singletons[c] == old(singletons)[c]
        invariant forall k :: k in kwargs ==> k in filled && filled[k] == kwargs[k]
        invariant forall j :: 0 <= j < i && params[j].name != "self" && !params[j].hasDefault ==>
          params[j].name in filled
        invariant forall k :: k in filled && k !in kwargs ==>
          exists j :: 0 <= j < i && params[j].name == k && params[j].annotation.Hint?
            && filled[k].cls == params[j].annotation.cls
        invariant forall j :: 0 <= j < i && !Skipped(params[j], kwargs) ==> params[j].annotation.Hint?
      {
        var p := params[i];
        assert forall j :: 0 <= j < i ==> params[j].name != p.name;
        assert Skipped(p, filled) <==> Skipped(p, kwargs);
        if !Skipped(p, filled) {
          match p.annotation
          case NoAnnotation =>
            assert FailsAt(params, kwargs, i, MissingAnnotation(p.name));
            return Err(MissingAnnotation(p.name));
          case NoTypeHint =>
            assert FailsAt(params, kwargs, i, MissingTypeHint(p.name));
            return Err(MissingTypeHint(p.name));
          case Hint(dependency) =>
            var resolved := Resolve(dependency);
            if resolved.Err? {
              assert FailsAt(params, kwargs, i, resolved.error);
              return Err(resolved.error);
            }
            filled := filled[p.name := resolved.value];
        }
        i := i + 1;
      }
      return Ok(filled);
    }
  }
}
