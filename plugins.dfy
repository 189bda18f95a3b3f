/** The entry list shared by the data-source and the notification-platform
    registries: (name, class) pairs searched front to back. */
module Plugins {

  import opened Common

  datatype Entry = Entry(name: string, cls: ClassId)

  /** Registration keeps names pairwise distinct. */
  ghost predicate NamesDistinct(entries: seq<Entry>)
  {
    forall i, j :: 0 <= i < j < |entries| ==> entries[i].name != entries[j].name
  }

  predicate HasName(entries: seq<Entry>, name: string)
  {
    exists i :: 0 <= i < |entries| && entries[i].name == name
  }

  /** The first entry registered under `name`, as the linear search finds it. */
  function FirstNamed(entries: seq<Entry>, name: string): Option<Entry>
  {
    if |entries| == 0 then None
    else if entries[0].name == name then Some(entries[0])
    else FirstNamed(entries[1..], name)
  }

  /** The first entry whose class is `cls`. */
  function FirstWithClass(entries: seq<Entry>, cls: ClassId): Option<Entry>
  {
    if |entries| == 0 then None
    else if entries[0].cls == cls then Some(entries[0])
    else FirstWithClass(entries[1..], cls)
  }

  /** The search by name finds an entry exactly when one has the name, and
      then it is the entry at the first such position. */
  lemma {:induction false} FirstNamedFinds(entries: seq<Entry>, name: string)
    ensures FirstNamed(entries, name).None? <==> !HasName(entries, name)
    ensures FirstNamed(entries, name).Some? ==>
      exists i :: 0 <= i < |entries| && entries[i] == FirstNamed(entries, name).value
        && entries[i].name == name
        && forall j :: 0 <= j < i ==> entries[j].name != name
  {
    if |entries| > 0 && entries[0].name != name {
      FirstNamedFinds(entries[1..], name);
      if HasName(entries, name) {
        var i :| 0 <= i < |entries| && entries[i].name == name;
        assert entries[1..][i - 1].name == name;
      }
      if FirstNamed(entries, name).Some? {
        var i :| 0 <= i < |entries[1..]| && entries[1..][i] == FirstNamed(entries, name).value
          && entries[1..][i].name == name
          && forall j :: 0 <= j < i ==> entries[1..][j].name != name;
        assert entries[i + 1] == entries[1..][i];
        forall j | 0 <= j < i + 1
          ensures entries[j].name != name
        {
          if j > 0 {
            assert entries[j] == entries[1..][j - 1];
          }
        }
      }
    }
  }

  /** With distinct names, the entry found by name is the only entry with it. */
  lemma {:induction false} FirstNamedUnique(entries: seq<Entry>, name: string, k: nat)
    requires NamesDistinct(entries)
    requires k < |entries| && entries[k].name == name
    ensures FirstNamed(entries, name) == Some(entries[k])
  {
    if k > 0 {
      assert entries[0].name != name;
      FirstNamedUnique(entries[1..], name, k - 1);
    }
  }

  /** The search by class finds an entry exactly when some entry has the
      class, and then it is the first such entry. */
  lemma {:induction false} FirstWithClassFinds(entries: seq<Entry>, cls: ClassId)
    ensures FirstWithClass(entries, cls).None? <==>
      forall i :: 0 <= i < |entries| ==> entries[i].cls != cls
    ensures FirstWithClass(entries, cls).Some? ==>
      exists i :: 0 <= i < |entries| && entries[i] == FirstWithClass(entries, cls).value
        && entries[i].cls == cls
        && forall j :: 0 <= j < i ==> entries[j].cls != cls
  {
    if |entries| > 0 && entries[0].cls != cls {
      FirstWithClassFinds(entries[1..], cls);
      if FirstWithClass(entries, cls).None? {
        forall i | 0 <= i < |entries|
          ensures entries[i].cls != cls
        {
          if i > 0 {
            assert entries[i] == entries[1..][i - 1];
          }
        }
      }
      if FirstWithClass(entries, cls).Some? {
        var i :| 0 <= i < |entries[1..]| && entries[1..][i] == FirstWithClass(entries, cls).value
          && entries[1..][i].cls == cls
          && forall j :: 0 <= j < i ==> entries[1..][j].cls != cls;
        assert entries[i + 1] == entries[1..][i];
        forall j | 0 <= j < i + 1
          ensures entries[j].cls != cls
        {
          if j > 0 {
            assert entries[j] == entries[1..][j - 1];
          }
        }
      }
    }
  }

  /** Appending an entry under a fresh name keeps names distinct. */
  lemma AppendFreshKeepsDistinct(entries: seq<Entry>, e: Entry)
    requires NamesDistinct(entries)
    requires !HasName(entries, e.name)
    ensures NamesDistinct(entries + [e])
  {
  }

  /** The search-by-name loop of both registries: the first entry named `name`. */
  method FindEntry(entries: seq<Entry>, name: string) returns (found: Option<Entry>)
    ensures found == FirstNamed(entries, name)
  {
    var i := 0;
    while i < |entries|
      invariant 0 <= i <= |entries|
      invariant FirstNamed(entries, name) == FirstNamed(entries[i..], name)
    {
      assert entries[i..][1..] == entries[i + 1..];
      if entries[i].name == name {
        return Some(entries[i]);
      }
      i := i + 1;
    }
    return None;
  }

  /** The search-by-class loop of both registries: the first entry of `cls`. */
  method FindByClass(entries: seq<Entry>, cls: ClassId) returns (found: Option<Entry>)
    ensures found == FirstWithClass(entries, cls)
  {
    var i := 0;
    while i < |entries|
      invariant 0 <= i <= |entries|
      invariant FirstWithClass(entries, cls) == FirstWithClass(entries[i..], cls)
    {
      assert entries[i..][1..] == entries[i + 1..];
      if entries[i].cls == cls {
        return Some(entries[i]);
      }
      i := i + 1;
    }
    return None;
  }
}
