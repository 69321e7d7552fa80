/**
 * The registry lookup of build/lib/rproj/utils/info.py and its older copy
 * build/lib/rproj/info.py (the same code): load every indexed path in
 * order, silently skipping the ones that fail; search the loaded records
 * for the first exact name; list them numbered from 0.
 *
 * Both copies are written once here, over the version of `RProjFile.load`
 * the caller passes in as `load` (a version's `Loaded`), and the record's
 * name as `nameOf`.
 */
module Info {
  import opened Wrappers
  import opened Errors
  import opened Json
  import opened Projects

  /**
   * The records of the indexed paths whose load succeeds, in index order.
   * The model skips every entry that is not a string.
   */
  function LoadAll<R>(paths: seq<JsonValue>, load: string -> Result<R, PyError>): seq<R> {
    if paths == [] then []
    else
      var front := LoadAll(paths[..|paths| - 1], load);
      var p := paths[|paths| - 1];
      if p.JStr? && load(p.s).Ok? then front + [load(p.s).value] else front
  }

  /** Loading a concatenation loads each part in turn: index order is kept. */
  lemma {:induction false} LoadAllAppend<R>(a: seq<JsonValue>, b: seq<JsonValue>, load: string -> Result<R, PyError>)
    ensures LoadAll(a + b, load) == LoadAll(a, load) + LoadAll(b, load)
  {
    if b != [] {
      var b' := b[..|b| - 1];
      assert (a + b)[..|a + b| - 1] == a + b';
      LoadAllAppend(a, b', load);
    } else {
      assert a + b == a;
    }
  }

  /** An entry whose load fails leaves no trace. */
  lemma LoadAllSkips<R>(a: seq<JsonValue>, p: JsonValue, b: seq<JsonValue>, load: string -> Result<R, PyError>)
    requires !(p.JStr? && load(p.s).Ok?)
    ensures LoadAll(a + [p] + b, load) == LoadAll(a + b, load)
  {
    LoadAllAppend(a + [p], b, load);
    LoadAllAppend(a, [p], load);
    LoadAllAppend(a, b, load);
    assert [p][..0] == [];
  }

  /** There are never more records than index entries. */
  lemma {:induction false} LoadAllLength<R>(paths: seq<JsonValue>, load: string -> Result<R, PyError>)
    ensures |LoadAll(paths, load)| <= |paths|
  {
    if paths != [] {
      LoadAllLength(paths[..|paths| - 1], load);
    }
  }

  /** When every entry loads, the records are the entries' records one for one. */
  lemma {:induction false} LoadAllLoadable<R>(paths: seq<JsonValue>, load: string -> Result<R, PyError>)
    requires forall i :: 0 <= i < |paths| ==> paths[i].JStr? && load(paths[i].s).Ok?
    ensures |LoadAll(paths, load)| == |paths|
    ensures forall i :: 0 <= i < |paths| ==> LoadAll(paths, load)[i] == load(paths[i].s).value
  {
    if paths != [] {
      LoadAllLoadable(paths[..|paths| - 1], load);
    }
  }

  /** Every record comes from some entry that loads to it. */
  lemma {:induction false} LoadAllFrom<R>(paths: seq<JsonValue>, load: string -> Result<R, PyError>, j: nat)
    requires j < |LoadAll(paths, load)|
    ensures exists i :: 0 <= i < |paths| && paths[i].JStr? && load(paths[i].s) == Ok(LoadAll(paths, load)[j])
  {
    var front := paths[..|paths| - 1];
    var p := paths[|paths| - 1];
    if j < |LoadAll(front, load)| {
      LoadAllFrom(front, load, j);
      var i :| 0 <= i < |front| && front[i].JStr? && load(front[i].s) == Ok(LoadAll(front, load)[j]);
      assert paths[i] == front[i];
    } else {
      assert paths[|paths| - 1] == p;
    }
  }

  /** `load_projects`: read and iterate the index, attempt every entry. */
  function Registered<R>(index: IndexFile, load: string -> Result<R, PyError>): (r: Result<seq<R>, PyError>)
    ensures r.Ok? <==> index.Parsed? && Iterate(index.value).Ok?
    ensures index.Parsed? && index.value.JArr? ==> r == Ok(LoadAll(index.value.items, load))
    ensures r.Ok? ==> |r.value| <= |Iterate(index.value).value|
  {
    var v :- Read(index);
    var entries :- Iterate(v);
    LoadAllLength(entries, load);
    Ok(LoadAll(entries, load))
  }

  /** The position of the first record named `name`. */
  function FirstNamed<R>(records: seq<R>, name: string, nameOf: R -> string): (r: Option<nat>)
    ensures r.Some? ==> r.value < |records| && nameOf(records[r.value]) == name
    ensures r.Some? ==> forall j :: 0 <= j < r.value ==> nameOf(records[j]) != name
    ensures r.None? <==> forall j :: 0 <= j < |records| ==> nameOf(records[j]) != name
  {
    if records == [] then None
    else if nameOf(records[0]) == name then Some(0)
    else match FirstNamed(records[1..], name, nameOf)
      case None => None
      case Some(i) => Some(i + 1)
  }

  /**
   * `search_project(name)`: a falsy name is a ValueError; otherwise the first
   * loaded record whose name equals `name` exactly, or None for Python's False.
   */
  function Search<R>(name: string, index: IndexFile, load: string -> Result<R, PyError>, nameOf: R -> string): (r: Result<Option<R>, PyError>)
    ensures name == "" ==> r == Err(ValueError(NoSearchName))
    ensures name != "" ==> (r.Ok? <==> Registered(index, load).Ok?)
    ensures r.Ok? && r.value.Some? ==> nameOf(r.value.value) == name
    ensures r.Ok? && r.value.Some? ==>
              var records := Registered(index, load).value;
              exists i :: 0 <= i < |records| && records[i] == r.value.value &&
                          forall j :: 0 <= j < i ==> nameOf(records[j]) != name
    ensures r.Ok? && r.value.Some? ==>
              var entries := Iterate(index.value).value;
              exists i :: 0 <= i < |entries| && entries[i].JStr? && load(entries[i].s) == Ok(r.value.value)
    ensures r.Ok? && r.value.None? ==> forall j :: 0 <= j < |Registered(index, load).value| ==> nameOf(Registered(index, load).value[j]) != name
  {
    if name == "" then Err(ValueError(NoSearchName))
    else
      var records :- Registered(index, load);
      match FirstNamed(records, name, nameOf)
      case None => Ok(None)
      case Some(i) =>
        var entries := Iterate(index.value).value;
        LoadAllFrom(entries, load, i);
        Ok(Some(records[i]))
  }

  /** `load_projects`, the loop: append each record that loads, skip each failure. */
  method LoadProjects<R>(index: IndexFile, load: string -> Result<R, PyError>) returns (r: Result<seq<R>, PyError>)
    ensures r == Registered(index, load)
  {
    var v := Read(index);
    if v.Err? {
      return Err(v.error);
    }
    var paths := Iterate(v.value);
    if paths.Err? {
      return Err(paths.error);
    }
    var entries := paths.value;
    var projects: seq<R> := [];
    var i := 0;
    while i < |entries|
      invariant 0 <= i <= |entries|
      invariant projects == LoadAll(entries[..i], load)
    {
      assert entries[..i + 1][..i] == entries[..i];
      var p := entries[i];
      if p.JStr? {
        var project := load(p.s);
        if project.Ok? {
          projects := projects + [project.value];
        }
      }
      i := i + 1;
    }
    assert entries[..|entries|] == entries;
    return Ok(projects);
  }

  /** `search_project`, the loop: return the first record with the name, or None. */
  method SearchProject<R>(name: string, index: IndexFile, load: string -> Result<R, PyError>, nameOf: R -> string)
    returns (r: Result<Option<R>, PyError>)
    ensures r == Search(name, index, load, nameOf)
  {
    if name == "" {
      return Err(ValueError(NoSearchName));
    }
    var projects := LoadProjects(index, load);
    if projects.Err? {
      return Err(projects.error);
    }
    var records := projects.value;
    var i := 0;
    while i < |records|
      invariant 0 <= i <= |records|
      invariant forall j :: 0 <= j < i ==> nameOf(records[j]) != name
    {
      if name == nameOf(records[i]) {
        FirstIndexes(records, name, nameOf, i);
        return Ok(Some(records[i]));
      }
      i := i + 1;
    }
    return Ok(None);
  }

  /** A name found at `i` with no earlier match is at the first index. */
  lemma FirstIndexes<R>(records: seq<R>, name: string, nameOf: R -> string, i: nat)
    requires i < |records| && nameOf(records[i]) == name
    requires forall j :: 0 <= j < i ==> nameOf(records[j]) != name
    ensures FirstNamed(records, name, nameOf) == Some(i)
  {
    var f := FirstNamed(records, name, nameOf);
    assert f.Some?;
  }

  /** What `list_projects` prints: entry `i` is record `i`'s list view with number `i`. */
  method ListProjects<R>(index: IndexFile, load: string -> Result<R, PyError>, view: (R, int) -> string)
    returns (r: Result<seq<string>, PyError>)
    ensures Registered(index, load).Err? ==> r == Err(Registered(index, load).error)
    ensures Registered(index, load).Ok? ==> r.Ok? && |r.value| == |Registered(index, load).value|
    ensures Registered(index, load).Ok? ==>
              forall i :: 0 <= i < |r.value| ==> r.value[i] == view(Registered(index, load).value[i], i)
  {
    var projects := LoadProjects(index, load);
    if projects.Err? {
      return Err(projects.error);
    }
    var records := projects.value;
    var lines: seq<string> := [];
    var i := 0;
    while i < |records|
      invariant 0 <= i <= |records| && |lines| == i
      invariant forall j :: 0 <= j < i ==> lines[j] == view(records[j], j)
    {
      lines := lines + [view(records[i], i)];
      i := i + 1;
    }
    return Ok(lines);
  }
}
