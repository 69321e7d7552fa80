/**
 * The global index (src/rproj/projects.py): a JSON file holding the list of
 * metadata-file paths of all registered projects. The index file is the
 * `ProjectIndex` object every operation is given, in place of the module
 * global `PROJECT_DATA_PATH`.
 */
module Projects {
  import opened Json
  import opened Wrappers
  import opened Errors

  /**
   * The condition of the index file. `Parsed(v, canonical)` is text that
   * `json.loads` turns into `v`; `canonical` says the text is exactly
   * `json.dumps(v)`, which is how this program always writes it. The text
   * is exactly "[]" precisely when the file is `EmptyIndex`.
   */
  datatype IndexFile = Missing | ZeroSize | Unparsable | Parsed(value: JsonValue, canonical: bool)

  /** The file `reset_project_data_file` writes: `json.dumps([])`. */
  const EmptyIndex: IndexFile := Parsed(JArr([]), true)

  /** The three results `validate_project_data_file` can return. */
  datatype Validation = ReturnedTrue | ReturnedFalse | ReturnedNone

  /** `json.loads(open(path).read())`. */
  function Read(f: IndexFile): (r: Result<JsonValue, PyError>)
    ensures r.Ok? <==> f.Parsed?
    ensures f.Missing? ==> r == Err(FileNotFoundError)
    ensures f.ZeroSize? || f.Unparsable? ==> r == Err(JSONDecodeError)
  {
    match f
    case Missing => Err(FileNotFoundError)
    case ZeroSize => Err(JSONDecodeError)
    case Unparsable => Err(JSONDecodeError)
    case Parsed(v, _) => Ok(v)
  }

  function Elements(s: seq<JsonValue>): set<JsonValue> {
    set x | x in s
  }

  /** No value occurs twice. */
  predicate NoDuplicates(s: seq<JsonValue>) {
    forall i, j :: 0 <= i < j < |s| ==> s[i] != s[j]
  }

  predicate AllHashable(s: seq<JsonValue>) {
    forall i :: 0 <= i < |s| ==> Hashable(s[i])
  }

  /** The elements up to Python's equality. */
  function Classes(s: seq<JsonValue>): set<JsonValue> {
    set x | x in s :: PyKey(x)
  }

  /** No two elements are equal in Python, so `1` and `true` do not both occur. */
  predicate Distinct(s: seq<JsonValue>) {
    forall i, j :: 0 <= i < j < |s| ==> PyKey(s[i]) != PyKey(s[j])
  }

  /** Each element with no Python-equal element before it: what `set(s)` holds. */
  predicate FirstOfClass(s: seq<JsonValue>, i: int)
    requires 0 <= i < |s|
  {
    forall j :: 0 <= j < i ==> PyKey(s[j]) != PyKey(s[i])
  }

  function Representatives(s: seq<JsonValue>): set<JsonValue> {
    set i | 0 <= i < |s| && FirstOfClass(s, i) :: s[i]
  }

  /** Appending an element adds it to `set(s)` exactly when nothing equal to it is there yet. */
  lemma RepresentativesSnoc(s: seq<JsonValue>, x: JsonValue)
    ensures Representatives(s + [x]) == Representatives(s) + (if PyKey(x) in Classes(s) then {} else {x})
    ensures Classes(s + [x]) == Classes(s) + {PyKey(x)}
  {
    var t := s + [x];
    forall i | 0 <= i < |s| ensures FirstOfClass(t, i) == FirstOfClass(s, i) {
      assert forall j :: 0 <= j <= i ==> t[j] == s[j];
    }
    if PyKey(x) in Classes(s) {
      var y :| y in s && PyKey(y) == PyKey(x);
      var k :| 0 <= k < |s| && s[k] == y;
      assert t[k] == s[k];
      assert !FirstOfClass(t, |s|);
    } else {
      forall j | 0 <= j < |s| ensures PyKey(t[j]) != PyKey(t[|s|]) {
        assert t[j] == s[j] && s[j] in s;
      }
      assert FirstOfClass(t, |s|);
    }
    assert Elements(t) == Elements(s) + {x};
  }

  /** Without Python-equal elements, `set(s)` holds every element. */
  lemma RepresentativesDistinct(s: seq<JsonValue>)
    requires Distinct(s)
    ensures Representatives(s) == Elements(s)
  {
    forall i | 0 <= i < |s| ensures FirstOfClass(s, i) { }
  }

  /** Python-distinct elements are distinct values. */
  lemma DistinctNoDuplicates(s: seq<JsonValue>)
    requires Distinct(s)
    ensures NoDuplicates(s)
  {
    forall i, j | 0 <= i < j < |s| ensures s[i] != s[j] {
      assert PyKey(s[i]) != PyKey(s[j]);
    }
  }

  /** Distinct elements: as many values as entries. */
  lemma {:induction false} DistinctCount(s: seq<JsonValue>)
    requires NoDuplicates(s)
    ensures |Elements(s)| == |s|
  {
    if s != [] {
      var front := s[..|s| - 1];
      var x := s[|s| - 1];
      assert s == front + [x];
      assert Elements(s) == Elements(front) + {x};
      assert x !in Elements(front);
      DistinctCount(front);
    }
  }

  /**
   * `list(set(s))`: one element of each Python-equal class, the one the set
   * keeps (the first inserted). Python leaves the order to the hash table;
   * this realisation keeps first occurrences in order, but the index
   * operations only promise what Python does.
   */
  function Dedup(s: seq<JsonValue>): (r: seq<JsonValue>)
    ensures Elements(r) == Representatives(s) && Classes(r) == Classes(s) && Distinct(r)
  {
    if s == [] then []
    else
      var front := s[..|s| - 1];
      var x := s[|s| - 1];
      var rest := Dedup(front);
      assert s == front + [x];
      RepresentativesSnoc(front, x);
      RepresentativesSnoc(rest, x);
      if PyKey(x) in Classes(rest) then rest
      else
        assert forall i :: 0 <= i < |rest| ==> PyKey(rest[i]) in Classes(rest);
        rest + [x]
  }

  /** The list `add_project_to_projects` appends to: `json.loads(...) or []`. */
  function AddBase(f: IndexFile): (r: Result<seq<JsonValue>, PyError>)
    ensures f.Parsed? && Falsy(f.value) ==> r == Ok([])
    ensures f.Parsed? && !Falsy(f.value) ==> r == (if f.value.JArr? then Ok(f.value.items) else Err(AttributeError("append")))
    ensures !f.Parsed? ==> r.Err? && r.error == Read(f).error
  {
    var v :- Read(f);
    if Falsy(v) then Ok([])
    else if v.JArr? then Ok(v.items)
    else Err(AttributeError("append"))
  }

  /**
   * What `add_project_to_projects` promises: on success the file holds
   * what `set` keeps of the old entries and the new path, no two of them
   * equal in Python; any exception leaves it untouched.
   */
  ghost predicate AddSpec(before: IndexFile, after: IndexFile, path: string, r: Result<(), PyError>) {
    match AddBase(before)
    case Err(e) => r == Err(e) && after == before
    case Ok(items) =>
      if !AllHashable(items) then r == Err(TypeError) && after == before
      else
        && r == Ok(())
        && after.Parsed? && after.canonical && after.value.JArr?
        && Distinct(after.value.items)
        && Elements(after.value.items) == Representatives(items + [JStr(path)])
  }

  /** The list `remove_project_from_projects` removes from. */
  function RemoveBase(f: IndexFile): (r: Result<seq<JsonValue>, PyError>)
    ensures r.Ok? <==> f.Parsed? && f.value.JArr?
    ensures r.Ok? ==> r.value == f.value.items
    ensures !f.Parsed? ==> r == Err(Read(f).error)
    ensures f.Parsed? && !f.value.JArr? ==> r == Err(AttributeError("remove"))
  {
    var v :- Read(f);
    if v.JArr? then Ok(v.items) else Err(AttributeError("remove"))
  }

  /** `list.remove(x)`: drop the first occurrence. */
  function RemoveFirst(s: seq<JsonValue>, x: JsonValue): (r: seq<JsonValue>)
    requires x in s
    ensures |r| == |s| - 1
  {
    if s[0] == x then s[1..] else [s[0]] + RemoveFirst(s[1..], x)
  }

  /** The position of the first occurrence of `x`. */
  function FirstIndex(s: seq<JsonValue>, x: JsonValue): (i: nat)
    requires x in s
    ensures i < |s| && s[i] == x && x !in s[..i]
  {
    if s[0] == x then 0
    else
      var i := FirstIndex(s[1..], x) + 1;
      assert s[..i] == [s[0]] + s[1..][..i - 1];
      i
  }

  /** What `remove_project_from_projects` does: drop the first occurrence, or raise and write nothing. */
  ghost predicate RemoveSpec(before: IndexFile, after: IndexFile, path: string, r: Result<(), PyError>) {
    match RemoveBase(before)
    case Err(e) => r == Err(e) && after == before
    case Ok(items) =>
      if JStr(path) in items then
        r == Ok(()) && after == Parsed(JArr(RemoveFirst(items, JStr(path))), true)
      else
        r == Err(ValueError(NotInList)) && after == before
  }

  /** Removing drops exactly the first occurrence and keeps the order of everything else. */
  lemma {:induction false} RemoveFirstSplits(s: seq<JsonValue>, x: JsonValue)
    requires x in s
    ensures RemoveFirst(s, x) == s[..FirstIndex(s, x)] + s[FirstIndex(s, x) + 1..]
  {
    if s[0] != x {
      RemoveFirstSplits(s[1..], x);
      var i := FirstIndex(s[1..], x);
      assert s[..i + 1] == [s[0]] + s[1..][..i];
      assert s[i + 2..] == s[1..][i + 1..];
    }
  }

  /** In a list without duplicates, removing `x` removes it entirely and nothing else. */
  lemma {:induction false} RemoveFirstElements(s: seq<JsonValue>, x: JsonValue)
    requires x in s && NoDuplicates(s)
    ensures Elements(RemoveFirst(s, x)) == Elements(s) - {x}
    ensures NoDuplicates(RemoveFirst(s, x))
  {
    var i := FirstIndex(s, x);
    RemoveFirstSplits(s, x);
    var r := RemoveFirst(s, x);
    assert forall k :: 0 <= k < |r| ==> r[k] == (if k < i then s[k] else s[k + 1]);
    forall y | y in Elements(s) - {x} ensures y in Elements(r) {
      var k :| 0 <= k < |s| && s[k] == y;
      assert k != i;
      assert r[if k < i then k else k - 1] == y;
    }
  }

  /** A string equals nothing but itself in Python, so `set` keeps every string of the list. */
  lemma {:induction false} StringKept(s: seq<JsonValue>, p: string)
    requires JStr(p) in s
    ensures JStr(p) in Representatives(s)
  {
    var front := s[..|s| - 1];
    var x := s[|s| - 1];
    assert s == front + [x];
    RepresentativesSnoc(front, x);
    if JStr(p) in front {
      StringKept(front, p);
    } else {
      assert x == JStr(p);
      assert PyKey(x) !in Classes(front);
    }
  }

  /** After a successful add the path is in the index. */
  lemma AddedPresent(before: IndexFile, after: IndexFile, path: string)
    requires AddSpec(before, after, path, Ok(()))
    ensures after.Parsed? && after.value.JArr? && JStr(path) in Elements(after.value.items)
  {
    var items := AddBase(before).value;
    assert (items + [JStr(path)])[|items|] == JStr(path);
    StringKept(items + [JStr(path)], path);
  }

  /** Adding a path that is already there changes neither the outcome nor the set. */
  lemma AddIdempotent(f0: IndexFile, f1: IndexFile, f2: IndexFile, path: string, r2: Result<(), PyError>)
    requires AddSpec(f0, f1, path, Ok(()))
    requires AddSpec(f1, f2, path, r2)
    ensures r2 == Ok(())
    ensures f2.Parsed? && f2.value.JArr? && Elements(f2.value.items) == Elements(f1.value.items)
  {
    var items1 := f1.value.items;
    AddedPresent(f0, f1, path);
    assert !Falsy(f1.value);
    assert AddBase(f1) == Ok(items1);
    var items0 := AddBase(f0).value;
    forall i | 0 <= i < |items1| ensures Hashable(items1[i]) {
      var t := items0 + [JStr(path)];
      assert items1[i] in Representatives(t);
      var k :| 0 <= k < |t| && FirstOfClass(t, k) && t[k] == items1[i];
      if k < |items0| {
        assert t[k] == items0[k];
      }
    }
    RepresentativesSnoc(items1, JStr(path));
    RepresentativesDistinct(items1);
  }

  /**
   * `add` of a path followed by `remove` of it leaves what `set` keeps of
   * the other paths, whether or not the path was there before.
   */
  lemma AddThenRemove(f0: IndexFile, f1: IndexFile, f2: IndexFile, path: string, r2: Result<(), PyError>)
    requires AddSpec(f0, f1, path, Ok(()))
    requires RemoveSpec(f1, f2, path, r2)
    ensures r2 == Ok(())
    ensures f2.Parsed? && f2.value.JArr?
    ensures Elements(f2.value.items) == Representatives(AddBase(f0).value) - {JStr(path)}
  {
    var items1 := f1.value.items;
    AddedPresent(f0, f1, path);
    DistinctNoDuplicates(items1);
    RemoveFirstElements(items1, JStr(path));
    RepresentativesSnoc(AddBase(f0).value, JStr(path));
  }

  /**
   * Python's `1 == True`: adding "p" to the index `[1, true]` writes two
   * entries, `1` and "p".
   */
  lemma AddMergesEqualNumbers(after: IndexFile, r: Result<(), PyError>)
    requires AddSpec(Parsed(JArr([JNum(1), JBool(true)]), true), after, "p", r)
    ensures r == Ok(())
    ensures after.Parsed? && Elements(after.value.items) == {JNum(1), JStr("p")}
    ensures |after.value.items| == 2
  {
    var s: seq<JsonValue> := [JNum(1), JBool(true), JStr("p")];
    assert [JNum(1), JBool(true)] + [JStr("p")] == s;
    assert FirstOfClass(s, 0);
    assert !FirstOfClass(s, 1) by {
      assert PyKey(s[0]) == PyKey(s[1]);
    }
    assert FirstOfClass(s, 2);
    assert Representatives(s) == {JNum(1), JStr("p")};
    DistinctNoDuplicates(after.value.items);
    DistinctCount(after.value.items);
  }

  class ProjectIndex {
    var file: IndexFile

    constructor(file: IndexFile)
      ensures this.file == file
    {
      this.file := file;
    }

    /** `reset_project_data_file`: overwrite with `[]`, return True. */
    method Reset() returns (r: bool)
      modifies this
      ensures file == EmptyIndex && r
    {
      file := EmptyIndex;
      r := true;
    }

    /**
     * `validate_project_data_file`: a missing, zero-size or unparsable file is
     * reset to "[]" (True); parsable content is left as it is, with None for
     * exactly "[]" and False for anything else, a non-list included.
     */
    method Validate() returns (v: Validation)
      modifies this
      ensures old(file).Missing? || old(file).ZeroSize? || old(file).Unparsable? ==>
                file == EmptyIndex && v == ReturnedTrue
      ensures old(file).Parsed? ==> file == old(file)
      ensures old(file).Parsed? ==> (v == ReturnedNone <==> old(file) == EmptyIndex)
      ensures old(file).Parsed? ==> (v == ReturnedFalse <==> old(file) != EmptyIndex)
      ensures file.Parsed?
    {
      match file
      case Missing =>
        var _ := Reset();
        return ReturnedTrue;
      case ZeroSize =>
        var _ := Reset();
        return ReturnedTrue;
      case Unparsable =>
        var _ := Reset();
        return ReturnedTrue;
      case Parsed(_, _) =>
        if file == EmptyIndex {
          return ReturnedNone;
        }
        return ReturnedFalse;
    }

    /** `add_project_to_projects`: append the path, deduplicate, rewrite. */
    method Add(path: string) returns (r: Result<(), PyError>)
      modifies this
      ensures AddSpec(old(file), file, path, r)
    {
      var base := AddBase(file);
      if base.Err? {
        return Err(base.error);
      }
      if !AllHashable(base.value) {
        return Err(TypeError);
      }
      var items := base.value + [JStr(path)];
      assert Elements(items) == Elements(base.value) + {JStr(path)};
      file := Parsed(JArr(Dedup(items)), true);
      r := Ok(());
    }

    /** `remove_project_from_projects`: drop the first occurrence of the path, rewrite. */
    method Remove(path: string) returns (r: Result<(), PyError>)
      modifies this
      ensures RemoveSpec(old(file), file, path, r)
    {
      var base := RemoveBase(file);
      if base.Err? {
        return Err(base.error);
      }
      if JStr(path) !in base.value {
        return Err(ValueError(NotInList));
      }
      file := Parsed(JArr(RemoveFirst(base.value, JStr(path))), true);
      r := Ok(());
    }
  }
}
