/**
 * Already-parsed TOML documents, the content of a project's metadata file,
 * and the flattening step shared by every version of `RProjFile.load`.
 *
 * A document is an ordered dict of top-level keys (Python dicts keep
 * insertion order, and the flattening loop depends on it); a table's own
 * entries are a map, since within one table keys are distinct.
 */
module Toml {

  datatype Value =
    | Str(s: string)
    | Int(i: int)
    | Bool(b: bool)
    | Arr(items: seq<Value>)
    | Table(entries: map<string, Value>)

  /** The top level of a document, in file order. */
  type Doc = seq<(string, Value)>

  /**
   * The content of a metadata file as `load` sees it: the empty string, text
   * that `toml.loads` rejects, or text parsed to a document.
   */
  datatype MetaContent = Blank | Malformed | Parsed(doc: Doc)

  /**
   * `toml.dumps`. The round trip `toml.loads(toml.dumps(d)) == d` is built
   * into the representation; only the empty dict dumps to the empty string.
   */
  function Dumps(d: Doc): (c: MetaContent)
    ensures c == Blank <==> d == []
    ensures c.Parsed? ==> c.doc == d
  {
    if d == [] then Blank else Parsed(d)
  }

  /** Whether the top-level entry `e` puts key `k` into the flattened namespace. */
  predicate Contributes(e: (string, Value), k: string) {
    if e.1.Table? then k in e.1.entries else k == e.0
  }

  /** The value entry `e` gives key `k`. */
  function Contribution(e: (string, Value), k: string): Value
    requires Contributes(e, k)
  {
    if e.1.Table? then e.1.entries[k] else e.1
  }

  /** One step of the loop: a table's entries are merged in, any other value keeps its own key. */
  function Absorb(acc: map<string, Value>, e: (string, Value)): map<string, Value> {
    if e.1.Table? then acc + e.1.entries else acc[e.0 := e.1]
  }

  /** The keyword namespace `load` builds from a document, one level deep, in document order. */
  function Flatten(d: Doc): map<string, Value> {
    if d == [] then map[] else Absorb(Flatten(d[..|d| - 1]), d[|d| - 1])
  }

  /** A key is in the namespace exactly when some top-level entry contributes it. */
  lemma {:induction false} FlattenKeys(d: Doc, k: string)
    ensures k in Flatten(d) <==> exists i :: 0 <= i < |d| && Contributes(d[i], k)
  {
    if d != [] {
      var front := d[..|d| - 1];
      FlattenKeys(front, k);
      if exists i :: 0 <= i < |front| && Contributes(front[i], k) {
        var i :| 0 <= i < |front| && Contributes(front[i], k);
        assert d[i] == front[i];
      }
      if exists i :: 0 <= i < |d| && Contributes(d[i], k) {
        var i :| 0 <= i < |d| && Contributes(d[i], k);
        if i < |d| - 1 {
          assert front[i] == d[i];
        }
      }
    }
  }

  /**
   * The value of a key is the one given by the LAST entry that contributes
   * it: a later table overwrites an earlier table's colliding key.
   */
  lemma {:induction false} FlattenLastWins(d: Doc, i: nat, k: string)
    requires i < |d| && Contributes(d[i], k)
    requires forall j :: i < j < |d| ==> !Contributes(d[j], k)
    ensures k in Flatten(d) && Flatten(d)[k] == Contribution(d[i], k)
  {
    var front := d[..|d| - 1];
    if i < |d| - 1 {
      forall j | i < j < |front| ensures !Contributes(front[j], k) {
        assert front[j] == d[j];
      }
      FlattenLastWins(front, i, k);
    }
  }

  /** Flattening yields no key exactly when every top-level entry is an empty table. */
  lemma {:induction false} FlattenEmpty(d: Doc)
    ensures Flatten(d) == map[] <==> forall i :: 0 <= i < |d| ==> d[i].1 == Table(map[])
  {
    if d != [] {
      var front := d[..|d| - 1];
      var last := d[|d| - 1];
      FlattenEmpty(front);
      assert Flatten(d).Keys == Flatten(front).Keys + (if last.1.Table? then last.1.entries.Keys else {last.0});
      assert (forall i :: 0 <= i < |d| ==> d[i].1 == Table(map[])) <==>
             (forall i :: 0 <= i < |front| ==> front[i].1 == Table(map[])) && last.1 == Table(map[]);
    }
  }

  /**
   * The loop of `load`: for each top-level entry, copy a table's entries
   * (`for k, v in value.items(): kwargs[k] = v`), or store any other value
   * under its own key.
   */
  method FlattenItems(d: Doc) returns (kwargs: map<string, Value>)
    ensures kwargs == Flatten(d)
  {
    kwargs := map[];
    var i := 0;
    while i < |d|
      invariant 0 <= i <= |d|
      invariant kwargs == Flatten(d[..i])
    {
      var (key, value) := d[i];
      if value.Table? {
        var pending := value.entries.Keys;
        ghost var before := kwargs;
        while pending != {}
          invariant pending <= value.entries.Keys
          invariant kwargs == before + map k | k in value.entries.Keys - pending :: value.entries[k]
          decreases pending
        {
          var k :| k in pending;
          kwargs := kwargs[k := value.entries[k]];
          pending := pending - {k};
        }
        assert kwargs == before + value.entries;
      } else {
        kwargs := kwargs[key := value];
      }
      assert d[..i + 1][..i] == d[..i];
      i := i + 1;
    }
    assert d[..|d|] == d;
  }
}
