/**
 * The steps every version of `RProjFile.load` shares, and the binding of
 * the flattened keywords to `__init__`'s parameters, which Python's calling
 * convention performs.
 */
module Codec {
  import opened Wrappers
  import opened Errors
  import opened Toml

  /**
   * `load` up to `RProjFile(**kwargs)`: read the file, reject "", parse,
   * flatten, reject an empty namespace.
   */
  function Keywords(content: MetaContent): (r: Result<map<string, Value>, PyError>)
    ensures content == Blank ==> r == Err(ValueError(FileIsEmpty))
    ensures content == Malformed ==> r == Err(TomlDecodeError)
    ensures r.Ok? ==> content.Parsed? && r.value == Flatten(content.doc) && r.value != map[]
    ensures content.Parsed? && Flatten(content.doc) != map[] ==> r == Ok(Flatten(content.doc))
    ensures content.Parsed? ==>
              (r == Err(ValueError(NoValidData)) <==>
               forall i :: 0 <= i < |content.doc| ==> content.doc[i].1 == Table(map[]))
  {
    match content
    case Blank => Err(ValueError(FileIsEmpty))
    case Malformed => Err(TomlDecodeError)
    case Parsed(doc) =>
      FlattenEmpty(doc);
      var kwargs := Flatten(doc);
      if kwargs == map[] then Err(ValueError(NoValidData)) else Ok(kwargs)
  }

  /** A keyword's value is `v` when given, and the parameter's default otherwise. */
  predicate Bound(kwargs: map<string, Value>, key: string, v: Value, default: Value) {
    (key in kwargs ==> kwargs[key] == v) && (key !in kwargs ==> v == default)
  }

  /** A `str` parameter with a default. */
  function StrArg(kwargs: map<string, Value>, key: string, default: string): (r: Result<string, PyError>)
    ensures r.Ok? ==> Bound(kwargs, key, Str(r.value), Str(default))
    ensures r.Err? <==> key in kwargs && !kwargs[key].Str?
    ensures r.Err? ==> r.error == IllTyped(key)
  {
    if key !in kwargs then Ok(default)
    else if kwargs[key].Str? then Ok(kwargs[key].s)
    else Err(IllTyped(key))
  }

  /** A required `str` parameter: missing is Python's TypeError. */
  function ReqStr(kwargs: map<string, Value>, key: string): (r: Result<string, PyError>)
    ensures key !in kwargs ==> r == Err(TypeError)
    ensures r.Ok? <==> key in kwargs && kwargs[key].Str?
    ensures r.Ok? ==> kwargs[key] == Str(r.value)
    ensures key in kwargs && r.Err? ==> r.error == IllTyped(key)
  {
    if key !in kwargs then Err(TypeError)
    else if kwargs[key].Str? then Ok(kwargs[key].s)
    else Err(IllTyped(key))
  }

  /** TOML strings for a list of texts. */
  function Texts(notes: seq<string>): (r: seq<Value>)
    ensures |r| == |notes|
    ensures forall i :: 0 <= i < |r| ==> r[i] == Str(notes[i])
  {
    if notes == [] then [] else [Str(notes[0])] + Texts(notes[1..])
  }

  /** The texts of an array, when every element is a string. */
  function Strings(items: seq<Value>): (r: Option<seq<string>>)
    ensures r.Some? <==> forall i :: 0 <= i < |items| ==> items[i].Str?
  {
    if items == [] then Some([])
    else match Strings(items[1..])
      case None => None
      case Some(rest) => if items[0].Str? then Some([items[0].s] + rest) else None
  }

  /** Reading back the strings of written texts gives the texts. */
  lemma {:induction false} StringsOfTexts(notes: seq<string>)
    ensures Strings(Texts(notes)) == Some(notes)
  {
    if notes != [] {
      StringsOfTexts(notes[1..]);
      assert Texts(notes)[1..] == Texts(notes[1..]);
      assert notes == [notes[0]] + notes[1..];
    }
  }

  /** Writing the strings of an all-string array gives the array back. */
  lemma {:induction false} TextsOfStrings(items: seq<Value>)
    requires Strings(items).Some?
    ensures Texts(Strings(items).value) == items
  {
    if items != [] {
      TextsOfStrings(items[1..]);
    }
  }

  /** A `list[str]` parameter with default `[]`. */
  function TextsArg(kwargs: map<string, Value>, key: string): (r: Result<seq<string>, PyError>)
    ensures r.Ok? ==> Bound(kwargs, key, Arr(Texts(r.value)), Arr([]))
    ensures r.Err? <==> key in kwargs && !(kwargs[key].Arr? && Strings(kwargs[key].items).Some?)
    ensures r.Err? ==> r.error == IllTyped(key)
  {
    if key !in kwargs then Ok([])
    else if kwargs[key].Arr? && Strings(kwargs[key].items).Some? then
      TextsOfStrings(kwargs[key].items);
      Ok(Strings(kwargs[key].items).value)
    else Err(IllTyped(key))
  }

  /** The keywords no parameter names: Python's `**kwargs`. */
  function Rest(kwargs: map<string, Value>, named: set<string>): (r: map<string, Value>)
    ensures r.Keys == kwargs.Keys - named
    ensures forall k :: k in r ==> r[k] == kwargs[k]
  {
    map k | k in kwargs && k !in named :: kwargs[k]
  }
}
