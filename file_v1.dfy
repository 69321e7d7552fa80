/**
 * The oldest project metadata record, `RProjFile` of build/lib/rproj/file.py,
 * the version the handlers of build/lib/rproj/handlers.py use. It has no
 * `run_cmd`, and `create` and `update_field` each spell out the same three
 * tables, `info` {project_name, description}, `file` {directory, path} and
 * `other` {github} merged with the extra keywords: `Layout` below.
 */
module FileV1 {
  import opened Wrappers
  import opened Errors
  import opened Toml
  import opened Codec
  import opened Disk
  import opened Projects

  /** The names `__init__` binds itself (`self` included); any other keyword lands in `**kwargs`. */
  const Parameters: set<string> := {"self", "project_name", "directory", "description", "github"}

  /** The arguments `__init__` receives. */
  datatype Args = Args(
    projectName: string, directory: string, description: string, github: string,
    kwargs: map<string, Value>)

  /** Python's calling convention never puts a parameter's own name into `**kwargs`. */
  predicate Callable(a: Args) {
    a.kwargs.Keys !! Parameters
  }

  /**
   * `RProjFile(**kwargs)` binding the keywords to the parameters: a repeated
   * `self` or a missing required argument is a TypeError, every omitted
   * optional one takes its default, and the rest go to `**kwargs`.
   */
  function Arguments(kw: map<string, Value>): (r: Result<Args, PyError>)
    ensures "self" in kw || "project_name" !in kw || "directory" !in kw ==> r == Err(TypeError)
    ensures r.Ok? ==> Callable(r.value) && r.value.kwargs == Rest(kw, Parameters)
    ensures r.Ok? ==> kw["project_name"] == Str(r.value.projectName) && kw["directory"] == Str(r.value.directory)
    ensures r.Ok? ==>
              && Bound(kw, "description", Str(r.value.description), Str(""))
              && Bound(kw, "github", Str(r.value.github), Str(""))
    ensures r.Err? ==> r.error == TypeError || (r.error.IllTyped? && r.error.key in kw)
  {
    if "self" in kw || "project_name" !in kw || "directory" !in kw then Err(TypeError)
    else
      var projectName :- ReqStr(kw, "project_name");
      var directory :- ReqStr(kw, "directory");
      var description :- StrArg(kw, "description", "");
      var github :- StrArg(kw, "github", "");
      Ok(Args(projectName, directory, description, github, Rest(kw, Parameters)))
  }

  /** The attributes of a record. */
  datatype Record = Record(
    projectName: string, directory: string, path: string, description: string, github: string,
    kwargs: map<string, Value>)

  /** What `__init__` establishes: the path is derived from the directory and `kwargs` holds neither a parameter nor "path". */
  predicate Constructed(r: Record) {
    r.path == MetaPath(r.directory) && r.kwargs.Keys !! Parameters && "path" !in r.kwargs
  }

  /** The record `__init__` builds. */
  function Init(a: Args): (r: Record)
    requires Callable(a)
    ensures Constructed(r)
    ensures r.projectName == a.projectName && r.directory == a.directory && r.description == a.description
    ensures r.github == a.github
    ensures r.kwargs.Keys == a.kwargs.Keys - {"path"}
    ensures forall k :: k in r.kwargs ==> r.kwargs[k] == a.kwargs[k]
  {
    Record(a.projectName, a.directory, MetaPath(a.directory), a.description, a.github,
           a.kwargs - {"path"})
  }

  /** `RProjFile.load(path)`. */
  function Loaded(files: map<string, MetaContent>, path: string): (r: Result<Record, PyError>)
    ensures Opened(files, path).Err? ==> r == Err(Opened(files, path).error)
    ensures Opened(files, path).Ok? && Keywords(Opened(files, path).value).Err? ==>
              r == Err(Keywords(Opened(files, path).value).error)
    ensures Opened(files, path).Ok? && Keywords(Opened(files, path).value).Ok? ==>
              var kw := Keywords(Opened(files, path).value).value;
              && (Arguments(kw).Err? ==> r == Err(Arguments(kw).error))
              && (Arguments(kw).Ok? ==> r == Ok(Init(Arguments(kw).value)))
    ensures r.Ok? ==> path in files && Constructed(r.value)
  {
    var content :- Opened(files, path);
    var kw :- Keywords(content);
    var a :- Arguments(kw);
    Ok(Init(a))
  }

  /** `RProjFile.load` over the given files, as the value `load_projects` is handed. */
  function Loader(files: map<string, MetaContent>): string -> Result<Record, PyError> {
    p => Loaded(files, p)
  }

  /** `project.project_name`, the key `search_project` compares. */
  function NameOf(r: Record): string {
    r.projectName
  }

  /** The arguments that rebuild a record `__init__` built: the object `load` returned. */
  function Rebuild(r: Record): (a: Args)
    requires Constructed(r)
    ensures Callable(a) && Init(a) == r
  {
    assert r.kwargs - {"path"} == r.kwargs;
    Args(r.projectName, r.directory, r.description, r.github, r.kwargs)
  }

  /** The `info` table. */
  function Info(r: Record): map<string, Value> {
    map["project_name" := Str(r.projectName), "description" := Str(r.description)]
  }

  /** The `file` table. */
  function FileTable(r: Record): map<string, Value> {
    map["directory" := Str(r.directory), "path" := Str(r.path)]
  }

  /** The `other` table, before the extra keywords are merged in. */
  function Other(r: Record): map<string, Value> {
    map["github" := Str(r.github)]
  }

  /** The dict `create` and `update_field` both dump: exactly the tables `info`, `file` and `other`, with `kwargs` merged into `other`. */
  function Layout(r: Record): (d: Doc)
    ensures |d| == 3 && d[0] == ("info", Table(Info(r))) && d[1] == ("file", Table(FileTable(r)))
    ensures d[2].0 == "other" && d[2].1.Table?
    ensures d[2].1.entries.Keys == {"github"} + r.kwargs.Keys
    ensures forall k :: k in r.kwargs ==> d[2].1.entries[k] == r.kwargs[k]
  {
    [("info", Table(Info(r))), ("file", Table(FileTable(r))), ("other", Table(Other(r) + r.kwargs))]
  }

  /** Flattening the layout gives every field under its parameter name, the stored path, and every extra keyword. */
  lemma FlattenLayout(r: Record)
    ensures Flatten(Layout(r)) == Info(r) + FileTable(r) + Other(r) + r.kwargs
  {
    var d := Layout(r);
    assert d[..2][..1][..0] == [];
    assert d[..2][..1] == [d[0]];
    assert d[..3][..2] == d[..2];
    assert d[..3] == d;
    assert Flatten(d[..2][..1]) == Info(r);
    assert Flatten(d[..2]) == Info(r) + FileTable(r);
  }

  /** Binding the flattened layout gives back the record's fields as arguments, the stored path among the extra keywords. */
  lemma ArgumentsOfLayout(r: Record)
    requires r.kwargs.Keys !! Parameters && "path" !in r.kwargs
    ensures Arguments(Info(r) + FileTable(r) + Other(r) + r.kwargs) ==
            Ok(Args(r.projectName, r.directory, r.description, r.github, r.kwargs["path" := Str(r.path)]))
  {
    var kw := Info(r) + FileTable(r) + Other(r) + r.kwargs;
    assert kw["project_name"] == Str(r.projectName);
    assert kw["directory"] == Str(r.directory);
    assert kw["description"] == Str(r.description);
    assert kw["github"] == Str(r.github);
    assert Rest(kw, Parameters) == r.kwargs["path" := Str(r.path)];
  }

  /**
   * Round trip: loading what `create` or `update_field` wrote rebuilds the record; the stored
   * `path` key is dropped and `path` is derived from `directory` again. For a
   * record as `__init__` built it, that is the record itself.
   */
  lemma RoundTrip(files: map<string, MetaContent>, p: string, r: Record)
    requires r.kwargs.Keys !! Parameters && "path" !in r.kwargs
    requires Opened(files, p) == Ok(Dumps(Layout(r)))
    ensures Loaded(files, p) == Ok(r.(path := MetaPath(r.directory)))
    ensures Constructed(r) ==> Loaded(files, p) == Ok(r)
  {
    var kw := Info(r) + FileTable(r) + Other(r) + r.kwargs;
    FlattenLayout(r);
    assert "project_name" in kw;
    assert Keywords(Opened(files, p).value) == Ok(kw);
    ArgumentsOfLayout(r);
    assert r.kwargs["path" := Str(r.path)] - {"path"} == r.kwargs;
  }

  /** The attributes `hasattr` finds and `update_field` may set; methods are not modelled as attributes. */
  const Attributes: set<string> := {"project_name", "directory", "path", "description", "github", "kwargs"}

  /** The type each attribute is declared with. */
  predicate Fits(name: string, v: Value) {
    if name == "kwargs" then v.Table?
    else v.Str?
  }

  /** `getattr(self, name)`. */
  function Attribute(r: Record, name: string): (v: Value)
    requires name in Attributes
    ensures Fits(name, v)
  {
    match name
    case "project_name" => Str(r.projectName)
    case "directory" => Str(r.directory)
    case "path" => Str(r.path)
    case "description" => Str(r.description)
    case "github" => Str(r.github)
    case _ => Table(r.kwargs)
  }

  /** `setattr(self, name, v)`. */
  function Assign(r: Record, name: string, v: Value): Record
    requires name in Attributes && Fits(name, v)
  {
    match name
    case "project_name" => r.(projectName := v.s)
    case "directory" => r.(directory := v.s)
    case "path" => r.(path := v.s)
    case "description" => r.(description := v.s)
    case "github" => r.(github := v.s)
    case _ => r.(kwargs := v.entries)
  }

  /**
   * `setattr` then `getattr`: the attribute set reads back as the value given,
   * every other attribute (`path` when `directory` is set, in particular) as before.
   */
  lemma AssignThenAttribute(r: Record, name: string, v: Value, other: string)
    requires name in Attributes && Fits(name, v) && other in Attributes
    ensures Attribute(Assign(r, name, v), other) == if other == name then v else Attribute(r, other)
  {
  }

  class RProjFile {
    var projectName: string
    var directory: string
    var path: string
    var description: string
    var github: string
    var kwargs: map<string, Value>

    function View(): Record
      reads this
    {
      Record(projectName, directory, path, description, github, kwargs)
    }

    /** `__init__`: assign the fields, derive the path, then delete "path" from kwargs. */
    constructor(a: Args)
      requires Callable(a)
      ensures View() == Init(a)
    {
      projectName := a.projectName;
      directory := a.directory;
      path := MetaPath(a.directory);
      description := a.description;
      github := a.github;
      kwargs := a.kwargs;
      new;
      if "path" in kwargs {
        kwargs := kwargs - {"path"};
      }
    }

    /** `load`: read, parse, flatten the tables into keywords in a loop, build the record. */
    static method Load(disk: Disk, path: string) returns (r: Result<RProjFile, PyError>)
      ensures disk.IsDir(path) && !BelowFile(disk.files.Keys, path) ==> r == Err(IsADirectoryError)
      ensures (!disk.IsDir(path) || BelowFile(disk.files.Keys, path)) && r.Ok? ==>
                fresh(r.value) && Loaded(disk.files, path) == Ok(r.value.View())
      ensures (!disk.IsDir(path) || BelowFile(disk.files.Keys, path)) && r.Err? ==> Loaded(disk.files, path) == Err(r.error)
    {
      if BelowFile(disk.files.Keys, path) {
        return Err(NotADirectoryError);
      }
      if disk.IsDir(path) {
        return Err(IsADirectoryError);
      }
      var content := Lookup(disk.files, path);
      match content
      case None =>
        return Err(FileNotFoundError);
      case Some(Blank) =>
        return Err(ValueError(FileIsEmpty));
      case Some(Malformed) =>
        return Err(TomlDecodeError);
      case Some(Parsed(doc)) =>
        var kw := FlattenItems(doc);
        if kw == map[] {
          return Err(ValueError(NoValidData));
        }
        var a := Arguments(kw);
        if a.Err? {
          return Err(a.error);
        }
        var f := new RProjFile(a.value);
        return Ok(f);
    }

    /** `create`: write the layout to the path, then add the path to the index; True is `Ok(())`. */
    method Create(disk: Disk, index: ProjectIndex) returns (r: Result<(), PyError>)
      modifies disk, index
      ensures disk.files == Written(old(disk.files), disk.dirs, path, Dumps(Layout(View())))
      ensures WriteResult(old(disk.files), disk.dirs, path).Err? ==> r == WriteResult(old(disk.files), disk.dirs, path) && index.file == old(index.file)
      ensures WriteResult(old(disk.files), disk.dirs, path).Ok? ==> AddSpec(old(index.file), index.file, path, r)
    {
      r := disk.Write(path, Dumps(Layout(View())));
      if r.Err? {
        return;
      }
      r := index.Add(path);
    }

    /**
     * `update_field`: an unknown attribute raises AttributeError and writes
     * nothing; a known one is set and the file at the (current) path is
     * rewritten from the same layout as `create`.
     */
    method UpdateField(disk: Disk, field: string, value: Value) returns (r: Result<(), PyError>)
      requires field in Attributes ==> Fits(field, value)
      modifies this, disk
      ensures field !in Attributes ==>
                r == Err(AttributeError(field)) && View() == old(View()) && disk.files == old(disk.files)
      ensures field in Attributes ==> View() == Assign(old(View()), field, value)
      ensures field in Attributes ==>
                r == WriteResult(old(disk.files), disk.dirs, path) &&
                disk.files == Written(old(disk.files), disk.dirs, path, Dumps(Layout(View())))
    {
      if field !in Attributes {
        return Err(AttributeError(field));
      }
      match field {
        case "project_name" => projectName := value.s;
        case "directory" => directory := value.s;
        case "path" => path := value.s;
        case "description" => description := value.s;
        case "github" => github := value.s;
        case _ => kwargs := value.entries;
      }
      r := disk.Write(path, Dumps(Layout(View())));
    }

    /**
     * `delete`: a missing file raises FileNotFoundError before the index is
     * read; otherwise the file is removed and then the path is removed from the index.
     */
    method Delete(disk: Disk, index: ProjectIndex) returns (r: Result<(), PyError>)
      modifies disk, index
      ensures path !in old(disk.files) && path !in disk.dirs ==>
                r == Err(FileNotFoundError) && disk.files == old(disk.files) && index.file == old(index.file)
      ensures path !in old(disk.files) && path in disk.dirs ==>
                r == Err(IsADirectoryError) && disk.files == old(disk.files) && index.file == old(index.file)
      ensures path in old(disk.files) ==>
                disk.files == old(disk.files) - {path} && RemoveSpec(old(index.file), index.file, path, r)
    {
      if !disk.Exists(path) {
        return Err(FileNotFoundError);
      }
      r := disk.Remove(path);
      if r.Err? {
        return;
      }
      r := index.Remove(path);
    }
  }
}
