/**
 * The older command handlers of build/lib/rproj/handlers.py, over the record
 * of build/lib/rproj/file.py; outcomes as in the module `Handlers`.
 */
module HandlersV1 {
  import opened Wrappers
  import opened Errors
  import opened Toml
  import opened Json
  import opened Disk
  import opened Projects
  import opened Checks
  import opened Text
  import FileV1
  import Info
  import Format

  /** `search_project(name)` over the registry as it stands. */
  function Found(files: map<string, MetaContent>, index: IndexFile, name: string): Result<Option<FileV1.Record>, PyError> {
    Info.Search(name, index, FileV1.Loader(files), FileV1.NameOf)
  }

  /** A record `search_project` returns is one `load` built. */
  lemma FoundConstructed(files: map<string, MetaContent>, index: IndexFile, name: string)
    requires Found(files, index, name).Ok? && Found(files, index, name).value.Some?
    ensures FileV1.Constructed(Found(files, index, name).value.value)
  {
    var rec := Found(files, index, name).value.value;
    var entries := Iterate(index.value).value;
    var i :| 0 <= i < |entries| && entries[i].JStr? && FileV1.Loader(files)(entries[i].s) == Ok(rec);
    assert FileV1.Loaded(files, entries[i].s) == Ok(rec);
  }

  /** `search_project(name)`, run. */
  method SearchProject(disk: Disk, index: ProjectIndex, name: string) returns (r: Result<Option<FileV1.Record>, PyError>)
    ensures r == Found(disk.files, index.file, name)
  {
    r := Info.SearchProject(name, index.file, FileV1.Loader(disk.files), FileV1.NameOf);
  }

  /** The outcome of an index operation as the handler's outcome. */
  function Plain(r: Result<Outcome, PyError>): Result<(), PyError> {
    if r.Ok? then Ok(()) else Err(r.error)
  }

  /** `" ".join(args.description) if args.description else ""`. */
  function Described(words: seq<string>): string {
    if words != [] then Join(" ", words) else ""
  }

  /** The record `handle_create` builds: `RProjFile(args.name, args.directory, description)`. */
  function Created(name: string, directory: string, description: seq<string>): FileV1.Record {
    FileV1.Init(FileV1.Args(name, directory, Described(description), "", map[]))
  }

  /**
   * `handle_create`: refused (no file written, index untouched) when the name
   * is registered; otherwise writes the new record and adds its path.
   */
  method HandleCreate(disk: Disk, index: ProjectIndex, name: string, directory: string, description: seq<string>)
    returns (r: Result<Outcome, PyError>)
    requires disk.Valid()
    modifies disk, index
    ensures Found(old(disk.files), old(index.file), name).Err? ==>
              r == Err(Found(old(disk.files), old(index.file), name).error) &&
              disk.files == old(disk.files) && index.file == old(index.file)
    ensures Found(old(disk.files), old(index.file), name).Ok? && Found(old(disk.files), old(index.file), name).value.Some? ==>
              r == Ok(Aborted(ProjectNameTaken)) && disk.files == old(disk.files) && index.file == old(index.file)
    ensures Found(old(disk.files), old(index.file), name) == Ok(None) ==>
              var rec := Created(name, directory, description);
              && disk.files == Written(old(disk.files), disk.dirs, rec.path, Dumps(FileV1.Layout(rec)))
              && (WriteResult(old(disk.files), disk.dirs, rec.path).Err? ==> r == Err(WriteResult(old(disk.files), disk.dirs, rec.path).error) && index.file == old(index.file))
              && (WriteResult(old(disk.files), disk.dirs, rec.path).Ok? ==> AddSpec(old(index.file), index.file, rec.path, Plain(r)))
    ensures r == Ok(Completed) ==>
              index.file.Parsed? && index.file.value.JArr? && JStr(MetaPath(directory)) in index.file.value.items
  {
    var found := SearchProject(disk, index, name);
    var verdict := AbsentGuard(found);
    if verdict.Err? {
      return Err(verdict.error);
    }
    if verdict.value.Refuse? {
      return Ok(Aborted(verdict.value.message));
    }
    var project := new FileV1.RProjFile(FileV1.Args(name, directory, Described(description), "", map[]));
    ghost var before := index.file;
    var created := project.Create(disk, index);
    if created.Err? {
      return Err(created.error);
    }
    AddedPresent(before, index.file, project.path);
    return Ok(Completed);
  }

  /**
   * `handle_add`: load the metadata file in an existing directory and
   * register the loaded record's path, unless the file is missing or the
   * name is taken. Only FileNotFoundError is caught; every other load error
   * propagates, NotADirectoryError for a directory argument that is a
   * regular file among them.
   */
  method HandleAdd(disk: Disk, index: ProjectIndex, directory: string) returns (r: Result<Outcome, PyError>)
    requires disk.Valid()
    modifies index
    ensures !disk.Exists(directory) ==> r == Ok(Aborted(DirectoryMissing)) && index.file == old(index.file)
    ensures disk.Exists(directory) && disk.IsDir(MetaPath(directory)) ==>
              r == Err(IsADirectoryError) && index.file == old(index.file)
    ensures disk.Exists(directory) && directory in disk.files ==>
              r == Err(NotADirectoryError) && index.file == old(index.file)
    ensures disk.Exists(directory) && !disk.IsDir(MetaPath(directory)) && FileV1.Loaded(disk.files, MetaPath(directory)).Err? &&
            FileV1.Loaded(disk.files, MetaPath(directory)).error == FileNotFoundError ==>
              r == Ok(Aborted(ProjectFileNotFound)) && index.file == old(index.file)
    ensures disk.Exists(directory) && !disk.IsDir(MetaPath(directory)) && FileV1.Loaded(disk.files, MetaPath(directory)).Err? &&
            FileV1.Loaded(disk.files, MetaPath(directory)).error != FileNotFoundError ==>
              r == Err(FileV1.Loaded(disk.files, MetaPath(directory)).error) && index.file == old(index.file)
    ensures disk.Exists(directory) && !disk.IsDir(MetaPath(directory)) && FileV1.Loaded(disk.files, MetaPath(directory)).Ok? ==>
              var rec := FileV1.Loaded(disk.files, MetaPath(directory)).value;
              && (Found(disk.files, old(index.file), rec.projectName).Err? ==>
                    r == Err(Found(disk.files, old(index.file), rec.projectName).error) && index.file == old(index.file))
              && (Found(disk.files, old(index.file), rec.projectName).Ok? &&
                  Found(disk.files, old(index.file), rec.projectName).value.Some? ==>
                    r == Ok(Aborted(ProjectNameTaken)) && index.file == old(index.file))
              && (Found(disk.files, old(index.file), rec.projectName) == Ok(None) ==>
                    AddSpec(old(index.file), index.file, rec.path, Plain(r)) && (r.Ok? ==> r.value == Completed))
  {
    if DirectoryGuard(disk.Exists(directory)).Refuse? {
      return Ok(Aborted(DirectoryMissing));
    }
    var path := MetaPath(directory);
    if directory in disk.files {
      OpenedUnderFile(disk.files, directory);
    }
    var loaded := FileV1.RProjFile.Load(disk, path);
    if loaded.Err? {
      if loaded.error == FileNotFoundError {
        return Ok(Aborted(ProjectFileNotFound));
      }
      return Err(loaded.error);
    }
    var project := loaded.value;
    var found := SearchProject(disk, index, project.projectName);
    if found.Err? {
      return Err(found.error);
    }
    if found.value.Some? {
      return Ok(Aborted(ProjectNameTaken));
    }
    var added := index.Add(project.path);
    if added.Err? {
      return Err(added.error);
    }
    return Ok(Completed);
  }

  /**
   * `handle_delete`: delete the found project's metadata file, then its
   * index entry. Afterwards the file is gone, and so is the path, unless the
   * index listed it more than once.
   */
  method HandleDelete(disk: Disk, index: ProjectIndex, name: string) returns (r: Result<Outcome, PyError>)
    requires disk.Valid()
    modifies disk, index
    ensures Found(old(disk.files), old(index.file), name).Err? ==>
              r == Err(Found(old(disk.files), old(index.file), name).error) &&
              disk.files == old(disk.files) && index.file == old(index.file)
    ensures Found(old(disk.files), old(index.file), name) == Ok(None) ==>
              r == Ok(Aborted(ProjectNotFound)) && disk.files == old(disk.files) && index.file == old(index.file)
    ensures Found(old(disk.files), old(index.file), name).Ok? && Found(old(disk.files), old(index.file), name).value.Some? ==>
              var path := Found(old(disk.files), old(index.file), name).value.value.path;
              && (path !in old(disk.files) ==> r.Err? && disk.files == old(disk.files) && index.file == old(index.file))
              && (path !in old(disk.files) && path !in disk.dirs ==> r == Err(FileNotFoundError))
              && (path in old(disk.files) ==> disk.files == old(disk.files) - {path} && RemoveSpec(old(index.file), index.file, path, Plain(r)))
              && (r == Ok(Completed) ==> path !in disk.files && index.file.Parsed? && index.file.value.JArr?)
              && (r == Ok(Completed) && NoDuplicates(old(index.file).value.items) ==> JStr(path) !in index.file.value.items)
  {
    var found := SearchProject(disk, index, name);
    var verdict := ExistsGuard(found);
    if verdict.Err? {
      return Err(verdict.error);
    }
    if verdict.value.Refuse? {
      return Ok(Aborted(verdict.value.message));
    }
    found := SearchProject(disk, index, name);
    var rec := found.value.value;
    FoundConstructed(disk.files, index.file, name);
    var project := new FileV1.RProjFile(FileV1.Rebuild(rec));
    var before := index.file;
    var deleted := project.Delete(disk, index);
    if deleted.Err? {
      return Err(deleted.error);
    }
    if NoDuplicates(before.value.items) {
      RemoveFirstElements(before.value.items, JStr(rec.path));
      assert JStr(rec.path) !in Elements(index.file.value.items);
    }
    return Ok(Completed);
  }

  /** `handle_search`: what it prints is the `__str__` of the first project with the name. */
  method HandleSearch(disk: Disk, index: ProjectIndex, name: string) returns (r: Result<Option<string>, PyError>)
    requires disk.Valid()
    ensures Found(disk.files, index.file, name).Err? ==> r == Err(Found(disk.files, index.file, name).error)
    ensures Found(disk.files, index.file, name) == Ok(None) ==> r == Ok(None)
    ensures Found(disk.files, index.file, name).Ok? && Found(disk.files, index.file, name).value.Some? ==>
              var rec := Found(disk.files, index.file, name).value.value;
              r == Ok(Some(Format.Summary(rec.projectName, rec.directory, rec.description, rec.github)))
  {
    var found := SearchProject(disk, index, name);
    var verdict := ExistsGuard(found);
    if verdict.Err? {
      return Err(verdict.error);
    }
    if verdict.value.Refuse? {
      return Ok(None);
    }
    found := SearchProject(disk, index, name);
    var rec := found.value.value;
    return Ok(Some(Format.Summary(rec.projectName, rec.directory, rec.description, rec.github)));
  }
}
