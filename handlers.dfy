/**
 * The command handlers of src/rproj/handlers.py, over the record of
 * src/rproj/file.py. Each handler is its guard followed by a sequence of
 * effects on the metadata files and the index; a handler returns None in
 * Python, modelled as `Completed` or, when a message was logged and the
 * handler returned early, `Aborted(message)`. Exceptions propagate as `Err`.
 */
module Handlers {
  import opened Wrappers
  import opened Errors
  import opened Toml
  import opened Json
  import opened Disk
  import opened Projects
  import opened Checks
  import opened Text
  import FileV2
  import Info
  import Format

  /** `search_project(name)` over the registry as it stands. */
  function Found(files: map<string, MetaContent>, index: IndexFile, name: string): Result<Option<FileV2.Record>, PyError> {
    Info.Search(name, index, FileV2.Loader(files), FileV2.NameOf)
  }

  /** A record `search_project` returns is one `load` built. */
  lemma FoundConstructed(files: map<string, MetaContent>, index: IndexFile, name: string)
    requires Found(files, index, name).Ok? && Found(files, index, name).value.Some?
    ensures FileV2.Constructed(Found(files, index, name).value.value)
  {
    var rec := Found(files, index, name).value.value;
    var entries := Iterate(index.value).value;
    var i :| 0 <= i < |entries| && entries[i].JStr? && FileV2.Loader(files)(entries[i].s) == Ok(rec);
    assert FileV2.Loaded(files, entries[i].s) == Ok(rec);
  }

  /** `search_project(name)`, run. */
  method SearchProject(disk: Disk, index: ProjectIndex, name: string) returns (r: Result<Option<FileV2.Record>, PyError>)
    ensures r == Found(disk.files, index.file, name)
  {
    r := Info.SearchProject(name, index.file, FileV2.Loader(disk.files), FileV2.NameOf);
  }

  /** The outcome of an index operation as the handler's outcome. */
  function Plain(r: Result<Outcome, PyError>): Result<(), PyError> {
    if r.Ok? then Ok(()) else Err(r.error)
  }

  /** `" ".join(args.description) if args.description else ""`. */
  function Described(words: seq<string>): string {
    if words != [] then Join(" ", words) else ""
  }

  /** The record `handle_create` builds: `RProjFile(args.name, args.directory, description)`. */
  function Created(name: string, directory: string, description: seq<string>): FileV2.Record {
    FileV2.Init(FileV2.Args(name, directory, Described(description), "", "", map[]))
  }

  /**
   * `handle_create`: refused (no file written, index untouched) when the name
   * is registered; otherwise writes the new record and adds its path.
   */
  method HandleCreate(disk: Disk, index: ProjectIndex, name: string, directory: string, description: seq<string>)
    returns (r: Result<Outcome, PyError>)
    requires disk.Valid()
    modifies disk, index
    ensures Found(old(disk.files), old(index.file), name).Err? ==>
              r == Err(Found(old(disk.files), old(index.file), name).error) &&
              disk.files == old(disk.files) && index.file == old(index.file)
    ensures Found(old(disk.files), old(index.file), name).Ok? && Found(old(disk.files), old(index.file), name).value.Some? ==>
              r == Ok(Aborted(ProjectNameTaken)) && disk.files == old(disk.files) && index.file == old(index.file)
    ensures Found(old(disk.files), old(index.file), name) == Ok(None) ==>
              var rec := Created(name, directory, description);
              && disk.files == Written(old(disk.files), disk.dirs, rec.path, Dumps(FileV2.AsDict(rec)))
              && (WriteResult(old(disk.files), disk.dirs, rec.path).Err? ==> r == Err(WriteResult(old(disk.files), disk.dirs, rec.path).error) && index.file == old(index.file))
              && (WriteResult(old(disk.files), disk.dirs, rec.path).Ok? ==> AddSpec(old(index.file), index.file, rec.path, Plain(r)))
    ensures r == Ok(Completed) ==>
              index.file.Parsed? && index.file.value.JArr? && JStr(MetaPath(directory)) in index.file.value.items
  {
    var found := SearchProject(disk, index, name);
    var verdict := AbsentGuard(found);
    if verdict.Err? {
      return Err(verdict.error);
    }
    if verdict.value.Refuse? {
      return Ok(Aborted(verdict.value.message));
    }
    var project := new FileV2.RProjFile(FileV2.Args(name, directory, Described(description), "", "", map[]));
    ghost var before := index.file;
    var created := project.Create(disk, index);
    if created.Err? {
      return Err(created.error);
    }
    AddedPresent(before, index.file, project.path);
    return Ok(Completed);
  }

  /** Whether `handle_update` was given anything to change. */
  predicate AnySupplied(projectName: string, description: seq<string>, github: string, run: string) {
    projectName != "" || description != [] || github != "" || run != ""
  }

  /** The record after `handle_update`: each supplied field replaced, everything else as it was. */
  function Revised(rec: FileV2.Record, projectName: string, description: seq<string>, github: string, run: string): FileV2.Record {
    rec.(projectName := if projectName != "" then projectName else rec.projectName,
         description := if description != [] then Join(" ", description) else rec.description,
         github := if github != "" then github else rec.github,
         runCmd := if run != "" then run else rec.runCmd)
  }

  /**
   * `handle_update`: the found project's supplied fields are updated one
   * `update_field` at a time, in the order project_name, description,
   * github, run_cmd, each rewriting the file at its path; the index is
   * never touched.
   */
  method HandleUpdate(disk: Disk, index: ProjectIndex, name: string,
                      projectName: string, description: seq<string>, github: string, run: string)
    returns (r: Result<Outcome, PyError>)
    requires disk.Valid()
    modifies disk
    ensures Found(old(disk.files), index.file, name).Err? ==>
              r == Err(Found(old(disk.files), index.file, name).error) && disk.files == old(disk.files)
    ensures Found(old(disk.files), index.file, name) == Ok(None) ==>
              r == Ok(Aborted(ProjectNotFound)) && disk.files == old(disk.files)
    ensures Found(old(disk.files), index.file, name).Ok? && Found(old(disk.files), index.file, name).value.Some? ==>
              var rec := Found(old(disk.files), index.file, name).value.value;
              && (!AnySupplied(projectName, description, github, run) ==> r == Ok(Completed) && disk.files == old(disk.files))
              && (AnySupplied(projectName, description, github, run) && WriteResult(old(disk.files), disk.dirs, rec.path).Err? ==>
                    r == Err(WriteResult(old(disk.files), disk.dirs, rec.path).error) && disk.files == old(disk.files))
              && (AnySupplied(projectName, description, github, run) && WriteResult(old(disk.files), disk.dirs, rec.path).Ok? ==>
                    r == Ok(Completed) &&
                    disk.files == old(disk.files)[rec.path := Dumps(FileV2.AsDict(Revised(rec, projectName, description, github, run)))])
  {
    var found := SearchProject(disk, index, name);
    var verdict := ExistsGuard(found);
    if verdict.Err? {
      return Err(verdict.error);
    }
    if verdict.value.Refuse? {
      return Ok(Aborted(verdict.value.message));
    }
    found := SearchProject(disk, index, name);
    FoundConstructed(disk.files, index.file, name);
    r := UpdateFields(disk, found.value.value, projectName, description, github, run);
  }

  /** The body of `handle_update` on the found record: the successive `update_field` calls. */
  method UpdateFields(disk: Disk, rec: FileV2.Record, projectName: string, description: seq<string>, github: string, run: string)
    returns (r: Result<Outcome, PyError>)
    requires FileV2.Constructed(rec)
    modifies disk
    ensures !AnySupplied(projectName, description, github, run) ==> r == Ok(Completed) && disk.files == old(disk.files)
    ensures AnySupplied(projectName, description, github, run) && WriteResult(old(disk.files), disk.dirs, rec.path).Err? ==>
              r == Err(WriteResult(old(disk.files), disk.dirs, rec.path).error) && disk.files == old(disk.files)
    ensures AnySupplied(projectName, description, github, run) && WriteResult(old(disk.files), disk.dirs, rec.path).Ok? ==>
              r == Ok(Completed) &&
              disk.files == old(disk.files)[rec.path := Dumps(FileV2.AsDict(Revised(rec, projectName, description, github, run)))]
  {
    var project := new FileV2.RProjFile(FileV2.Rebuild(rec));
    ghost var files0 := disk.files;
    var w := UpdateStep(disk, project, projectName != "", "project_name", Str(projectName), files0, false);
    if w.Err? {
      return Err(w.error);
    }
    ghost var touched := projectName != "";
    w := UpdateStep(disk, project, description != [], "description", Str(Join(" ", description)), files0, touched);
    if w.Err? {
      return Err(w.error);
    }
    touched := touched || description != [];
    w := UpdateStep(disk, project, github != "", "github", Str(github), files0, touched);
    if w.Err? {
      return Err(w.error);
    }
    touched := touched || github != "";
    w := UpdateStep(disk, project, run != "", "run_cmd", Str(run), files0, touched);
    if w.Err? {
      return Err(w.error);
    }
    RevisedInSteps(rec, projectName, description, github, run);
    return Ok(Completed);
  }

  /** `if supplied: update_field(field, value)` on the record alone. */
  function Step(rec: FileV2.Record, supplied: bool, field: string, value: Value): FileV2.Record
    requires field in FileV2.Attributes && FileV2.Fits(field, value)
  {
    if supplied then FileV2.Assign(rec, field, value) else rec
  }

  /** The four conditional `update_field` calls of `handle_update` together give the revised record. */
  lemma RevisedInSteps(rec: FileV2.Record, projectName: string, description: seq<string>, github: string, run: string)
    ensures Step(Step(Step(Step(rec, projectName != "", "project_name", Str(projectName)),
                           description != [], "description", Str(Join(" ", description))),
                      github != "", "github", Str(github)),
                 run != "", "run_cmd", Str(run))
            == Revised(rec, projectName, description, github, run)
  {
  }

  /** After some `update_field` steps: the file holds the latest record once any step wrote, and is as it was otherwise. */
  ghost predicate Synced(files0: map<string, MetaContent>, files: map<string, MetaContent>, dirs: set<string>,
                         path: string, latest: FileV2.Record, touched: bool) {
    if touched then WriteResult(files0, dirs, path).Ok? && files == files0[path := Dumps(FileV2.AsDict(latest))]
    else files == files0
  }

  /**
   * One `if args.x: project.update_field(field, value)` of `handle_update`.
   * A step that writes replaces whatever an earlier step wrote at the same
   * path, so the file keeps holding the latest record; only a first write
   * can fail.
   */
  method UpdateStep(disk: Disk, project: FileV2.RProjFile, supplied: bool, field: string, value: Value,
                    ghost files0: map<string, MetaContent>, ghost touched: bool)
    returns (r: Result<(), PyError>)
    requires field in {"project_name", "description", "github", "run_cmd"} && value.Str?
    requires Synced(files0, disk.files, disk.dirs, project.path, project.View(), touched)
    modifies disk, project
    ensures project.path == old(project.path)
    ensures !supplied ==> r == Ok(())
    ensures project.View() == Step(old(project.View()), supplied, field, value)
    ensures r.Ok? ==> Synced(files0, disk.files, disk.dirs, project.path, project.View(), touched || supplied)
    ensures r.Err? ==> supplied && !touched && r == WriteResult(files0, disk.dirs, project.path) && disk.files == files0
  {
    if !supplied {
      return Ok(());
    }
    ghost var before := disk.files;
    ghost var prev := project.View();
    r := project.UpdateField(disk, field, value);
    SyncedStep(files0, before, disk.files, disk.dirs, project.path, prev, project.View(), touched, r);
  }

  /** One write of the latest record, given the state before it and the write's outcome. */
  lemma SyncedStep(files0: map<string, MetaContent>, before: map<string, MetaContent>, after: map<string, MetaContent>,
                   dirs: set<string>, path: string, prev: FileV2.Record, latest: FileV2.Record, touched: bool,
                   r: Result<(), PyError>)
    requires Synced(files0, before, dirs, path, prev, touched)
    requires r == WriteResult(before, dirs, path)
    requires after == Written(before, dirs, path, Dumps(FileV2.AsDict(latest)))
    ensures r.Ok? ==> Synced(files0, after, dirs, path, latest, true)
    ensures r.Err? ==> !touched && after == files0 && r == WriteResult(files0, dirs, path)
  {
    if touched {
      WriteResultAgain(files0, dirs, path, Dumps(FileV2.AsDict(prev)));
      if r.Ok? {
        assert after == before[path := Dumps(FileV2.AsDict(latest))];
      }
    }
  }

  /**
   * `handle_add`: load the metadata file in an existing directory and
   * register the loaded record's path, unless the file is missing or the
   * name is taken. Only FileNotFoundError is caught; every other load error
   * propagates, NotADirectoryError for a directory argument that is a
   * regular file among them.
   */
  method HandleAdd(disk: Disk, index: ProjectIndex, directory: string) returns (r: Result<Outcome, PyError>)
    requires disk.Valid()
    modifies index
    ensures !disk.Exists(directory) ==> r == Ok(Aborted(DirectoryMissing)) && index.file == old(index.file)
    ensures disk.Exists(directory) && disk.IsDir(MetaPath(directory)) ==>
              r == Err(IsADirectoryError) && index.file == old(index.file)
    ensures disk.Exists(directory) && directory in disk.files ==>
              r == Err(NotADirectoryError) && index.file == old(index.file)
    ensures disk.Exists(directory) && !disk.IsDir(MetaPath(directory)) && FileV2.Loaded(disk.files, MetaPath(directory)).Err? &&
            FileV2.Loaded(disk.files, MetaPath(directory)).error == FileNotFoundError ==>
              r == Ok(Aborted(ProjectFileNotFound)) && index.file == old(index.file)
    ensures disk.Exists(directory) && !disk.IsDir(MetaPath(directory)) && FileV2.Loaded(disk.files, MetaPath(directory)).Err? &&
            FileV2.Loaded(disk.files, MetaPath(directory)).error != FileNotFoundError ==>
              r == Err(FileV2.Loaded(disk.files, MetaPath(directory)).error) && index.file == old(index.file)
    ensures disk.Exists(directory) && !disk.IsDir(MetaPath(directory)) && FileV2.Loaded(disk.files, MetaPath(directory)).Ok? ==>
              var rec := FileV2.Loaded(disk.files, MetaPath(directory)).value;
              && (Found(disk.files, old(index.file), rec.projectName).Err? ==>
                    r == Err(Found(disk.files, old(index.file), rec.projectName).error) && index.file == old(index.file))
              && (Found(disk.files, old(index.file), rec.projectName).Ok? &&
                  Found(disk.files, old(index.file), rec.projectName).value.Some? ==>
                    r == Ok(Aborted(ProjectNameTaken)) && index.file == old(index.file))
              && (Found(disk.files, old(index.file), rec.projectName) == Ok(None) ==>
                    AddSpec(old(index.file), index.file, rec.path, Plain(r)) && (r.Ok? ==> r.value == Completed))
  {
    if DirectoryGuard(disk.Exists(directory)).Refuse? {
      return Ok(Aborted(DirectoryMissing));
    }
    var path := MetaPath(directory);
    if directory in disk.files {
      OpenedUnderFile(disk.files, directory);
    }
    var loaded := FileV2.RProjFile.Load(disk, path);
    if loaded.Err? {
      if loaded.error == FileNotFoundError {
        return Ok(Aborted(ProjectFileNotFound));
      }
      return Err(loaded.error);
    }
    var project := loaded.value;
    var found := SearchProject(disk, index, project.projectName);
    if found.Err? {
      return Err(found.error);
    }
    if found.value.Some? {
      return Ok(Aborted(ProjectNameTaken));
    }
    var added := index.Add(project.path);
    if added.Err? {
      return Err(added.error);
    }
    return Ok(Completed);
  }

  /**
   * `handle_delete`: delete the found project's metadata file, then its
   * index entry. Afterwards the file is gone, and so is the path, unless the
   * index listed it more than once.
   */
  method HandleDelete(disk: Disk, index: ProjectIndex, name: string) returns (r: Result<Outcome, PyError>)
    requires disk.Valid()
    modifies disk, index
    ensures Found(old(disk.files), old(index.file), name).Err? ==>
              r == Err(Found(old(disk.files), old(index.file), name).error) &&
              disk.files == old(disk.files) && index.file == old(index.file)
    ensures Found(old(disk.files), old(index.file), name) == Ok(None) ==>
              r == Ok(Aborted(ProjectNotFound)) && disk.files == old(disk.files) && index.file == old(index.file)
    ensures Found(old(disk.files), old(index.file), name).Ok? && Found(old(disk.files), old(index.file), name).value.Some? ==>
              var path := Found(old(disk.files), old(index.file), name).value.value.path;
              && (path !in old(disk.files) ==> r.Err? && disk.files == old(disk.files) && index.file == old(index.file))
              && (path !in old(disk.files) && path !in disk.dirs ==> r == Err(FileNotFoundError))
              && (path in old(disk.files) ==> disk.files == old(disk.files) - {path} && RemoveSpec(old(index.file), index.file, path, Plain(r)))
              && (r == Ok(Completed) ==> path !in disk.files && index.file.Parsed? && index.file.value.JArr?)
              && (r == Ok(Completed) && NoDuplicates(old(index.file).value.items) ==> JStr(path) !in index.file.value.items)
  {
    var found := SearchProject(disk, index, name);
    var verdict := ExistsGuard(found);
    if verdict.Err? {
      return Err(verdict.error);
    }
    if verdict.value.Refuse? {
      return Ok(Aborted(verdict.value.message));
    }
    found := SearchProject(disk, index, name);
    var rec := found.value.value;
    FoundConstructed(disk.files, index.file, name);
    var project := new FileV2.RProjFile(FileV2.Rebuild(rec));
    var before := index.file;
    var deleted := project.Delete(disk, index);
    if deleted.Err? {
      return Err(deleted.error);
    }
    if NoDuplicates(before.value.items) {
      RemoveFirstElements(before.value.items, JStr(rec.path));
      assert JStr(rec.path) !in Elements(index.file.value.items);
    }
    return Ok(Completed);
  }

  /** `handle_search`: the lines `print_details` prints for the first project with the name. */
  method HandleSearch(disk: Disk, index: ProjectIndex, name: string) returns (r: Result<Option<seq<string>>, PyError>)
    requires disk.Valid()
    ensures Found(disk.files, index.file, name).Err? ==> r == Err(Found(disk.files, index.file, name).error)
    ensures Found(disk.files, index.file, name) == Ok(None) ==> r == Ok(None)
    ensures Found(disk.files, index.file, name).Ok? && Found(disk.files, index.file, name).value.Some? ==>
              var rec := Found(disk.files, index.file, name).value.value;
              r == Ok(Some(Format.DetailLines(rec.projectName, rec.description, rec.directory, rec.path, rec.github, rec.runCmd)))
  {
    var found := SearchProject(disk, index, name);
    var verdict := ExistsGuard(found);
    if verdict.Err? {
      return Err(verdict.error);
    }
    if verdict.value.Refuse? {
      return Ok(None);
    }
    found := SearchProject(disk, index, name);
    var rec := found.value.value;
    return Ok(Some(Format.DetailLines(rec.projectName, rec.description, rec.directory, rec.path, rec.github, rec.runCmd)));
  }

  /** `handle_dir`: the line printed, the found project's directory, only when it is an existing directory. */
  function HandleDir(files: map<string, MetaContent>, dirs: set<string>, index: IndexFile, name: string): (r: Result<Option<string>, PyError>)
    ensures Found(files, index, name).Err? ==> r == Err(Found(files, index, name).error)
    ensures Found(files, index, name) == Ok(None) ==> r == Ok(None)
    ensures Found(files, index, name).Ok? && Found(files, index, name).value.Some? ==>
              (r == Ok(Some(Found(files, index, name).value.value.directory)) <==>
               Found(files, index, name).value.value.directory in dirs)
    ensures r.Ok? && r.value.Some? ==> r.value.value in dirs
  {
    var verdict :- ExistsGuard(Found(files, index, name));
    if verdict.Refuse? then Ok(None)
    else
      var project := Found(files, index, name).value.value;
      if project.directory in dirs then Ok(Some(project.directory)) else Ok(None)
  }

  /** `args.type or args.t or "ps"`, an absent option being the empty string. */
  function TerminalType(longOption: string, shortOption: string): (r: string)
    ensures r != ""
    ensures longOption != "" ==> r == longOption
    ensures longOption == "" && shortOption != "" ==> r == shortOption
    ensures longOption == "" && shortOption == "" ==> r == "ps"
  {
    if longOption != "" then longOption else if shortOption != "" then shortOption else "ps"
  }
}
