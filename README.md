# rproj, modelled in Dafny

rproj is a small command-line registry of local projects. Each project keeps
a TOML metadata file named `.rproj` in its own directory. A global JSON file,
`projects.json`, lists the paths of those metadata files. The commands
create, add, update, delete, search and list projects. A separate helper
prints a directory tree.

This project models that core in Dafny and proves properties of the model:

- **Index manager** (`Projects`, src/rproj/projects.py). The index file is a
  `ProjectIndex` object. Its state is one of `Missing`, `ZeroSize`,
  `Unparsable` or `Parsed(value, canonical)`.
  - `Reset`, `Validate`, `Add` and `Remove` are methods that change that
    state.
  - `AddSpec` and `RemoveSpec` state what the source promises, including
    each Python exception, modelled as `PyError`.
  - Lemmas relate successive calls: adding is idempotent and add-then-remove
    restores the other entries.
- **Metadata record**, in the three versions the repository carries:
  - `FileV1`: build/lib/rproj/file.py.
  - `FileV2`: src/rproj/file.py.
  - `FileV3`: src/rproj/utils/file.py.

  Each version has:
  - binding of the loaded keywords to `__init__` (`Arguments`);
  - the constructor's effect (`Init`, and a class `RProjFile` with the fields
    the source assigns);
  - the table layout written to disk (`AsDict`, or `Layout` in V1);
  - `hasattr`/`setattr` over the record's attributes;
  - the methods `Load`, `Create`, `UpdateField` and `Delete` over a `Disk`
    and a `ProjectIndex`.

  The file system is the class `Disk` (module `Disk`). It holds a map from
  path to metadata content and the set of existing directories. A path is
  resolved through its parents. Opening or writing it raises
  NotADirectoryError when a directory on the way is a regular file,
  IsADirectoryError when it names a directory, and FileNotFoundError when
  the file or its parent directory is missing.
  TOML text is modelled as already-parsed documents (`Toml`), with
  `toml.loads(toml.dumps(d)) == d` built into the representation.
- **Registry lookup** (`Info`, build/lib/rproj/utils/info.py and its older
  copy build/lib/rproj/info.py). `load_projects`, `search_project` and
  `list_projects` are written once, generic in the record type, over the
  version's load function.
- **Guards and handlers**:
  - `Checks` models the three decorators of both checks.py copies.
  - `Handlers` models src/rproj/handlers.py, over `FileV2`.
  - `HandlersV1` models build/lib/rproj/handlers.py, over `FileV1`.

  A handler's result is `Completed` or `Aborted(message)` (the message it
  logged before returning early), or the exception that escaped.
- **Views** (`Format`): `__str__`, `list_view` and the lines of
  `print_details`, as strings with the rich markup kept as text.
- **Tree printer** (`Tree`, src/rproj/utils/tree.py). The printer is a
  depth-bounded recursive function from a directory value to the lines it
  prints. Listing collection is a method with a loop, proved against its
  specification. Sorting is proved ordered and a permutation. Callers get
  lemmas about depth, ignored entries, sibling order, connectors and prefix
  growth.

## Model

| member | source | states |
|---|---|---|
| Projects.Read | src/rproj/projects.py:49-50 | `json.loads(open(path).read())`: succeeds exactly on parsable content; a missing file is FileNotFoundError; an empty or unparsable file is JSONDecodeError |
| Projects.Dedup | src/rproj/projects.py:53-54 | `list(set(paths))`: holds exactly what Python's set keeps, the first of each group of Python-equal elements (`1 == True`, `0 == False`). It covers every group, and no two entries are equal in Python |
| Projects.RepresentativesSnoc | src/rproj/projects.py:53-54 | appending an element adds it to the set exactly when no Python-equal element is already there |
| Projects.StringKept | src/rproj/projects.py:53-54 | a string equals only itself in Python, so `set` keeps every string of the list |
| Projects.AddMergesEqualNumbers | src/rproj/projects.py:53-54 | adding "p" to the index `[1, true]` succeeds and writes two entries, `1` and "p" |
| Projects.AddedPresent | src/rproj/projects.py:47-58 | after a successful add, the index is a list holding the path |
| Projects.AddBase | src/rproj/projects.py:49-53 | the list `add` appends to: `[]` for falsy JSON, the list itself, AttributeError for any other truthy value, and the read error otherwise |
| Projects.RemoveBase | src/rproj/projects.py:65-67 | the list `remove` works on: succeeds exactly when the index parses to a list, with its items. An unreadable index raises the read error, and any other parsed value AttributeError |
| Projects.RemoveFirst | src/rproj/projects.py:67 | `list.remove(x)` shortens the list by one |
| Projects.FirstIndex | src/rproj/projects.py:67 | the position `list.remove` deletes: an occurrence of x with none before it |
| Projects.RemoveFirstSplits | src/rproj/projects.py:67 | removal drops exactly the first occurrence and keeps everything else in order |
| Projects.RemoveFirstElements | src/rproj/projects.py:63-71 | in a list without duplicates, removing a path removes it entirely and nothing else, and no duplicates appear |
| Projects.AddIdempotent | src/rproj/projects.py:47-58 | adding a path a second time succeeds and leaves the set of paths unchanged |
| Projects.AddThenRemove | src/rproj/projects.py:47-71 | add followed by remove of the same path succeeds. It leaves exactly what `set` kept of the original entries, minus the path, whether or not the path was there before |
| Projects.ProjectIndex.Reset | src/rproj/projects.py:17-21 | the file becomes exactly "[]" and True is returned |
| Projects.ProjectIndex.Validate | src/rproj/projects.py:24-44 | missing, zero-size or unparsable files are reset (True). Parsable content is untouched: None for exactly "[]", False for anything else, a non-list included |
| Projects.ProjectIndex.Add | src/rproj/projects.py:47-58 | on success the index holds what Python's `set` keeps of the old entries and the new path: one of each Python-equal group (`1` and `true` merge), no two equal. An unreadable index, a non-list or an unhashable entry raise and leave the file unchanged |
| Projects.ProjectIndex.Remove | src/rproj/projects.py:63-71 | drops the first occurrence of the path and writes the rest. A missing path (ValueError), a non-list or an unreadable index raise and leave the file unchanged |
| Json.Iterate | build/lib/rproj/utils/info.py:13 | `for path in project_paths` over any JSON value: a list's items, an object's keys, a string's characters; null, bool and number raise TypeError |
| Toml.Dumps | src/rproj/utils/file.py:87 | `toml.dumps`: the empty document is the empty text, any other document reads back as itself |
| Toml.FlattenItems | src/rproj/utils/file.py:45-53 | the nested loop of `load` computes `Flatten` of the document: table members are lifted to the top, other values kept under their key |
| Toml.FlattenKeys | src/rproj/utils/file.py:45-53 | a key is among the keywords exactly when some top-level entry contributes it |
| Toml.FlattenLastWins | src/rproj/utils/file.py:45-53 | a keyword's value comes from the last entry that contributes it |
| Toml.FlattenEmpty | src/rproj/utils/file.py:55-56 | the keywords are empty exactly when every top-level entry is an empty table |
| Codec.Keywords | src/rproj/file.py:12-24 | `load` from the opened content to the keywords: empty text is ValueError "File is empty", bad TOML is a decode error. Empty keywords are ValueError "No valid data found", and exactly when every table is empty. Otherwise the result is the flattened keywords |
| Codec.ReqStr | src/rproj/utils/file.py:62-63 | a required parameter: missing is TypeError, otherwise its string value |
| Codec.StrArg | src/rproj/utils/file.py:64-66 | an optional string parameter: the keyword's value, or the default when absent |
| Codec.TextsArg | src/rproj/utils/file.py:67 | `notes`: the keyword's list of strings, or the empty list when absent |
| Codec.Texts | src/rproj/utils/file.py:172 | notes are stored as a TOML array of the same strings, index for index |
| Codec.Strings | src/rproj/utils/file.py:67 | a TOML array reads as notes exactly when every item is a string |
| Codec.StringsOfTexts | src/rproj/utils/file.py:172 | notes written as an array read back as the same notes |
| Codec.TextsOfStrings | src/rproj/utils/file.py:67 | an all-string array read as notes writes back as the same array |
| Codec.Rest | src/rproj/utils/file.py:68 | `**kwargs`: exactly the keywords not bound to a named parameter, with their values |
| Disk.MetaPath | src/rproj/utils/file.py:72 | the metadata path is the directory followed by "/.rproj" |
| Disk.MetaPathInjective | src/rproj/utils/file.py:72 | distinct directories have distinct metadata paths |
| Disk.ParentOfMetaPath | src/rproj/utils/file.py:72 | a metadata file lies directly in its project directory |
| Disk.Lookup | src/rproj/utils/file.py:35 | what a successful `open(path).read()` returns: content exactly when the file exists, and that file's content |
| Disk.Opened | src/rproj/utils/file.py:35 | `open(path)` for reading: NotADirectoryError when a directory on the way is a regular file, the content when the file exists, FileNotFoundError otherwise (a directory path included) |
| Disk.OpenedUnderFile | src/rproj/handlers.py:37-46 | a directory argument that is a regular file: opening its metadata path raises NotADirectoryError |
| Disk.WriteResult | src/rproj/utils/file.py:90 | `open(path, "w")` succeeds exactly when no directory on the way is a regular file, the path is not a directory, and its parent directory exists. Otherwise it is NotADirectoryError, IsADirectoryError or FileNotFoundError, in that order |
| Disk.WriteResultAgain | src/rproj/utils/file.py:90-91 | writing a path does not change whether it can be written again |
| Disk.Written | src/rproj/utils/file.py:90-91 | a successful write creates or replaces that one file; a failed write changes nothing; no other path is affected |
| Disk.WriteInProjectDirectory | src/rproj/utils/file.py:90-91 | in a consistent file system, writing the metadata file of an existing directory cannot fail |
| Disk.Disk.Write | src/rproj/utils/file.py:90-91 | the write's exception and the new files are those of `WriteResult` and `Written` |
| Disk.Disk.Remove | src/rproj/utils/file.py:126 | `os.remove` of an existing path removes a file and raises IsADirectoryError for a directory |
| FileV3.Arguments | src/rproj/utils/file.py:60-69 | keyword binding of `RProjFile(**kwargs)`: `self` or a missing required argument is TypeError. Each optional argument is its keyword's value or its default. The rest form `**kwargs` |
| FileV3.Init | src/rproj/utils/file.py:70-82 | `__init__`: fields as given, path derived from the directory, and `kwargs` holds the extra keywords minus "path" |
| FileV3.Loaded | src/rproj/utils/file.py:22-58 | `load`: an open error (NotADirectoryError, FileNotFoundError) or a content error propagates. A missing required keyword is the binding's TypeError. On success the record is `Init` of the arguments bound from the file's keywords |
| FileV3.Rebuild | src/rproj/utils/file.py:70-82 | every record `__init__` built is rebuilt by `__init__` from its own fields |
| FileV3.AsDict | src/rproj/utils/file.py:161-177 | `as_dict`: exactly the tables info and other. Other holds github, run_cmd, notes and every extra keyword with its value |
| FileV3.FlattenAsDict | src/rproj/utils/file.py:161-177 | flattening the layout yields every field under its parameter name, plus the extra keywords |
| FileV3.ArgumentsOfLayout | src/rproj/utils/file.py:161-177 | binding the flattened layout gives back the record's own fields as arguments |
| FileV3.RoundTrip | src/rproj/utils/file.py:22-58 | loading what `create` wrote gives back the record, with the path re-derived from the directory; for a record `__init__` built, exactly the record |
| FileV3.Attribute | src/rproj/utils/file.py:110 | `getattr` of each attribute has the attribute's declared type |
| FileV3.AssignThenAttribute | src/rproj/utils/file.py:110-111 | after `setattr`, the attribute reads back as the value given, and every other attribute as before (setting directory leaves path alone) |
| FileV3.RProjFile.constructor | src/rproj/utils/file.py:60-82 | the object's fields are the record `Init` describes |
| FileV3.RProjFile.Load | src/rproj/utils/file.py:22-58 | a path under a regular file is NotADirectoryError, and a directory path IsADirectoryError. Otherwise the loop-built object is `Loaded`'s record, or the error is `Loaded`'s |
| FileV3.RProjFile.Create | src/rproj/utils/file.py:84-95 | writes `as_dict` at the path. If the write raises, the index is untouched; otherwise the index changes as `add_project_to_projects` promises |
| FileV3.RProjFile.UpdateField | src/rproj/utils/file.py:97-120 | an unknown attribute is AttributeError and changes nothing. A known one is set and the file at the current path is rewritten from `as_dict` |
| FileV3.RProjFile.Delete | src/rproj/utils/file.py:122-129 | a missing path is FileNotFoundError and a directory is IsADirectoryError; neither writes anything. Otherwise the file is removed, then the path is removed from the index as `remove_project_from_projects` promises |
| FileV2.Arguments | src/rproj/file.py:29-37 | keyword binding with parameters project_name, directory, description, github, run_cmd |
| FileV2.Init | src/rproj/file.py:38-47 | `__init__`: fields as given, path derived from the directory, `kwargs` minus "path" |
| FileV2.Loaded | src/rproj/file.py:9-27 | `load`: an open error (NotADirectoryError, FileNotFoundError) or a content error propagates. A missing required keyword is the binding's TypeError. On success the record is `Init` of the arguments bound from the file's keywords |
| FileV2.Rebuild | src/rproj/file.py:38-47 | every constructed record is rebuilt by `__init__` from its own fields |
| FileV2.AsDict | src/rproj/file.py:101-118 | `as_dict`: tables info, file (directory, path) and other (github, run_cmd and every extra keyword) |
| FileV2.FlattenAsDict | src/rproj/file.py:101-118 | flattening the layout yields every field, the stored path, and the extra keywords |
| FileV2.ArgumentsOfLayout | src/rproj/file.py:101-118 | binding the flattened layout gives the record's fields, with the stored path among the extra keywords |
| FileV2.RoundTrip | src/rproj/file.py:9-27 | loading what `create` wrote gives back the record: the stored path is dropped from `kwargs` and re-derived from the directory |
| FileV2.Attribute | src/rproj/file.py:62 | `getattr` of each attribute has its declared type |
| FileV2.AssignThenAttribute | src/rproj/file.py:62-63 | after `setattr`, that attribute reads back as given and every other one as before |
| FileV2.RProjFile.constructor | src/rproj/file.py:29-47 | the object's fields are the record `Init` describes |
| FileV2.RProjFile.Load | src/rproj/file.py:9-27 | a path under a regular file is NotADirectoryError, and a directory path IsADirectoryError. Otherwise the loop-built object is `Loaded`'s record, or the error is `Loaded`'s |
| FileV2.RProjFile.Create | src/rproj/file.py:49-59 | writes `as_dict`, then updates the index as `add_project_to_projects` promises unless the write raised |
| FileV2.RProjFile.UpdateField | src/rproj/file.py:61-72 | an unknown attribute is AttributeError with nothing changed; a known one is set and the file rewritten |
| FileV2.RProjFile.Delete | src/rproj/file.py:74-79 | missing: FileNotFoundError; directory: IsADirectoryError; otherwise the file is removed, then the index entry |
| FileV1.Arguments | build/lib/rproj/file.py:28-35 | keyword binding with parameters project_name, directory, description, github |
| FileV1.Init | build/lib/rproj/file.py:36-44 | `__init__`: fields as given, path derived from the directory, `kwargs` minus "path" |
| FileV1.Loaded | build/lib/rproj/file.py:8-26 | `load`: an open error (NotADirectoryError, FileNotFoundError) or a content error propagates. A missing required keyword is the binding's TypeError. On success the record is `Init` of the arguments bound from the file's keywords |
| FileV1.Rebuild | build/lib/rproj/file.py:36-44 | every constructed record is rebuilt by `__init__` from its own fields |
| FileV1.Layout | build/lib/rproj/file.py:48-61 | the dictionary `create` and `update_field` both build: tables info, file, and other (github and every extra keyword) |
| FileV1.FlattenLayout | build/lib/rproj/file.py:48-61 | flattening the layout yields every field, the stored path, and the extra keywords |
| FileV1.ArgumentsOfLayout | build/lib/rproj/file.py:48-61 | binding the flattened layout gives the record's fields, with the stored path among the extra keywords |
| FileV1.RoundTrip | build/lib/rproj/file.py:8-26 | loading what `create` wrote gives back the record, with the path re-derived |
| FileV1.Attribute | build/lib/rproj/file.py:73 | `getattr` of each attribute has its declared type |
| FileV1.AssignThenAttribute | build/lib/rproj/file.py:73-74 | after `setattr`, that attribute reads back as given and every other one as before |
| FileV1.RProjFile.constructor | build/lib/rproj/file.py:28-44 | the object's fields are the record `Init` describes |
| FileV1.RProjFile.Load | build/lib/rproj/file.py:8-26 | a path under a regular file is NotADirectoryError, and a directory path IsADirectoryError. Otherwise the loop-built object is `Loaded`'s record, or the error is `Loaded`'s |
| FileV1.RProjFile.Create | build/lib/rproj/file.py:46-70 | writes the layout, then updates the index as `add_project_to_projects` promises unless the write raised |
| FileV1.RProjFile.UpdateField | build/lib/rproj/file.py:72-97 | an unknown attribute is AttributeError with nothing changed; a known one is set and the layout rewritten |
| FileV1.RProjFile.Delete | build/lib/rproj/file.py:99-104 | missing: FileNotFoundError; directory: IsADirectoryError; otherwise the file is removed, then the index entry |
| Info.LoadAllAppend | build/lib/rproj/utils/info.py:13-18 | the records of a concatenation of entries are those of each part, in index order |
| Info.LoadAllSkips | build/lib/rproj/utils/info.py:13-18 | an entry whose load raises, or that is not a string, leaves no trace |
| Info.LoadAllLength | build/lib/rproj/utils/info.py:13-18 | never more records than index entries |
| Info.LoadAllLoadable | build/lib/rproj/utils/info.py:13-18 | when every entry loads, record i is entry i's record |
| Info.LoadAllFrom | build/lib/rproj/utils/info.py:13-18 | every record is the load result of some index entry |
| Info.Registered | build/lib/rproj/utils/info.py:7-20 | `load_projects` succeeds exactly when the index parses to something iterable. For a list, it gives the loadable entries' records in order |
| Info.FirstNamed | build/lib/rproj/utils/info.py:36-38 | the first position with the name, or None exactly when no record has it |
| Info.Search | build/lib/rproj/utils/info.py:30-40 | an empty name is ValueError. Otherwise it is the first loaded record with exactly that name, loaded from a string entry of the index, or None when no record has it. Index errors propagate |
| Info.LoadProjects | build/lib/rproj/utils/info.py:7-20 | the loop computes `Registered` |
| Info.SearchProject | build/lib/rproj/utils/info.py:30-40 | the loop with early return computes `Search` |
| Info.FirstIndexes | build/lib/rproj/utils/info.py:36-38 | a match with no earlier match is the first one |
| Info.ListProjects | build/lib/rproj/utils/info.py:23-27 | one line per loaded record, line i being record i's list view numbered i |
| Checks.DirectoryGuard | src/rproj/checks.py:20-27 | admits exactly when the directory exists, refusing with "Directory does not exist" |
| Checks.ExistsGuard | src/rproj/checks.py:30-38 | admits exactly when the search found a project, refusing with "Project not found"; a search exception propagates |
| Checks.AbsentGuard | src/rproj/checks.py:41-49 | admits exactly when the search found none, refusing with "Project name already exists"; a search exception propagates |
| Checks.GuardsExclusive | src/rproj/checks.py:30-49 | for a search that did not raise, exactly one of the two project guards admits |
| Handlers.FoundConstructed | src/rproj/handlers.py:26 | a project `search_project` returns is one `load` built |
| Handlers.SearchProject | src/rproj/handlers.py:26 | the search the handlers run is `Info.Search` over the current files and index |
| Handlers.HandleCreate | src/rproj/handlers.py:14-19 | a taken name, or a search error, changes nothing. Otherwise the new record's file is written and the index updated as `add` promises; on completion the index lists the new path |
| Handlers.HandleUpdate | src/rproj/handlers.py:22-34 | unknown name: refused, nothing written. Otherwise each supplied field is updated in order and the file ends holding the revised record; nothing supplied writes nothing; the index is never touched |
| Handlers.UpdateFields | src/rproj/handlers.py:27-34 | the four conditional `update_field` calls leave the file holding the record with every supplied field replaced |
| Handlers.RevisedInSteps | src/rproj/handlers.py:27-34 | applying the four conditional field updates in order gives the record with exactly the supplied fields replaced |
| Handlers.UpdateStep | src/rproj/handlers.py:27-28 | one conditional `update_field`: after any write, the file holds the latest record; only a first write can fail, and then nothing was written |
| Handlers.SyncedStep | src/rproj/handlers.py:27-34 | one more successful write keeps the file in step with the latest record; a failed write is always the first and changes nothing |
| Handlers.HandleAdd | src/rproj/handlers.py:37-52 | missing directory or metadata file: refused. Other load errors propagate, NotADirectoryError for a directory argument that is a regular file among them. A taken name is refused. Otherwise the loaded record's path is added as `add` promises |
| Handlers.HandleDelete | src/rproj/handlers.py:55-59 | removes the found project's file, then its index entry. On completion the file is gone, and so is the path whenever the index had no duplicates |
| Handlers.HandleSearch | src/rproj/handlers.py:62-66 | the lines printed are the `print_details` lines of the first project with the name |
| Handlers.HandleDir | src/rproj/handlers.py:84-91 | prints the found project's directory exactly when it is an existing directory, and nothing otherwise |
| Handlers.TerminalType | src/rproj/handlers.py:98 | `args.type or args.t or "ps"`: the first non-empty option, never empty |
| HandlersV1.FoundConstructed | build/lib/rproj/handlers.py:34 | a project `search_project` returns is one `load` built |
| HandlersV1.SearchProject | build/lib/rproj/handlers.py:39 | the search the handlers run is `Info.Search` over the current files and index |
| HandlersV1.HandleCreate | build/lib/rproj/handlers.py:9-13 | a taken name changes nothing. Otherwise the layout is written and the index updated as `add` promises, then lists the new path |
| HandlersV1.HandleAdd | build/lib/rproj/handlers.py:15-29 | missing directory or metadata file: refused. Other load errors propagate, NotADirectoryError for a directory argument that is a regular file among them. A taken name is refused. Otherwise the loaded path is added |
| HandlersV1.HandleDelete | build/lib/rproj/handlers.py:31-34 | removes the found project's file, then its index entry; the path is gone whenever the index had no duplicates |
| HandlersV1.HandleSearch | build/lib/rproj/handlers.py:36-39 | prints the `__str__` of the first project with the name |
| Format.Summary | src/rproj/utils/file.py:179-182 | `__str__`: "name @ directory", followed by the tagged description and then the tagged GitHub URL, each only when non-empty |
| Format.ListPrefix | src/rproj/utils/file.py:149 | the numbering is "i. " for an index i and "- " without one; it starts with a non-space character |
| Format.ListDetails | src/rproj/utils/file.py:152-157 | the description as "- [dim]description[/]" when non-empty; then, when the github URL is non-empty, a new line indented by the width of the prefix, the "[dim]github:[/] " label and the URL; empty with neither |
| Format.ListLine | src/rproj/utils/file.py:147-159 | the stripped line of `list_view` (`ListView` is it under `ListPrefix`) starts with "prefix name @ directory" and never ends in whitespace. Without details it is the head alone; with a description only, the head and the description. With a github URL it ends in the indented label and the URL, right-stripped (at the label when the URL is all whitespace) |
| Format.ListViewGithub | src/rproj/utils/file.py:152-159 | with a github URL that is not all whitespace, the stripped line ends in the indented label and the right-stripped URL |
| Format.ListViewBlankGithub | src/rproj/utils/file.py:152-159 | with a github URL made only of whitespace, the stripped line ends in the "[dim]github:[/]" label |
| Format.ListViewLine | src/rproj/utils/file.py:147-159 | stripping the joined line keeps its head, leaves no trailing whitespace, and drops only the separating space when there are no details |
| Format.DetailLines | src/rproj/utils/file.py:131-145 | name, directory and path lines always; description, GitHub and run-command lines only when non-empty; in that order |
| Format.NonEmptyAppend | src/rproj/utils/file.py:145 | dropping empty lines from a concatenation is dropping them from each part |
| Format.NonEmptySix | src/rproj/utils/file.py:133-145 | of the six candidate lines, exactly the non-empty ones survive, in order |
| Tree.Color | src/rproj/utils/tree.py:50-65 | each suffix colour is chosen exactly when the name has that suffix. Bright black is chosen exactly for a directory without one, white for a file without one |
| Tree.SuffixBeforeDirectory | src/rproj/utils/tree.py:50-65 | a suffix decides before the directory test: a folder named like a file gets the file's colour |
| Tree.Kept | src/rproj/utils/tree.py:30-38 | the entries kept are exactly those not in a non-empty ignore list |
| Tree.KeptAppend | src/rproj/utils/tree.py:30-38 | filtering a concatenation filters each part, order kept |
| Tree.Insert | src/rproj/utils/tree.py:39 | inserting one entry into the list adds exactly that entry (multiset of the result) |
| Tree.Sort | src/rproj/utils/tree.py:39 | `items.sort()`: ascending by name and a permutation of the entries |
| Tree.InsertSorted | src/rproj/utils/tree.py:39 | inserting into a sorted list keeps it sorted |
| Tree.CollectItems | src/rproj/utils/tree.py:29-39 | the append loop and the sort give the sorted list of kept entries |
| Tree.Render | src/rproj/utils/tree.py:25-42 | nothing is printed past the maximum depth; a denied listing prints exactly one message line |
| Tree.Markup | src/rproj/utils/tree.py:67 | a printed entry line starts with its prefix and ends with the name and the closing tag |
| Tree.WithinChild | src/rproj/utils/tree.py:70 | a child's prefix is the parent prefix plus one guide, "    " or "│   " |
| Tree.RenderShape | src/rproj/utils/tree.py:25-73 | every printed line carries the call's prefix followed by whole guides, at most one per remaining level; no printed entry is ignored |
| Tree.EntriesShape | src/rproj/utils/tree.py:44-73 | the same for the lines of the entry loop |
| Tree.EntriesLevel | src/rproj/utils/tree.py:44-73 | the lines of the entry loop at the caller's own prefix are the sibling lines, one per entry in order |
| Tree.SiblingLines | src/rproj/utils/tree.py:39-48 | the lines at a directory's own prefix are one per kept entry, in sorted order, each with the connector of its position; everything else printed belongs to a deeper level |
| Tree.SiblingOrder | src/rproj/utils/tree.py:44-48 | sibling lines: one per kept entry, ascending by name, none ignored, and "└── " on the last one alone |
| Tree.IgnoredInvisible | src/rproj/utils/tree.py:30-38 | an ignored entry is neither printed nor descended into: removing it changes nothing printed |
| Tree.RootDepth | src/rproj/utils/tree.py:6-26 | with the default maximum depth of 4, no prefix has more than four guides |

## Left out

- Real I/O is modelled as values, not performed:
  - reading and writing files;
  - `print` and rich rendering;
  - log output. A logged error appears only as the message in `Aborted`.
- `os.path.abspath` and `os.path.join` are taken as given. Directories are
  already absolute, and joining is the injective concatenation
  `directory + "/" + name` (`Disk.MetaPath`, `Tree.ItemPath`).
- Concurrency: two invocations may race on the read-modify-write of the
  index file. The model is sequential.
- `add_project_to_projects` writes `list(set(...))`, whose order comes from
  Python's hash table. The model states only the set of paths and that each
  appears once, not their order.
- The index holds paths only as JSON strings. `Info.LoadAll` skips every
  other entry. Python's `open` treats an integer or boolean entry as a file
  descriptor: `open(0)` reads standard input and `open(True)` file
  descriptor 1, and `load` then closes that descriptor. Such entries and
  their effect on the process are not modelled.
- `Disk.Consistent` (and `Disk.Disk.Valid`) states only that no path is both
  a file and a directory and that no directory lies below a regular file.
  It does not demand that every directory's parent exists, nor that no file
  lies below a file. The handlers require it of the disk they are given.
- src/rproj/utils/file.py imports rproj.utils.projects, which is not part
  of this model. src/rproj/projects.py stands in for it.
- The handlers of src/rproj/handlers.py import rproj.info, whose src copy is
  not part of this model. The shared code of build/lib/rproj/utils/info.py
  and build/lib/rproj/info.py stands in, over `FileV2`.
- build/lib/rproj/info.py imports `PROJECT_DATA_PATH` from rproj.file,
  which does not define it. The import is not modelled; the index is passed
  in explicitly.
- `search_project(None)` is treated as `search_project("")`, since both are
  falsy.
- TOML encoding is not modelled. `toml.loads(toml.dumps(d))` is assumed to
  return `d` with its entry order kept, and an unparsable file is one
  `Malformed` state.
- FileV3.Arguments, FileV2.Arguments, FileV1.Arguments: a named parameter
  whose TOML value has the wrong type is an error (`IllTyped`). Python would
  accept it and store a value of another type. The record's fields are
  typed, so the model cannot hold such a value.
- FileV3.RProjFile.UpdateField, FileV2.RProjFile.UpdateField,
  FileV1.RProjFile.UpdateField: these require the value to have the
  attribute's declared type. The attributes are an enumerated set, so
  `hasattr` on a method name and overwriting a method through `setattr` are
  not modelled. Such a field is reported as AttributeError.
- `notes=[]` is a shared mutable default in src/rproj/utils/file.py. The
  model gives every record its own fresh empty list.
- The `os.path.exists` test inside `load` of src/rproj/utils/file.py
  (lines 37-38) can never raise. `open` has already raised
  FileNotFoundError for a missing file, so the model gives that error,
  although the docstring of `load` names ValueError.
- Disk.Opened, FileV3.Loaded, FileV2.Loaded, FileV1.Loaded: reading a
  path that is a directory gives FileNotFoundError, where Python raises
  IsADirectoryError. These functions see only the files, not the
  directories. `RProjFile.Load` does raise IsADirectoryError. Inside a
  registry lookup every load error is skipped, so the difference does not
  show there.
- Json.JsonValue and Toml.Value: the value domains have no floats, and
  TOML values have no dates or times. A JSON object and a TOML document may
  list a key twice, where a Python dict stores it once. So an index entry
  `1.0`, which Python's `set` merges with `1` and `true`, and a TOML
  `x = 1.5`, which `load` keeps in `kwargs` and writes back, are outside
  the model.
- Tree: the regex ignore mode (`re.search`) is not modelled; it depends on
  a foreign regex engine.
- Tree: an `os.listdir` error other than PermissionError, such as a root
  that is not a directory, is not modelled. The directory is given as a
  value, and `is_dir` is the entry's kind, with no symbolic links.
- The handlers `handle_code`, `handle_file_explorer` and `handle_terminal`
  start external programs, so they are not modelled. The terminal choice of
  `handle_terminal` is modelled as `TerminalType`.
- `handle_debug` is not modelled, because it only logs the index path.
- The argument parsing of cli.py is not modelled, because it only
  configures argparse.
- Search handlers return `Ok(None)` when the guard refuses, for "nothing
  printed". The guard's log message is not part of that result.
