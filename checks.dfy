/**
 * The guards of src/rproj/checks.py and build/lib/rproj/checks.py (the same
 * three wrappers; the older copy documents them). A guard tests one
 * condition and then either logs its message and returns None without
 * running the handler, or runs the handler with the same arguments and
 * returns what it returns. An exception raised while testing (by
 * `search_project`) propagates.
 */
module Checks {
  import opened Wrappers
  import opened Errors

  /** What a handler call comes to: it ran to the end, or a message was logged and it returned early. */
  datatype Outcome = Completed | Aborted(message: string)

  const DirectoryMissing: string := "Directory does not exist"
  const ProjectNotFound: string := "Project not found"
  const ProjectNameTaken: string := "Project name already exists"
  const ProjectFileNotFound: string := "Project file not found"

  /** A guard's decision: run the handler, or log the message and return None. */
  datatype Verdict = Admit | Refuse(message: string)

  /** `check_directory_exists`, on `os.path.exists(cmd_args.directory)`. */
  function DirectoryGuard(present: bool): (v: Verdict)
    ensures v == Admit <==> present
    ensures v.Refuse? ==> v.message == DirectoryMissing
  {
    if present then Admit else Refuse(DirectoryMissing)
  }

  /** `check_project_exists`, on what `search_project(cmd_args.name)` returned or raised. */
  function ExistsGuard<R>(found: Result<Option<R>, PyError>): (v: Result<Verdict, PyError>)
    ensures found.Err? ==> v == Err(found.error)
    ensures found.Ok? ==> v.Ok? && (v.value == Admit <==> found.value.Some?)
    ensures v.Ok? && v.value.Refuse? ==> v.value.message == ProjectNotFound
  {
    var project :- found;
    if project.None? then Ok(Refuse(ProjectNotFound)) else Ok(Admit)
  }

  /** `check_project_already_exists`, on what `search_project(cmd_args.name)` returned or raised. */
  function AbsentGuard<R>(found: Result<Option<R>, PyError>): (v: Result<Verdict, PyError>)
    ensures found.Err? ==> v == Err(found.error)
    ensures found.Ok? ==> v.Ok? && (v.value == Admit <==> found.value.None?)
    ensures v.Ok? && v.value.Refuse? ==> v.value.message == ProjectNameTaken
  {
    var project :- found;
    if project.Some? then Ok(Refuse(ProjectNameTaken)) else Ok(Admit)
  }

  /** For a search that did not raise, exactly one of the two project guards admits the name. */
  lemma GuardsExclusive<R>(found: Result<Option<R>, PyError>)
    requires found.Ok?
    ensures (ExistsGuard(found) == Ok(Admit)) != (AbsentGuard(found) == Ok(Admit))
  {
  }
}
