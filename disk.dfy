/**
 * The part of the file system the registry touches: metadata files (by path)
 * and the set of existing directories. Path handling (`os.path.join`,
 * `os.path.abspath`) is abstracted: directories are taken as already
 * absolute, and joining is an injective concatenation.
 */
module Disk {
  import opened Toml
  import opened Wrappers
  import opened Errors

  /** `FILE_EXTENSION`: the name of the metadata file inside a project's directory. */
  const FileExtension: string := ".rproj"

  /** `os.path.abspath(os.path.join(directory, FILE_EXTENSION))`. */
  function MetaPath(directory: string): (p: string)
    ensures |p| == |directory| + 1 + |FileExtension|
    ensures p[..|directory|] == directory
  {
    directory + "/" + FileExtension
  }

  /** Distinct directories have distinct metadata paths. */
  lemma MetaPathInjective(a: string, b: string)
    ensures MetaPath(a) == MetaPath(b) ==> a == b
  {
    if MetaPath(a) == MetaPath(b) {
      assert |a| == |b|;
      assert a == MetaPath(a)[..|a|] == MetaPath(b)[..|b|] == b;
    }
  }

  predicate NoSlash(s: string) {
    forall k :: 0 <= k < |s| ==> s[k] != '/'
  }

  /** The directory a path names a file in: the text before its last '/' ("" when there is none). */
  function Parent(p: string): (d: string)
    ensures |d| <= |p| && d == p[..|d|]
    ensures NoSlash(p) ==> d == []
    ensures !NoSlash(p) ==> |d| < |p| && p[|d|] == '/' && NoSlash(p[|d| + 1..])
  {
    if p == [] then []
    else if p[|p| - 1] == '/' then p[..|p| - 1]
    else Parent(p[..|p| - 1])
  }

  /** A name without '/' after a '/' leaves the part before it as the parent. */
  lemma {:induction false} ParentAfterSlash(a: string, b: string)
    requires NoSlash(b)
    ensures Parent(a + "/" + b) == a
  {
    var p := a + "/" + b;
    if b != [] {
      assert p[..|p| - 1] == a + "/" + b[..|b| - 1];
      ParentAfterSlash(a, b[..|b| - 1]);
    } else {
      assert p[..|p| - 1] == a;
    }
  }

  /** A metadata file lives directly in its project's directory. */
  lemma ParentOfMetaPath(directory: string)
    ensures Parent(MetaPath(directory)) == directory
  {
    ParentAfterSlash(directory, FileExtension);
  }

  /**
   * Some directory on the way to `p` is a regular file: resolving `p` then
   * fails with NotADirectoryError.
   */
  predicate BelowFile(files: set<string>, p: string)
    decreases |p|
  {
    !NoSlash(p) && (Parent(p) in files || BelowFile(files, Parent(p)))
  }

  /** A file at `x` is never on the way to a path no longer than `x`. */
  lemma {:induction false} BelowFileShorter(files: set<string>, x: string, q: string)
    requires |q| <= |x|
    ensures BelowFile(files + {x}, q) == BelowFile(files, q)
    ensures BelowFile(files - {x}, q) == BelowFile(files, q)
    decreases |q|
  {
    if !NoSlash(q) {
      BelowFileShorter(files, x, Parent(q));
    }
  }

  /** The content at `p`, if a file is there. */
  function Lookup(files: map<string, MetaContent>, p: string): (c: Option<MetaContent>)
    ensures c.Some? <==> p in files
    ensures c.Some? ==> c.value == files[p]
  {
    if p in files then Some(files[p]) else None
  }

  /**
   * `open(p).read()` over the files alone: NotADirectoryError when a
   * directory on the way is a regular file, the content when the file is
   * there, FileNotFoundError otherwise.
   */
  function Opened(files: map<string, MetaContent>, p: string): (r: Result<MetaContent, PyError>)
    ensures BelowFile(files.Keys, p) ==> r == Err(NotADirectoryError)
    ensures !BelowFile(files.Keys, p) && p in files ==> r == Ok(files[p])
    ensures !BelowFile(files.Keys, p) && p !in files ==> r == Err(FileNotFoundError)
  {
    if BelowFile(files.Keys, p) then Err(NotADirectoryError)
    else if p in files then Ok(files[p])
    else Err(FileNotFoundError)
  }

  /** A directory argument that is a regular file: its metadata path cannot be opened. */
  lemma OpenedUnderFile(files: map<string, MetaContent>, directory: string)
    requires directory in files
    ensures BelowFile(files.Keys, MetaPath(directory))
    ensures Opened(files, MetaPath(directory)) == Err(NotADirectoryError)
  {
    ParentOfMetaPath(directory);
    assert !NoSlash(MetaPath(directory)) by {
      assert MetaPath(directory)[|directory|] == '/';
    }
  }

  /**
   * What `open(p, "w")` does: raise NotADirectoryError when a directory on
   * the way is a regular file, IsADirectoryError when `p` is a directory,
   * FileNotFoundError when its parent directory does not exist, otherwise
   * succeed.
   */
  function WriteResult(files: map<string, MetaContent>, dirs: set<string>, p: string): (r: Result<(), PyError>)
    ensures r.Ok? <==> !BelowFile(files.Keys, p) && p !in dirs && Parent(p) in dirs
    ensures BelowFile(files.Keys, p) ==> r == Err(NotADirectoryError)
    ensures !BelowFile(files.Keys, p) && p in dirs ==> r == Err(IsADirectoryError)
    ensures !BelowFile(files.Keys, p) && p !in dirs && Parent(p) !in dirs ==> r == Err(FileNotFoundError)
  {
    if BelowFile(files.Keys, p) then Err(NotADirectoryError)
    else if p in dirs then Err(IsADirectoryError)
    else if Parent(p) !in dirs then Err(FileNotFoundError)
    else Ok(())
  }

  /** Writing `p` does not change whether `p` can be written again. */
  lemma WriteResultAgain(files: map<string, MetaContent>, dirs: set<string>, p: string, c: MetaContent)
    ensures WriteResult(files[p := c], dirs, p) == WriteResult(files, dirs, p)
  {
    assert files[p := c].Keys == files.Keys + {p};
    BelowFileShorter(files.Keys, p, p);
  }

  /** The files after writing `c` at `p`: created or replaced when the write succeeds, untouched otherwise. */
  function Written(files: map<string, MetaContent>, dirs: set<string>, p: string, c: MetaContent): (r: map<string, MetaContent>)
    ensures WriteResult(files, dirs, p).Ok? ==> p in r && r[p] == c && r.Keys == files.Keys + {p}
    ensures forall q :: q != p ==> Lookup(r, q) == Lookup(files, q)
    ensures WriteResult(files, dirs, p).Err? ==> r == files
  {
    if WriteResult(files, dirs, p).Ok? then files[p := c] else files
  }

  /**
   * What any real file system guarantees: no path is both a file and a
   * directory, and no directory lies below a regular file.
   */
  predicate Consistent(files: map<string, MetaContent>, dirs: set<string>) {
    files.Keys !! dirs && forall d | d in dirs :: !BelowFile(files.Keys, d)
  }

  /** A project whose directory exists can always write its metadata file. */
  lemma WriteInProjectDirectory(files: map<string, MetaContent>, dirs: set<string>, directory: string)
    requires Consistent(files, dirs)
    requires directory in dirs && MetaPath(directory) !in dirs
    ensures WriteResult(files, dirs, MetaPath(directory)) == Ok(())
  {
    ParentOfMetaPath(directory);
    assert !BelowFile(files.Keys, MetaPath(directory)) by {
      assert directory !in files.Keys && !BelowFile(files.Keys, directory);
    }
  }

  class Disk {
    /** The metadata files that exist, by path, with their content. */
    var files: map<string, MetaContent>
    /** The directories that exist. */
    const dirs: set<string>

    constructor(files: map<string, MetaContent>, dirs: set<string>)
      ensures this.files == files && this.dirs == dirs
    {
      this.files := files;
      this.dirs := dirs;
    }

    /** `os.path.exists(p)`: a file or a directory. */
    predicate Exists(p: string)
      reads this
    {
      p in files || p in dirs
    }

    /** The state is one a real file system can be in. */
    predicate Valid()
      reads this
    {
      Consistent(files, dirs)
    }

    /** `os.path.isdir(p)`. */
    predicate IsDir(p: string) {
      p in dirs
    }

    /** `open(p, "w").write(c)`. */
    method Write(p: string, c: MetaContent) returns (r: Result<(), PyError>)
      modifies this
      ensures r == WriteResult(old(files), dirs, p)
      ensures files == Written(old(files), dirs, p, c)
    {
      if BelowFile(files.Keys, p) {
        return Err(NotADirectoryError);
      }
      if p in dirs {
        return Err(IsADirectoryError);
      }
      if Parent(p) !in dirs {
        return Err(FileNotFoundError);
      }
      files := files[p := c];
      r := Ok(());
    }

    /** `os.remove(p)` on a path that exists: a file goes, a directory raises. */
    method Remove(p: string) returns (r: Result<(), PyError>)
      requires Exists(p)
      modifies this
      ensures p in old(files) ==> r == Ok(()) && files == old(files) - {p}
      ensures p !in old(files) ==> r == Err(IsADirectoryError) && files == old(files)
    {
      if p !in files {
        return Err(IsADirectoryError);
      }
      files := files - {p};
      r := Ok(());
    }
  }
}
