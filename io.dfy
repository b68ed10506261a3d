/**
  The process state the scaffolding handler works on: the disk (text files
  and directories, keyed by absolute '/'-separated path) and the current
  working directory. The `System.IO` calls the handler makes are modelled as
  pure functions on a `Disk` value, each failing the way .NET throws, and as
  methods of `FileSystem` that apply them to the state.
  Paths are compared as written: no normalisation of ".", ".." or case.
*/
module IO {
  import opened Base

  type Path = string

  /** `p` lies strictly inside directory `dir`. */
  predicate Under(p: Path, dir: Path) {
    |dir| < |p| && p[..|dir| + 1] == dir + "/"
  }

  /** `p` is `dir` itself or lies inside it. */
  predicate InTree(p: Path, dir: Path) {
    p == dir || Under(p, dir)
  }

  /** Index of the last '/' in `p`, or -1 when there is none. */
  function LastSeparator(p: Path): (i: int)
    ensures -1 <= i < |p|
    ensures i >= 0 ==> p[i] == '/' && forall j :: i < j < |p| ==> p[j] != '/'
    ensures i == -1 ==> '/' !in p
  {
    if p == [] then -1
    else if p[|p| - 1] == '/' then |p| - 1
    else LastSeparator(p[..|p| - 1])
  }

  /** The directory that contains `p`: everything before its last separator. */
  function Parent(p: Path): Path {
    var i := LastSeparator(p);
    if i < 0 then "" else p[..i]
  }

  /** A separator-free name appended to a directory has that directory as parent. */
  lemma ParentOfChild(dir: Path, name: string)
    requires '/' !in name
    ensures Parent(dir + "/" + name) == dir
  {
    var p := dir + "/" + name;
    assert p[|dir|] == '/';
    forall j | |dir| < j < |p| ensures p[j] != '/' {
      assert p[j] == name[j - |dir| - 1];
    }
    assert LastSeparator(p) == |dir|;
    assert p[..|dir|] == dir;
  }

  /** Every path with a separator lies inside its parent. */
  lemma UnderParent(p: Path)
    requires '/' in p
    ensures Under(p, Parent(p))
  {
    var i := LastSeparator(p);
    assert p[..i + 1] == p[..i] + [p[i]];
  }

  /**
    The directory a `SetCurrentDirectory` argument names, relative to `cwd`:
    "../" is the parent, "./x" and "x" are children, "/x" is absolute.
  */
  function Resolve(cwd: Path, rel: Path): Path {
    if rel == "../" || rel == ".." then Parent(cwd)
    else if |rel| >= 2 && rel[..2] == "./" then cwd + "/" + rel[2..]
    else if |rel| >= 1 && rel[0] == '/' then rel
    else cwd + "/" + rel
  }

  /** The exceptions of the `System.IO` calls the handler makes. */
  datatype IoError =
    | DirectoryNotFound(path: Path)
    | FileNotFound(path: Path)
    | DestinationExists(path: Path)
    | SourceIsDestination(path: Path)
    | AccessDenied(path: Path)

  /** Text files by path, and the set of existing directories. */
  datatype Disk = Disk(files: map<Path, string>, dirs: set<Path>)

  /**
    The disk after a step, and the exception that stopped it, if any. The
    deletions and line filters never move the working directory, so a `Run`
    carries none.
  */
  datatype Run = Run(disk: Disk, failure: Option<IoError>)

  /**
    A `Run` that also moved the working directory: the rename enters the
    project and leaves it again, and a failure in between strands it there.
  */
  datatype Session = Session(disk: Disk, cwd: Path, failure: Option<IoError>)

  predicate Exists(d: Disk, p: Path) {
    p in d.files || p in d.dirs
  }

  /** A failed primitive leaves the disk as it was. */
  function Attempt(d: Disk, r: Result<Disk, IoError>): (run: Run)
    ensures run.failure == None <==> r.Ok?
    ensures run.disk == if r.Ok? then r.value else d
  {
    match r
    case Ok(d') => Run(d', None)
    case Err(e) => Run(d, Some(e))
  }

  /**
    `Directory.SetCurrentDirectory(rel)`: the resolved directory must exist;
    an ancestor of the current directory always does.
  */
  function ChangeDirectory(d: Disk, cwd: Path, rel: Path): (r: Result<Path, IoError>)
    ensures r.Ok? <==> Resolve(cwd, rel) in d.dirs || Under(cwd, Resolve(cwd, rel))
    ensures r.Ok? ==> r.value == Resolve(cwd, rel)
  {
    var target := Resolve(cwd, rel);
    if target in d.dirs || Under(cwd, target) then Ok(target) else Err(DirectoryNotFound(target))
  }

  /** `dst` followed by what comes after `src` in `p`. */
  function Rebase(p: Path, src: Path, dst: Path): (q: Path)
    requires InTree(p, src)
    ensures |q| == |p| - |src| + |dst|
  {
    dst + p[|src|..]
  }

  /** Rebasing keeps a path inside the destination tree and tells different paths apart. */
  lemma RebaseFacts(src: Path, dst: Path)
    ensures forall p {:trigger Rebase(p, src, dst)} :: InTree(p, src) ==> InTree(Rebase(p, src, dst), dst)
    ensures forall p, q {:trigger Rebase(p, src, dst), Rebase(q, src, dst)} ::
      InTree(p, src) && InTree(q, src) && Rebase(p, src, dst) == Rebase(q, src, dst) ==> p == q
  {
    forall p | InTree(p, src) ensures InTree(Rebase(p, src, dst), dst) {
      if p != src {
        assert p[..|src| + 1][|src|] == '/';
        assert Rebase(p, src, dst)[..|dst| + 1] == dst + [p[|src|]];
      }
    }
    forall p, q | InTree(p, src) && InTree(q, src) && Rebase(p, src, dst) == Rebase(q, src, dst)
      ensures p == q
    {
      assert p[|src|..] == Rebase(p, src, dst)[|dst|..];
      assert q[|src|..] == Rebase(q, src, dst)[|dst|..];
      assert p == p[..|src|] + p[|src|..];
      assert q == q[..|src|] + q[|src|..];
    }
  }

  /** Every entry in the tree at `src` moved to the same place below `dst`. */
  function MoveTree(d: Disk, src: Path, dst: Path): Disk {
    RebaseFacts(src, dst);
    var kept := map p | p in d.files && !InTree(p, src) :: d.files[p];
    var moved := map p | p in d.files && InTree(p, src) :: Rebase(p, src, dst) := d.files[p];
    Disk(kept + moved,
         (set p | p in d.dirs && !InTree(p, src)) + (set p | p in d.dirs && InTree(p, src) :: Rebase(p, src, dst)))
  }

  /**
    After a tree move every file of the tree sits at its rebased path with
    its text, and every file outside both trees is where it was, unchanged.
  */
  lemma MoveTreeFiles(d: Disk, src: Path, dst: Path)
    ensures var m := MoveTree(d, src, dst);
      && (forall p :: p in d.files && InTree(p, src) ==>
            Rebase(p, src, dst) in m.files && m.files[Rebase(p, src, dst)] == d.files[p])
      && (forall p :: p in m.files && !Under(p, dst) && p != dst ==>
            p in d.files && !InTree(p, src) && m.files[p] == d.files[p])
      && (forall p :: p in d.files && !InTree(p, src) && !InTree(p, dst) ==> p in m.files && m.files[p] == d.files[p])
      && (src !in d.files && dst !in d.files ==> dst !in m.files)
  {
    RebaseFacts(src, dst);
  }

  /** After a tree move every directory of the tree sits at its rebased path and the others stay. */
  lemma MoveTreeDirs(d: Disk, src: Path, dst: Path)
    ensures var m := MoveTree(d, src, dst);
      && (forall p :: p in d.dirs && InTree(p, src) ==> Rebase(p, src, dst) in m.dirs)
      && (forall p :: p in m.dirs && !Under(p, dst) && p != dst ==> p in d.dirs && !InTree(p, src))
      && (forall p :: p in d.dirs && !InTree(p, src) && !InTree(p, dst) ==> p in m.dirs)
  {
    RebaseFacts(src, dst);
  }

  /**
    `Directory.Move(src, dst)`, which moves a file or a whole directory.
    It fails when the two paths are equal, the source does not exist, the
    destination exists, or the destination's parent directory does not.
  */
  function Move(d: Disk, src: Path, dst: Path): (r: Result<Disk, IoError>)
    ensures r.Ok? <==> src != dst && Exists(d, src) && !Exists(d, dst) && Parent(dst) in d.dirs
    ensures r.Ok? && src in d.files ==>
      r.value == Disk(d.files - {src} + map[dst := d.files[src]], d.dirs)
  {
    if src == dst then Err(SourceIsDestination(src))
    else if !Exists(d, src) then Err(DirectoryNotFound(src))
    else if Exists(d, dst) then Err(DestinationExists(dst))
    else if Parent(dst) !in d.dirs then Err(DirectoryNotFound(dst))
    else if src in d.files then Ok(Disk(d.files - {src} + map[dst := d.files[src]], d.dirs))
    else Ok(MoveTree(d, src, dst))
  }

  /** The disk without the tree at `dir`. */
  function Prune(d: Disk, dir: Path): (r: Disk)
    ensures forall p :: p in r.files <==> p in d.files && !InTree(p, dir)
    ensures forall p :: p in r.files ==> r.files[p] == d.files[p]
    ensures forall p :: p in r.dirs <==> p in d.dirs && !InTree(p, dir)
  {
    Disk(map p | p in d.files && !InTree(p, dir) :: d.files[p], set p | p in d.dirs && !InTree(p, dir))
  }

  /** `Directory.Delete(dir, recursive: true)`: the directory must exist. */
  function DeleteTree(d: Disk, dir: Path): (r: Result<Disk, IoError>)
    ensures r.Ok? <==> dir in d.dirs
    ensures r.Ok? ==> r.value == Prune(d, dir)
  {
    if dir in d.dirs then Ok(Prune(d, dir)) else Err(DirectoryNotFound(dir))
  }

  /**
    `File.Delete(p)` as .NET behaves on Windows: a missing file is no error,
    a missing parent directory is, and so is a directory at `p`. (On Unix
    .NET treats a missing parent directory as no error too.)
  */
  function DeleteFile(d: Disk, p: Path): (r: Result<Disk, IoError>)
    ensures r.Ok? <==> p !in d.dirs && Parent(p) in d.dirs
    ensures r.Ok? ==> r.value.files == d.files - {p} && r.value.dirs == d.dirs
  {
    if p in d.dirs then Err(AccessDenied(p))
    else if Parent(p) !in d.dirs then Err(DirectoryNotFound(p))
    else Ok(Disk(d.files - {p}, d.dirs))
  }

  /** `File.ReadAllText(p)`. */
  function ReadAll(d: Disk, p: Path): (r: Result<string, IoError>)
    ensures r.Ok? <==> p in d.files
    ensures r.Ok? ==> r.value == d.files[p]
  {
    if p in d.files then Ok(d.files[p]) else Err(FileNotFound(p))
  }

  /** `File.WriteAllText(p, text)`: creates or overwrites a file in an existing directory. */
  function WriteAll(d: Disk, p: Path, text: string): (r: Result<Disk, IoError>)
    ensures r.Ok? <==> p !in d.dirs && Parent(p) in d.dirs
    ensures r.Ok? ==> r.value == Disk(d.files[p := text], d.dirs)
  {
    if p in d.dirs then Err(AccessDenied(p))
    else if Parent(p) !in d.dirs then Err(DirectoryNotFound(p))
    else Ok(Disk(d.files[p := text], d.dirs))
  }

  /** The files inside `root`, at any depth. */
  function FilesUnder(d: Disk, root: Path): (s: set<Path>)
    ensures forall p :: p in s <==> p in d.files && Under(p, root)
  {
    set p | p in d.files && Under(p, root)
  }

  /** The process: its disk and its current working directory. */
  class FileSystem {
    var files: map<Path, string>
    var dirs: set<Path>
    var cwd: Path

    function Contents(): Disk
      reads this
    {
      Disk(files, dirs)
    }

    constructor (disk: Disk, cwd: Path)
      ensures Contents() == disk && this.cwd == cwd
    {
      files, dirs := disk.files, disk.dirs;
      this.cwd := cwd;
    }

    /** Makes the outcome of a primitive the new disk when it succeeded. */
    method Commit(r: Result<Disk, IoError>) returns (failure: Option<IoError>)
      modifies this`files, this`dirs
      ensures Run(Contents(), failure) == Attempt(old(Contents()), r)
    {
      match r
      case Ok(d) =>
        files, dirs := d.files, d.dirs;
        failure := None;
      case Err(e) =>
        failure := Some(e);
    }

    method SetCurrentDirectory(rel: Path) returns (failure: Option<IoError>)
      modifies this`cwd
      ensures var r := ChangeDirectory(Contents(), old(cwd), rel);
        if r.Ok? then failure == None && cwd == r.value else failure == Some(r.error) && cwd == old(cwd)
    {
      var r := ChangeDirectory(Contents(), cwd, rel);
      match r
      case Ok(target) =>
        cwd := target;
        failure := None;
      case Err(e) =>
        failure := Some(e);
    }

    method DirectoryMove(src: Path, dst: Path) returns (failure: Option<IoError>)
      modifies this`files, this`dirs
      ensures Run(Contents(), failure) == Attempt(old(Contents()), Move(old(Contents()), src, dst))
    {
      failure := Commit(Move(Contents(), src, dst));
    }

    method DirectoryDelete(dir: Path) returns (failure: Option<IoError>)
      modifies this`files, this`dirs
      ensures Run(Contents(), failure) == Attempt(old(Contents()), DeleteTree(old(Contents()), dir))
    {
      failure := Commit(DeleteTree(Contents(), dir));
    }

    method FileDelete(p: Path) returns (failure: Option<IoError>)
      modifies this`files, this`dirs
      ensures Run(Contents(), failure) == Attempt(old(Contents()), DeleteFile(old(Contents()), p))
    {
      failure := Commit(DeleteFile(Contents(), p));
    }

    method ReadAllText(p: Path) returns (r: Result<string, IoError>)
      ensures r == ReadAll(Contents(), p)
    {
      r := ReadAll(Contents(), p);
    }

    method WriteAllText(p: Path, text: string) returns (failure: Option<IoError>)
      modifies this`files, this`dirs
      ensures Run(Contents(), failure) == Attempt(old(Contents()), WriteAll(old(Contents()), p, text))
    {
      failure := Commit(WriteAll(Contents(), p, text));
    }

    /** `DirectoryHelper.DeleteDirectory`: removes the tree when it is there. */
    method DeleteDirectory(dir: Path)
      modifies this`files, this`dirs
      ensures Contents() == Prune(old(Contents()), dir)
    {
      var d := Prune(Contents(), dir);
      files, dirs := d.files, d.dirs;
    }

    /** `DirectoryHelper.GetFilesInDirectoryTree(root, "*")`, as a set. */
    method GetFilesInDirectoryTree(root: Path) returns (paths: set<Path>)
      ensures paths == FilesUnder(Contents(), root)
    {
      paths := FilesUnder(Contents(), root);
    }
  }
}
