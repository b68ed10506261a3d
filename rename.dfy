/**
  Renaming the cloned template after the new project (`renameProject` and
  its local `replaceFileContentWithProjectName`).

  Relocate-and-replace tests and rewrites the whole absolute path: when the
  search string occurs in it, the entry is moved to `path.Replace(search, x)`;
  then the file at the resulting path has every occurrence in its text
  replaced. The rename itself enters `./<name>`, runs six relocations and one
  directory move in a fixed order, and goes back to `../`. Nothing is undone
  when a step throws.
*/
module Rename {
  import opened Base
  import opened OrdinalText
  import opened IO

  /** What `ToPascalCase()` and `ToCamelCase()` (not part of this model) return for the project name. */
  datatype CaseForms = CaseForms(pascal: string, camel: string)

  /** Where relocate-and-replace leaves the entry at `path`. */
  function RelocatedPath(path: Path, search: string, replacement: string): Path
    requires search != []
  {
    if Contains(path, search) then Replace(path, search, replacement) else path
  }

  /** `replaceFileContentWithProjectName(path, search, replacement)` on a disk. */
  function Relocation(d: Disk, path: Path, search: string, replacement: string): Run
    requires search != []
  {
    var target := RelocatedPath(path, search, replacement);
    var moved := if Contains(path, search) then Attempt(d, Move(d, path, target)) else Run(d, None);
    if moved.failure.Some? then moved
    else match ReadAll(moved.disk, target)
      case Err(e) => Run(moved.disk, Some(e))
      case Ok(text) => Attempt(moved.disk, WriteAll(moved.disk, target, Replace(text, search, replacement)))
  }

  /**
    A relocation that returns normally found a file at `path`. When the
    search string occurs in the path, the entry is gone from `path` and sits
    at the replaced path; otherwise the path is kept. The text at the
    resulting path is the old text with the search string replaced, and
    every other entry is untouched.
  */
  lemma RelocationEffect(d: Disk, path: Path, search: string, replacement: string)
    requires search != []
    ensures var r := Relocation(d, path, search, replacement);
      var target := RelocatedPath(path, search, replacement);
      r.failure == None ==>
        && path in d.files
        && (target != path <==> Contains(path, search))
        && (target != path ==> path !in r.disk.files)
        && target in r.disk.files
        && r.disk.files[target] == Replace(d.files[path], search, replacement)
        && r.disk.dirs == d.dirs
        && (forall p :: p != path && p != target ==> (p in r.disk.files <==> p in d.files))
        && (forall p :: p != path && p != target && p in d.files ==> r.disk.files[p] == d.files[p])
  {
    var target := RelocatedPath(path, search, replacement);
    if Contains(path, search) && path !in d.files && Move(d, path, target).Ok? {
      assert !Exists(d, target);
      MoveTreeFiles(d, path, target);
    }
  }

  /** A relocation whose search string occurs in neither the path nor the text changes nothing on disk. */
  lemma {:induction false} RelocationWithoutMatch(d: Disk, path: Path, search: string, replacement: string)
    requires search != [] && !Contains(path, search)
    requires path in d.files ==> !Contains(d.files[path], search)
    ensures Relocation(d, path, search, replacement).disk == d
  {
    if path in d.files {
      ReplaceWithoutMatch(d.files[path], search, replacement);
      assert d.files[path := d.files[path]] == d.files;
    }
  }

  /**
    Two relocations of one file whose path holds neither search string
    rewrite its text with the first replacement and then the second.
  */
  lemma RelocationTwice(d: Disk, path: Path, s1: string, r1: string, s2: string, r2: string)
    requires s1 != [] && s2 != [] && !Contains(path, s1) && !Contains(path, s2)
    ensures var first := Relocation(d, path, s1, r1);
      var second := Relocation(first.disk, path, s2, r2);
      first.failure == None && second.failure == None ==>
        path in d.files && second.disk.files[path] == Replace(Replace(d.files[path], s1, r1), s2, r2)
  {
    var first := Relocation(d, path, s1, r1);
    RelocationEffect(d, path, s1, r1);
    RelocationEffect(first.disk, path, s2, r2);
  }

  /** `replaceFileContentWithProjectName`: move when the path holds the search string, then rewrite the text. */
  method ReplaceFileContentWithProjectName(fs: FileSystem, path: Path, search: string, projectName: string)
    returns (failure: Option<IoError>)
    requires search != []
    modifies fs`files, fs`dirs
    ensures Run(fs.Contents(), failure) == Relocation(old(fs.Contents()), path, search, projectName)
  {
    var at := path;
    if Contains(path, search) {
      var newPath := Replace(path, search, projectName);
      failure := fs.DirectoryMove(path, newPath);
      if failure.Some? {
        return;
      }
      at := newPath;
    }
    var fileContent := fs.ReadAllText(at);
    if fileContent.Err? {
      return Some(fileContent.error);
    }
    failure := fs.WriteAllText(at, Replace(fileContent.value, search, projectName));
  }

  /** One step of the rename. */
  datatype RenameStep =
    | ReplaceIn(path: Path, search: string, replacement: string)
    | MoveDirectory(source: Path, destination: Path)

  predicate ValidStep(step: RenameStep) {
    step.ReplaceIn? ==> step.search != []
  }

  /** `{projectPath}`: where `src/starterProject` is moved to. */
  function ProjectPath(here: Path, cases: CaseForms): Path {
    here + "/src/" + cases.camel
  }

  /** The settings file that is rewritten twice. */
  function AppSettingsPath(here: Path, cases: CaseForms): Path {
    ProjectPath(here, cases) + "/WebAPI/appsettings.json"
  }

  /** How many steps `renameProject` takes between entering and leaving the project directory. */
  const RenameStepCount: nat := 7

  /** Step `k` of `renameProject`, run from the project directory `here`, in source order. */
  function RenameStepAt(here: Path, cases: CaseForms, k: nat): (step: RenameStep)
    requires k < RenameStepCount
    ensures ValidStep(step)
  {
    match k
    case 0 => ReplaceIn(here + "/coreTemplate.sln", "coreTemplate", cases.pascal)
    case 1 => ReplaceIn(here + "/coreTemplate.sln.DotSettings", "coreTemplate", cases.pascal)
    case 2 => MoveDirectory(here + "/src/starterProject", ProjectPath(here, cases))
    case 3 => ReplaceIn(here + "/" + cases.pascal + ".sln", "starterProject", cases.camel)
    case 4 => ReplaceIn(here + "/Application.Tests/Application.Tests.csproj", "starterProject", cases.camel)
    case 5 => ReplaceIn(AppSettingsPath(here, cases), "StarterProject", cases.pascal)
    case 6 => ReplaceIn(AppSettingsPath(here, cases), "starterProject", cases.camel)
  }

  function RunStep(d: Disk, step: RenameStep): Run
    requires ValidStep(step)
  {
    match step
    case ReplaceIn(path, search, replacement) => Relocation(d, path, search, replacement)
    case MoveDirectory(source, destination) => Attempt(d, Move(d, source, destination))
  }

  /** Steps `from` up to (not including) `to`, one after another, stopping at the first that throws. */
  function RenameRun(d: Disk, here: Path, cases: CaseForms, from: nat, to: nat): Run
    requires from <= to <= RenameStepCount
    decreases RenameStepCount - from
  {
    if from == to then Run(d, None)
    else
      var r := RunStep(d, RenameStepAt(here, cases, from));
      if r.failure.Some? then r else RenameRun(r.disk, here, cases, from + 1, to)
  }

  /** `renameProject(name)` from working directory `cwd`. */
  function RenameOutcome(d: Disk, cwd: Path, name: string, cases: CaseForms): Session {
    match ChangeDirectory(d, cwd, "./" + name)
    case Err(e) => Session(d, cwd, Some(e))
    case Ok(here) =>
      var r := RenameRun(d, here, cases, 0, RenameStepCount);
      if r.failure.Some? then Session(r.disk, here, r.failure)
      else match ChangeDirectory(r.disk, here, "../")
        case Err(e) => Session(r.disk, here, Some(e))
        case Ok(back) => Session(r.disk, back, None)
  }

  /**
    Entering `./<name>` (a name without separators) reaches `cwd/<name>` exactly
    when that directory exists, and "../" from there always leads back to `cwd`.
  */
  lemma EnterAndLeave(d: Disk, later: Disk, cwd: Path, name: string)
    requires '/' !in name
    ensures var here := cwd + "/" + name;
      && ChangeDirectory(d, cwd, "./" + name) == (if here in d.dirs then Ok(here) else Err(DirectoryNotFound(here)))
      && ChangeDirectory(later, here, "../") == Ok(cwd)
  {
    var here := cwd + "/" + name;
    var rel := "./" + name;
    assert rel[1] == '/' && rel[..2] == "./" && rel[2..] == name;
    assert Resolve(cwd, rel) == here;
    assert !Under(cwd, here);
    ParentOfChild(cwd, name);
    assert '/' in here by { assert here[|cwd|] == '/'; }
    UnderParent(here);
  }

  /**
    A rename that returns normally leaves the working directory where it
    found it (for a name without separators); one that throws after entering
    the project leaves it inside the project, since nothing restores it.
  */
  lemma RenameRestoresWorkingDirectory(d: Disk, cwd: Path, name: string, cases: CaseForms)
    requires '/' !in name
    ensures var s := RenameOutcome(d, cwd, name, cases);
      && (s.failure == None ==> s.cwd == cwd)
      && (s.failure.Some? ==> s.cwd == if cwd + "/" + name in d.dirs then cwd + "/" + name else cwd)
  {
    var here := cwd + "/" + name;
    EnterAndLeave(d, RenameRun(d, here, cases, 0, RenameStepCount).disk, cwd, name);
  }

  /** The last two steps are the two relocations of the settings file, in that order. */
  lemma AppSettingsSteps(d: Disk, here: Path, cases: CaseForms)
    ensures var app := AppSettingsPath(here, cases);
      var first := Relocation(d, app, "StarterProject", cases.pascal);
      RenameRun(d, here, cases, 5, RenameStepCount)
        == if first.failure.Some? then first else Relocation(first.disk, app, "starterProject", cases.camel)
  {
    var app := AppSettingsPath(here, cases);
    var fifth, sixth := RenameStepAt(here, cases, 5), RenameStepAt(here, cases, 6);
    assert fifth == ReplaceIn(app, "StarterProject", cases.pascal);
    assert sixth == ReplaceIn(app, "starterProject", cases.camel);
    var first := RunStep(d, fifth);
    assert RenameRun(first.disk, here, cases, 6, RenameStepCount) == RunStep(first.disk, sixth);
  }

  /**
    The settings file is rewritten twice, "StarterProject" first and
    "starterProject" second: when its path holds neither and the last two
    steps return normally, it holds the text it had before them with both
    replacements applied in that order.
  */
  lemma RenameRewritesAppSettingsInOrder(d: Disk, here: Path, cases: CaseForms)
    requires var app := AppSettingsPath(here, cases);
      !Contains(app, "StarterProject") && !Contains(app, "starterProject")
    ensures var app := AppSettingsPath(here, cases);
      var after := RenameRun(d, here, cases, 5, RenameStepCount);
      after.failure == None ==>
        && app in d.files
        && app in after.disk.files
        && after.disk.files[app] ==
             Replace(Replace(d.files[app], "StarterProject", cases.pascal), "starterProject", cases.camel)
  {
    var app := AppSettingsPath(here, cases);
    var first := Relocation(d, app, "StarterProject", cases.pascal);
    AppSettingsSteps(d, here, cases);
    RelocationTwice(d, app, "StarterProject", cases.pascal, "starterProject", cases.camel);
    RelocationEffect(first.disk, app, "starterProject", cases.camel);
  }

  /** The relocations and the move of `renameProject`, from the project directory `here`. */
  method RunRenameSteps(fs: FileSystem, here: Path, cases: CaseForms) returns (failure: Option<IoError>)
    modifies fs`files, fs`dirs
    ensures Run(fs.Contents(), failure) == RenameRun(old(fs.Contents()), here, cases, 0, RenameStepCount)
  {
    ghost var d := fs.Contents();
    var projectPath := here + "/src/" + cases.camel;
    failure := ReplaceFileContentWithProjectName(fs, here + "/coreTemplate.sln", "coreTemplate", cases.pascal);
    if failure.Some? {
      return;
    }
    assert RenameRun(d, here, cases, 0, 7) == RenameRun(fs.Contents(), here, cases, 1, 7);
    failure := ReplaceFileContentWithProjectName(fs, here + "/coreTemplate.sln.DotSettings", "coreTemplate", cases.pascal);
    if failure.Some? {
      return;
    }
    assert RenameRun(d, here, cases, 0, 7) == RenameRun(fs.Contents(), here, cases, 2, 7);
    failure := fs.DirectoryMove(here + "/src/starterProject", projectPath);
    if failure.Some? {
      return;
    }
    assert RenameRun(d, here, cases, 0, 7) == RenameRun(fs.Contents(), here, cases, 3, 7);
    failure := ReplaceFileContentWithProjectName(fs, here + "/" + cases.pascal + ".sln", "starterProject", cases.camel);
    if failure.Some? {
      return;
    }
    assert RenameRun(d, here, cases, 0, 7) == RenameRun(fs.Contents(), here, cases, 4, 7);
    failure := ReplaceFileContentWithProjectName(fs, here + "/Application.Tests/Application.Tests.csproj", "starterProject", cases.camel);
    if failure.Some? {
      return;
    }
    assert RenameRun(d, here, cases, 0, 7) == RenameRun(fs.Contents(), here, cases, 5, 7);
    failure := ReplaceFileContentWithProjectName(fs, projectPath + "/WebAPI/appsettings.json", "StarterProject", cases.pascal);
    if failure.Some? {
      return;
    }
    assert RenameRun(d, here, cases, 0, 7) == RenameRun(fs.Contents(), here, cases, 6, 7);
    failure := ReplaceFileContentWithProjectName(fs, projectPath + "/WebAPI/appsettings.json", "starterProject", cases.camel);
  }

  /** `renameProject`: enter the clone, run the steps in order, go back up. */
  method RenameProject(fs: FileSystem, projectName: string, cases: CaseForms) returns (failure: Option<IoError>)
    modifies fs
    ensures Session(fs.Contents(), fs.cwd, failure) == RenameOutcome(old(fs.Contents()), old(fs.cwd), projectName, cases)
  {
    failure := fs.SetCurrentDirectory("./" + projectName);
    if failure.Some? {
      return;
    }
    failure := RunRenameSteps(fs, fs.cwd, cases);
    if failure.Some? {
      return;
    }
    failure := fs.SetCurrentDirectory("../");
  }
}
