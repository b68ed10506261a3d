/**
  The `new` command: `CreateNewProjectCommand` and its stream handler.

  `Handle` clones the starter template into `./<name>`, renames it after the
  project, strips the security feature when asked to, deletes the cloned
  `.git` directory, lists the project's files and initialises a fresh git
  repository. It reports progress by yielding one and the same mutable
  response object four times, overwriting its fields in between; the model
  records a value snapshot of the response at each yield.

  The git subprocess is not part of this model: each git call is given as
  the disk it leaves behind, or `None` when it fails.
*/
module CreateNewProject {
  import opened Base
  import opened IO
  import opened Rename
  import opened SecurityStripping

  const CloningStatus: string := "Cloning starter project and core packages..."
  const PreparingStatus: string := "Preparing project..."
  const GitInitStatus: string := "Initializing git repository with submodules..."
  const CompletedStatus: string := "Completed."

  const ClonedMessage: string := "Starter project has been cloned from 'https://github.com/masterbfk/coreTemplate'."
  const GitInitializedMessage: string := "Git repository has been initialized."

  function PreparedMessage(cases: CaseForms): string {
    "Project has been prepared with " + cases.pascal + "."
  }

  function ConfigurationWarning(cases: CaseForms): string {
    ":warning: Check the configuration that has name 'appsettings.json' in 'src/" + cases.camel + "'."
  }

  const UpdateDatabaseWarning: string :=
    ":warning: Run 'Update-Database' nuget command on the Persistence layer to apply initial migration."

  /** The arguments of the three git calls. */
  function CloneArguments(projectName: string): string {
    "clone https://github.com/masterbfk/coreTemplate.git ./" + projectName
  }

  const InitArguments: string := "init"
  const BranchArguments: string := "branch -m master main"

  /** The four status messages, in the order they are yielded. */
  const Statuses: seq<string> := [CloningStatus, PreparingStatus, GitInitStatus, CompletedStatus]

  /** The outcome messages of the clone, the preparation and the git initialisation. */
  function PhaseMessages(cases: CaseForms): seq<string> {
    [ClonedMessage, PreparedMessage(cases), GitInitializedMessage]
  }

  /**
    The response's four properties. The handler overwrites them one by one
    and yields the response between phases; a consumer sees the values they
    hold at that moment.
  */
  datatype CreatedNewProjectResponse = CreatedNewProjectResponse(
    currentStatusMessage: Option<string>,
    lastOperationMessage: Option<string>,
    outputMessage: Option<string>,
    newFilePathsResult: Option<set<Path>>)

  /** `new CreatedNewProjectResponse()`: nothing set. */
  const Blank := CreatedNewProjectResponse(None, None, None, None)

  /** What makes `Handle` stop: an I/O exception or a failing git call. */
  datatype Failure = Io(error: IoError) | GitFailed(arguments: string)

  /** What each git call leaves on disk, or `None` when it fails. */
  datatype GitEffects = GitEffects(clone: Option<Disk>, init: Option<Disk>, branch: Option<Disk>)

  /**
    The disk and working directory after a phase, and what stopped it, if
    anything. Unlike `IO.Session`, a phase of the handler can also stop at a
    failed git call, so its failure is a `Failure` rather than an `IoError`.
  */
  datatype Stage = Stage(disk: Disk, cwd: Path, failure: Option<Failure>)

  /**
    How far a run got: the number of times it yielded, the file listing it
    took (meaningful once it got that far), and the state it leaves behind.
  */
  datatype Outcome = Outcome(yieldCount: nat, listing: set<Path>, disk: Disk, cwd: Path, failure: Option<Failure>)

  /**
    The response as it stands at the `k`-th `yield return`: each yield
    follows the assignments the handler makes since the previous one.
  */
  function ResponseAt(k: nat, cases: CaseForms, listing: set<Path>): CreatedNewProjectResponse
    requires k < 4
  {
    if k == 0 then Blank.(currentStatusMessage := Some(CloningStatus))
    else
      var before := ResponseAt(k - 1, cases, listing);
      if k == 1 then
        before.(outputMessage := None)
              .(lastOperationMessage := Some(ClonedMessage))
              .(currentStatusMessage := Some(PreparingStatus))
      else if k == 2 then
        before.(lastOperationMessage := Some(PreparedMessage(cases)))
              .(currentStatusMessage := Some(GitInitStatus))
      else
        before.(lastOperationMessage := Some(GitInitializedMessage))
              .(currentStatusMessage := Some(CompletedStatus))
              .(newFilePathsResult := Some(listing))
              .(outputMessage := Some(ConfigurationWarning(cases)))
              .(outputMessage := Some(UpdateDatabaseWarning))
  }

  /**
    Each field of the `k`-th snapshot: the `k`-th status, the outcome of the
    phase before it (none before the first), and the output message and file
    listing only on the last.
  */
  lemma {:induction false} ResponseFields(k: nat, cases: CaseForms, listing: set<Path>)
    requires k < 4
    ensures var r := ResponseAt(k, cases, listing);
      && r.currentStatusMessage == Some(Statuses[k])
      && r.lastOperationMessage == (if k == 0 then None else Some(PhaseMessages(cases)[k - 1]))
      && r.outputMessage == (if k == 3 then Some(UpdateDatabaseWarning) else None)
      && r.newFilePathsResult == (if k == 3 then Some(listing) else None)
  {
    if k > 0 {
      ResponseFields(k - 1, cases, listing);
    }
  }

  /** The first `n` snapshots. */
  function Events(n: nat, cases: CaseForms, listing: set<Path>): (events: seq<CreatedNewProjectResponse>)
    requires n <= 4
    ensures |events| == n
  {
    if n == 0 then [] else Events(n - 1, cases, listing) + [ResponseAt(n - 1, cases, listing)]
  }

  /** `cloneCorePackagesAndStarterProject`: git clones into `./<name>`. */
  function CloneOutcome(d: Disk, cwd: Path, projectName: string, git: GitEffects): Stage {
    match git.clone
    case None => Stage(d, cwd, Some(GitFailed(CloneArguments(projectName))))
    case Some(cloned) => Stage(cloned, cwd, None)
  }

  /**
    `renameProject`, then, unless the flag keeps the security feature, the
    strip of `plan` (`removeSecurityMechanism` strips `SecurityMechanism`).
  */
  function Preparation(d: Disk, cwd: Path, projectName: string, keepSecurity: bool, cases: CaseForms, plan: RemovalPlan)
    : Stage
  {
    var renamed := RenameOutcome(d, cwd, projectName, cases);
    if renamed.failure.Some? then Stage(renamed.disk, renamed.cwd, Some(Io(renamed.failure.value)))
    else if keepSecurity then Stage(renamed.disk, renamed.cwd, None)
    else
      var stripped := StripPlan(renamed.disk, renamed.cwd, cases, plan);
      Stage(stripped.disk, renamed.cwd, if stripped.failure.Some? then Some(Io(stripped.failure.value)) else None)
  }

  /** `initializeGitRepository`: enter `./<name>`, `git init`, rename the branch, go back to `../`. */
  function GitInitOutcome(d: Disk, cwd: Path, projectName: string, git: GitEffects): Stage {
    match ChangeDirectory(d, cwd, "./" + projectName)
    case Err(e) => Stage(d, cwd, Some(Io(e)))
    case Ok(here) =>
      match git.init
      case None => Stage(d, here, Some(GitFailed(InitArguments)))
      case Some(initialised) =>
        match git.branch
        case None => Stage(initialised, here, Some(GitFailed(BranchArguments)))
        case Some(branched) =>
          match ChangeDirectory(branched, here, "../")
          case Err(e) => Stage(branched, here, Some(Io(e)))
          case Ok(back) => Stage(branched, back, None)
  }

  /** The project directory `Handle` works on. */
  function ProjectRoot(cwd: Path, projectName: string): Path {
    cwd + "/" + projectName
  }

  /** The git metadata cloned with the template. */
  function GitMetadata(cwd: Path, projectName: string): Path {
    ProjectRoot(cwd, projectName) + "/.git"
  }

  /** From the third yield on: drop the cloned `.git`, list the files, initialise git. */
  function AfterPreparation(d: Disk, cwd: Path, projectName: string, git: GitEffects): Outcome {
    var cleaned := Prune(d, GitMetadata(cwd, projectName));
    var listing := FilesUnder(cleaned, ProjectRoot(cwd, projectName));
    var initialised := GitInitOutcome(cleaned, cwd, projectName, git);
    Outcome(if initialised.failure.Some? then 3 else 4, listing, initialised.disk, initialised.cwd, initialised.failure)
  }

  /** From the second yield on: prepare the project, then the rest. */
  function AfterClone(d: Disk, cwd: Path, projectName: string, keepSecurity: bool, cases: CaseForms,
                      git: GitEffects, plan: RemovalPlan): Outcome
  {
    var prepared := Preparation(d, cwd, projectName, keepSecurity, cases, plan);
    if prepared.failure.Some? then Outcome(2, {}, prepared.disk, prepared.cwd, prepared.failure)
    else AfterPreparation(prepared.disk, prepared.cwd, projectName, git)
  }

  /**
    `Handle` on a disk: how many times it yields, the listing it reports and
    where it leaves the process. The handler strips `SecurityMechanism`; the
    lemmas below hold for any removal plan.
  */
  function HandleOutcome(d: Disk, cwd: Path, projectName: string, keepSecurity: bool, cases: CaseForms,
                         git: GitEffects, plan: RemovalPlan): Outcome
  {
    var cloned := CloneOutcome(d, cwd, projectName, git);
    if cloned.failure.Some? then Outcome(1, {}, cloned.disk, cloned.cwd, cloned.failure)
    else AfterClone(cloned.disk, cloned.cwd, projectName, keepSecurity, cases, git, plan)
  }

  /** The listing shows only on the last event: the first three do not depend on it. */
  lemma {:induction false} EventsBeforeListing(n: nat, cases: CaseForms, listing: set<Path>, other: set<Path>)
    requires n <= 3
    ensures Events(n, cases, listing) == Events(n, cases, other)
  {
    if n > 0 {
      EventsBeforeListing(n - 1, cases, listing, other);
    }
  }

  /** The `k`-th snapshot of the first `n`. */
  lemma {:induction false} EventAt(n: nat, k: nat, cases: CaseForms, listing: set<Path>)
    requires k < n <= 4
    ensures Events(n, cases, listing)[k] == ResponseAt(k, cases, listing)
  {
    if k < n - 1 {
      EventAt(n - 1, k, cases, listing);
    }
  }

  /** One more yield appends one more snapshot to what was emitted before. */
  lemma EventsGrow(start: seq<CreatedNewProjectResponse>, n: nat, cases: CaseForms, listing: set<Path>)
    requires n < 4
    ensures start + Events(n + 1, cases, listing) == start + Events(n, cases, listing) + [ResponseAt(n, cases, listing)]
  {
  }

  // ---------------------------------------------------------------------------
  // What a run reports

  /**
    A run yields once per phase it starts, the strip included in the
    preparation: four times exactly when it completes, whatever the flag.
  */
  lemma HandleYieldsFourTimesIffCompleted(d: Disk, cwd: Path, projectName: string, keepSecurity: bool,
                                          cases: CaseForms, git: GitEffects, plan: RemovalPlan)
    ensures var o := HandleOutcome(d, cwd, projectName, keepSecurity, cases, git, plan);
      && 1 <= o.yieldCount <= 4
      && (o.yieldCount == 4 <==> o.failure == None)
  {
  }

  /** The `k`-th event's status is the `k`-th status message. */
  lemma StatusesInOrder(n: nat, cases: CaseForms, listing: set<Path>)
    requires n <= 4
    ensures forall k :: 0 <= k < n ==> Events(n, cases, listing)[k].currentStatusMessage == Some(Statuses[k])
  {
    forall k | 0 <= k < n ensures Events(n, cases, listing)[k].currentStatusMessage == Some(Statuses[k]) {
      EventAt(n, k, cases, listing);
      ResponseFields(k, cases, listing);
    }
  }

  /**
    The first event has no last-operation message; every later one carries
    the outcome of the phase that ran just before it.
  */
  lemma LastOperationReportsPreviousPhase(n: nat, cases: CaseForms, listing: set<Path>)
    requires 1 <= n <= 4
    ensures Events(n, cases, listing)[0].lastOperationMessage == None
    ensures forall k :: 1 <= k < n ==>
      Events(n, cases, listing)[k].lastOperationMessage == Some(PhaseMessages(cases)[k - 1])
  {
    forall k | 0 <= k < n
      ensures Events(n, cases, listing)[k].lastOperationMessage == if k == 0 then None else Some(PhaseMessages(cases)[k - 1])
    {
      EventAt(n, k, cases, listing);
      ResponseFields(k, cases, listing);
    }
  }

  /**
    Only the final event carries the file listing and an output message,
    and that message is the Update-Database warning: the configuration
    warning assigned just before it is overwritten.
  */
  lemma ListingAndOutputOnlyOnLastEvent(n: nat, cases: CaseForms, listing: set<Path>)
    requires n <= 4
    ensures forall k :: 0 <= k < n ==>
      && (Events(n, cases, listing)[k].newFilePathsResult == if k == 3 then Some(listing) else None)
      && (Events(n, cases, listing)[k].outputMessage == if k == 3 then Some(UpdateDatabaseWarning) else None)
  {
    forall k | 0 <= k < n
      ensures && (Events(n, cases, listing)[k].newFilePathsResult == if k == 3 then Some(listing) else None)
              && (Events(n, cases, listing)[k].outputMessage == if k == 3 then Some(UpdateDatabaseWarning) else None)
    {
      EventAt(n, k, cases, listing);
      ResponseFields(k, cases, listing);
    }
  }

  /**
    The strip runs exactly when the security feature is dropped: with the
    flag set the preparation is the rename alone; with it cleared, a
    preparation that returns normally has removed every listed tree and file
    and nothing else.
  */
  lemma StripRunsIffSecurityDropped(d: Disk, cwd: Path, projectName: string, keepSecurity: bool,
                                    cases: CaseForms, plan: RemovalPlan)
    ensures var renamed := RenameOutcome(d, cwd, projectName, cases);
      var prepared := Preparation(d, cwd, projectName, keepSecurity, cases, plan);
      var source, tests := SourcePath(renamed.cwd, cases), TestsPath(renamed.cwd, cases);
      var dirs, files := LocateAll(plan.dirs, source, tests), LocateAll(plan.files, source, tests);
      && prepared.cwd == renamed.cwd
      && (renamed.failure.Some? ==> prepared.disk == renamed.disk && prepared.failure == Some(Io(renamed.failure.value)))
      && (renamed.failure == None && keepSecurity ==> prepared.disk == renamed.disk && prepared.failure == None)
      && (renamed.failure == None && !keepSecurity && prepared.failure == None ==>
            && (forall p :: p in prepared.disk.files <==> p in renamed.disk.files && OutsideAll(p, dirs) && p !in files)
            && (forall p :: p in prepared.disk.dirs <==> p in renamed.disk.dirs && OutsideAll(p, dirs)))
  {
    var renamed := RenameOutcome(d, cwd, projectName, cases);
    var source, tests := SourcePath(renamed.cwd, cases), TestsPath(renamed.cwd, cases);
    StripListsEffect(renamed.disk, LocateAll(plan.dirs, source, tests), LocateAll(plan.files, source, tests),
                     LocateFilters(plan.filters, source, tests));
  }

  /**
    The listing is taken after the cloned `.git` is gone and before git runs:
    it is exactly the files inside the project outside `.git`, whatever git
    later does.
  */
  lemma ListingExcludesGitMetadata(d: Disk, cwd: Path, projectName: string, git: GitEffects, other: GitEffects)
    ensures var o := AfterPreparation(d, cwd, projectName, git);
      && (forall p :: p in o.listing <==>
            p in d.files && Under(p, ProjectRoot(cwd, projectName)) && !InTree(p, GitMetadata(cwd, projectName)))
      && o.listing == AfterPreparation(d, cwd, projectName, other).listing
  {
  }

  /** `initializeGitRepository` that returns normally is back where it started. */
  lemma GitInitRestoresWorkingDirectory(d: Disk, cwd: Path, projectName: string, git: GitEffects)
    requires '/' !in projectName
    ensures var s := GitInitOutcome(d, cwd, projectName, git);
      && (s.failure == None ==> s.cwd == cwd)
      && (s.failure.Some? ==> s.cwd == if ProjectRoot(cwd, projectName) in d.dirs then ProjectRoot(cwd, projectName) else cwd)
  {
    EnterAndLeave(d, if git.branch.Some? then git.branch.value else d, cwd, projectName);
  }

  /**
    A project name holding a separator is not refused: `./<first>/<second>`
    enters a nested directory and `../` climbs only one level, so git
    initialisation that returns normally ends inside `<first>`, not where it
    began.
  */
  lemma NestedNameStaysInside(d: Disk, cwd: Path, first: string, second: string, initialised: Disk, branched: Disk)
    requires '/' !in first && '/' !in second
    requires cwd + "/" + first + "/" + second in d.dirs
    ensures var s := GitInitOutcome(d, cwd, first + "/" + second, GitEffects(None, Some(initialised), Some(branched)));
      s.failure == None && s.cwd == cwd + "/" + first && s.cwd != cwd
  {
    var outer := cwd + "/" + first;
    var name := first + "/" + second;
    var here := outer + "/" + second;
    assert ChangeDirectory(d, cwd, "./" + name) == Ok(here) by {
      assert ("./" + name)[1] == '/' && ("./" + name)[..2] == "./" && ("./" + name)[2..] == name;
      assert Resolve(cwd, "./" + name) == here;
    }
    EnterAndLeave(d, branched, outer, second);
    assert GitInitOutcome(d, cwd, name, GitEffects(None, Some(initialised), Some(branched))) == Stage(branched, outer, None);
    assert |outer| > |cwd|;
  }

  /** A run that completes leaves the working directory where it found it. */
  lemma HandleRestoresWorkingDirectory(d: Disk, cwd: Path, projectName: string, keepSecurity: bool,
                                       cases: CaseForms, git: GitEffects, plan: RemovalPlan)
    requires '/' !in projectName
    ensures var o := HandleOutcome(d, cwd, projectName, keepSecurity, cases, git, plan);
      o.failure == None ==> o.cwd == cwd
  {
    var cloned := CloneOutcome(d, cwd, projectName, git);
    if cloned.failure == None {
      RenameRestoresWorkingDirectory(cloned.disk, cwd, projectName, cases);
      var prepared := Preparation(cloned.disk, cwd, projectName, keepSecurity, cases, plan);
      if prepared.failure == None {
        GitInitRestoresWorkingDirectory(Prune(prepared.disk, GitMetadata(cwd, projectName)), cwd, projectName, git);
      }
    }
  }

  // ---------------------------------------------------------------------------
  // The command and the handler

  /** The request: the project's name and whether to keep the security feature. */
  class CreateNewProjectCommand {
    var projectName: string
    var isThereSecurityMechanism: bool

    /** The parameterless constructor: empty name, security feature kept. */
    constructor ()
      ensures projectName == "" && isThereSecurityMechanism
    {
      projectName := "";
      isThereSecurityMechanism := true;
    }

    constructor WithOptions(projectName: string, isThereSecurityMechanism: bool)
      ensures this.projectName == projectName && this.isThereSecurityMechanism == isThereSecurityMechanism
    {
      this.projectName := projectName;
      this.isThereSecurityMechanism := isThereSecurityMechanism;
    }
  }

  /** `cloneCorePackagesAndStarterProject`: `git clone <template> ./<name>`. */
  method CloneCorePackagesAndStarterProject(fs: FileSystem, projectName: string, git: GitEffects)
    returns (failure: Option<Failure>)
    modifies fs`files, fs`dirs
    ensures Stage(fs.Contents(), fs.cwd, failure) == CloneOutcome(old(fs.Contents()), fs.cwd, projectName, git)
  {
    match git.clone
    case None =>
      failure := Some(GitFailed(CloneArguments(projectName)));
    case Some(cloned) =>
      var ignored := fs.Commit(Ok(cloned));
      failure := None;
  }

  /** Lines 45-47: the rename, then the strip of `plan` unless the security feature is kept. */
  method PrepareProject(fs: FileSystem, projectName: string, keepSecurity: bool, cases: CaseForms, plan: RemovalPlan)
    returns (failure: Option<Failure>)
    modifies fs
    ensures Stage(fs.Contents(), fs.cwd, failure)
      == Preparation(old(fs.Contents()), old(fs.cwd), projectName, keepSecurity, cases, plan)
  {
    var renamed := RenameProject(fs, projectName, cases);
    if renamed.Some? {
      return Some(Io(renamed.value));
    }
    if !keepSecurity {
      var stripped := StripWithPlan(fs, cases, plan);
      if stripped.Some? {
        return Some(Io(stripped.value));
      }
    }
    failure := None;
  }

  /** Lines 51-57: delete the cloned `.git`, then list every file in the project. */
  method ClearGitMetadataAndList(fs: FileSystem, projectName: string) returns (newFiles: set<Path>)
    modifies fs`files, fs`dirs
    ensures fs.Contents() == Prune(old(fs.Contents()), GitMetadata(fs.cwd, projectName))
    ensures newFiles == FilesUnder(fs.Contents(), ProjectRoot(fs.cwd, projectName))
  {
    fs.DeleteDirectory(GitMetadata(fs.cwd, projectName));
    newFiles := fs.GetFilesInDirectoryTree(ProjectRoot(fs.cwd, projectName));
  }

  /** `initializeGitRepository`: into the project, `git init`, `git branch -m master main`, back out. */
  method InitializeGitRepository(fs: FileSystem, projectName: string, git: GitEffects)
    returns (failure: Option<Failure>)
    modifies fs
    ensures Stage(fs.Contents(), fs.cwd, failure) == GitInitOutcome(old(fs.Contents()), old(fs.cwd), projectName, git)
  {
    var entered := fs.SetCurrentDirectory("./" + projectName);
    if entered.Some? {
      return Some(Io(entered.value));
    }
    if git.init.None? {
      return Some(GitFailed(InitArguments));
    }
    var ignored := fs.Commit(Ok(git.init.value));
    if git.branch.None? {
      return Some(GitFailed(BranchArguments));
    }
    ignored := fs.Commit(Ok(git.branch.value));
    var left := fs.SetCurrentDirectory("../");
    if left.Some? {
      return Some(Io(left.value));
    }
    failure := None;
  }

  class CreateNewProjectCommandHandler {
    /** Value snapshots of the response at each `yield return`, oldest first. */
    var emitted: seq<CreatedNewProjectResponse>
    /** The tables `removeSecurityMechanism` works through. */
    const plan: RemovalPlan

    constructor ()
      ensures emitted == [] && plan == SecurityMechanism
    {
      emitted := [];
      plan := SecurityMechanism;
    }

    /** `yield return response`: the consumer sees the response as it stands now. */
    method YieldReturn(response: CreatedNewProjectResponse)
      modifies this`emitted
      ensures emitted == old(emitted) + [response]
    {
      emitted := emitted + [response];
    }

    /** `Handle`: the four phases, each announced by a yield of the response. */
    method Handle(request: CreateNewProjectCommand, fs: FileSystem, cases: CaseForms, git: GitEffects)
      returns (failure: Option<Failure>)
      modifies this`emitted, fs
      ensures var o := HandleOutcome(old(fs.Contents()), old(fs.cwd), request.projectName,
                                     request.isThereSecurityMechanism, cases, git, plan);
        && emitted == old(emitted) + Events(o.yieldCount, cases, o.listing)
        && fs.Contents() == o.disk && fs.cwd == o.cwd && failure == o.failure
    {
      ghost var start := emitted;
      var response := Blank;
      response := response.(currentStatusMessage := Some(CloningStatus));
      assert response == ResponseAt(0, cases, {});
      YieldReturn(response);
      EventsGrow(start, 0, cases, {});
      response := response.(outputMessage := None);
      failure := CloneCorePackagesAndStarterProject(fs, request.projectName, git);
      if failure.Some? {
        return;
      }
      response := response.(lastOperationMessage := Some(ClonedMessage));
      failure := PrepareAndInitialize(request, fs, cases, git, response, start);
    }

    /** Lines 43-70 of `Handle`: from the second yield on. */
    method PrepareAndInitialize(request: CreateNewProjectCommand, fs: FileSystem, cases: CaseForms, git: GitEffects,
                                response: CreatedNewProjectResponse, ghost start: seq<CreatedNewProjectResponse>)
      returns (failure: Option<Failure>)
      requires emitted == start + Events(1, cases, {})
      requires response.lastOperationMessage == Some(ClonedMessage)
      requires response.outputMessage == None && response.newFilePathsResult == None
      modifies this`emitted, fs
      ensures var o := AfterClone(old(fs.Contents()), old(fs.cwd), request.projectName,
                                  request.isThereSecurityMechanism, cases, git, plan);
        && emitted == start + Events(o.yieldCount, cases, o.listing)
        && fs.Contents() == o.disk && fs.cwd == o.cwd && failure == o.failure
    {
      var response := response.(currentStatusMessage := Some(PreparingStatus));
      ResponseFields(1, cases, {});
      assert response == ResponseAt(1, cases, {});
      YieldReturn(response);
      EventsGrow(start, 1, cases, {});
      failure := PrepareProject(fs, request.projectName, request.isThereSecurityMechanism, cases, plan);
      if failure.Some? {
        return;
      }
      response := response.(lastOperationMessage := Some(PreparedMessage(cases)));
      failure := ListAndInitialize(request, fs, cases, git, response, start);
    }

    /** Lines 51-70 of `Handle`: from the listing on. */
    method ListAndInitialize(request: CreateNewProjectCommand, fs: FileSystem, cases: CaseForms, git: GitEffects,
                             response: CreatedNewProjectResponse, ghost start: seq<CreatedNewProjectResponse>)
      returns (failure: Option<Failure>)
      requires emitted == start + Events(2, cases, {})
      requires response.lastOperationMessage == Some(PreparedMessage(cases))
      requires response.outputMessage == None && response.newFilePathsResult == None
      modifies this`emitted, fs
      ensures var o := AfterPreparation(old(fs.Contents()), old(fs.cwd), request.projectName, git);
        && emitted == start + Events(o.yieldCount, cases, o.listing)
        && fs.Contents() == o.disk && fs.cwd == o.cwd && failure == o.failure
    {
      var newFiles := ClearGitMetadataAndList(fs, request.projectName);

      var response := response.(currentStatusMessage := Some(GitInitStatus));
      ResponseFields(2, cases, newFiles);
      assert response == ResponseAt(2, cases, newFiles);
      YieldReturn(response);
      EventsBeforeListing(2, cases, {}, newFiles);
      EventsGrow(start, 2, cases, newFiles);
      failure := InitializeGitRepository(fs, request.projectName, git);
      if failure.Some? {
        return;
      }
      response := response.(lastOperationMessage := Some(GitInitializedMessage));

      response := response.(currentStatusMessage := Some(CompletedStatus));
      response := response.(newFilePathsResult := Some(newFiles));
      response := response.(outputMessage := Some(ConfigurationWarning(cases)));
      response := response.(outputMessage := Some(UpdateDatabaseWarning));
      ResponseFields(3, cases, newFiles);
      assert response == ResponseAt(3, cases, newFiles);
      YieldReturn(response);
      EventsGrow(start, 3, cases, newFiles);
    }
  }
}
