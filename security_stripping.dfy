/**
  Stripping the security feature from a freshly renamed project
  (`removeSecurityMechanism`): delete ten directory trees, then twenty-six
  files, then drop the lines of four source files that mention any of the
  security types. A missing directory throws; a missing file is skipped, as
  `File.Delete` does, unless its folder is missing too (which throws as .NET
  does on Windows; on Unix that is no error either). The first exception
  ends the strip, and nothing is undone.

  The paths are built from the working directory and the Pascal-case name,
  not from the directory the project was cloned into.
*/
module SecurityStripping {
  import opened Base
  import opened LineFilter
  import opened IO
  import opened Rename

  /** `slnPath`: the working directory joined with the Pascal-case project name. */
  function SolutionPath(cwd: Path, cases: CaseForms): Path {
    cwd + "/" + cases.pascal
  }

  /** `projectSourcePath`. */
  function SourcePath(cwd: Path, cases: CaseForms): Path {
    SolutionPath(cwd, cases) + "/src/" + cases.camel
  }

  /** `projectTestsPath`; its trailing '/' and the leading '/' of each suffix name one separator. */
  function TestsPath(cwd: Path, cases: CaseForms): Path {
    SolutionPath(cwd, cases) + "/tests"
  }

  /** The folder a listed path is written relative to: `projectSourcePath` or `projectTestsPath`. */
  datatype Anchor = SourceDir | TestsDir

  /** One listed path: the anchor folder followed by a suffix that starts with '/'. */
  datatype Entry = Entry(anchor: Anchor, suffix: string)

  /** The path an entry names once the two folders are known. */
  function Locate(e: Entry, source: Path, tests: Path): Path {
    (if e.anchor == SourceDir then source else tests) + e.suffix
  }

  /** Every entry located, in order. */
  function LocateAll(es: seq<Entry>, source: Path, tests: Path): (ps: seq<Path>)
    ensures |ps| == |es|
    ensures forall k :: 0 <= k < |es| ==> ps[k] == Locate(es[k], source, tests)
  {
    if es == [] then [] else [Locate(es[0], source, tests)] + LocateAll(es[1..], source, tests)
  }

  /** The directory trees deleted, in source order. */
  const DirEntries: seq<Entry> :=
    [ Entry(SourceDir, "/Application/Features/Auth"),
      Entry(SourceDir, "/Application/Features/OperationClaims"),
      Entry(SourceDir, "/Application/Features/UserOperationClaims"),
      Entry(SourceDir, "/Application/Features/Users"),
      Entry(SourceDir, "/Application/Services/AuthenticatorService"),
      Entry(SourceDir, "/Application/Services/AuthService"),
      Entry(SourceDir, "/Application/Services/OperationClaims"),
      Entry(SourceDir, "/Application/Services/UserOperationClaims"),
      Entry(SourceDir, "/Application/Services/UsersService"),
      Entry(TestsDir, "/Application.Tests/Features/Users") ]

  /** The `dirsToDelete` array. */
  function DirsToDelete(source: Path, tests: Path): seq<Path> {
    LocateAll(DirEntries, source, tests)
  }

  /** The files deleted, in source order. */
  const FileEntries: seq<Entry> :=
    [ Entry(SourceDir, "/Application/Services/Repositories/IEmailAuthenticatorRepository.cs"),
      Entry(SourceDir, "/Application/Services/Repositories/IOperationClaimRepository.cs"),
      Entry(SourceDir, "/Application/Services/Repositories/IOtpAuthenticatorRepository.cs"),
      Entry(SourceDir, "/Application/Services/Repositories/IRefreshTokenRepository.cs"),
      Entry(SourceDir, "/Application/Services/Repositories/IUserOperationClaimRepository.cs"),
      Entry(SourceDir, "/Application/Services/Repositories/IUserRepository.cs"),
      Entry(SourceDir, "/Persistence/EntityConfigurations/EmailAuthenticatorConfiguration.cs"),
      Entry(SourceDir, "/Persistence/EntityConfigurations/OperationClaimConfiguration.cs"),
      Entry(SourceDir, "/Persistence/EntityConfigurations/OtpAuthenticatorConfiguration.cs"),
      Entry(SourceDir, "/Persistence/EntityConfigurations/RefreshTokenConfiguration.cs"),
      Entry(SourceDir, "/Persistence/EntityConfigurations/UserConfiguration.cs"),
      Entry(SourceDir, "/Persistence/EntityConfigurations/UserOperationClaimConfiguration.cs"),
      Entry(SourceDir, "/Persistence/Repositories/EmailAuthenticatorRepository.cs"),
      Entry(SourceDir, "/Persistence/Repositories/OperationClaimRepository.cs"),
      Entry(SourceDir, "/Persistence/Repositories/OtpAuthenticatorRepository.cs"),
      Entry(SourceDir, "/Persistence/Repositories/RefreshTokenRepository.cs"),
      Entry(SourceDir, "/Persistence/Repositories/UserOperationClaimRepository.cs"),
      Entry(SourceDir, "/Persistence/Repositories/UserRepository.cs"),
      Entry(SourceDir, "/WebAPI/Controllers/AuthController.cs"),
      Entry(SourceDir, "/WebAPI/Controllers/OperationClaimsController.cs"),
      Entry(SourceDir, "/WebAPI/Controllers/UserOperationClaimsController.cs"),
      Entry(SourceDir, "/WebAPI/Controllers/UsersController.cs"),
      Entry(SourceDir, "/WebAPI/Controllers/Dtos/UpdateByAuthFromServiceRequestDto.cs"),
      Entry(TestsDir, "/Application.Tests/DependencyResolvers/UsersTestServiceRegistration.cs"),
      Entry(TestsDir, "/Application.Tests/Mocks/FakeData/UserFakeData.cs"),
      Entry(TestsDir, "/Application.Tests/Mocks/Repositories/UserMockRepository.cs") ]

  /** The `filesToDelete` array. */
  function FilesToDelete(source: Path, tests: Path): seq<Path> {
    LocateAll(FileEntries, source, tests)
  }

  /** One `RemoveLinesAsync` call: the file and the tokens of its `.Any(line.Contains)` predicate. */
  datatype LineRemoval = LineRemoval(path: Path, tokens: seq<string>)

  /** A line filter as listed, its file still relative to one of the two folders. */
  datatype Filter = Filter(file: Entry, tokens: seq<string>)

  /** The four line filters, in source order. */
  const Filters: seq<Filter> :=
    [ Filter(Entry(SourceDir, "/Application/ApplicationServiceRegistration.cs"),
        [ "using Application.Services.AuthenticatorService;",
          "using Application.Services.AuthService;",
          "using Application.Services.UsersService;",
          "services.AddScoped<IAuthService, AuthManager>();",
          "services.AddScoped<IAuthenticatorService, AuthenticatorManager>();",
          "services.AddScoped<IUserService, UserManager>();" ]),
      Filter(Entry(SourceDir, "/Persistence/Contexts/BaseDbContext.cs"),
        [ "DbSet<EmailAuthenticator> EmailAuthenticators",
          "DbSet<OperationClaim> OperationClaim",
          "DbSet<OtpAuthenticator> OtpAuthenticator",
          "DbSet<RefreshToken> RefreshTokens",
          "DbSet<User> User",
          "DbSet<UserOperationClaim> UserOperationClaims" ]),
      Filter(Entry(SourceDir, "/Persistence/PersistenceServiceRegistration.cs"),
        [ "using Persistence.Repositories;",
          "using Application.Services.Repositories;",
          "services.AddScoped<IEmailAuthenticatorRepository, EmailAuthenticatorRepository>()",
          "services.AddScoped<IOperationClaimRepository, OperationClaimRepository>()",
          "services.AddScoped<IOtpAuthenticatorRepository, OtpAuthenticatorRepository>();",
          "services.AddScoped<IRefreshTokenRepository, RefreshTokenRepository>()",
          "services.AddScoped<IUserRepository, UserRepository>();",
          "services.AddScoped<IUserOperationClaimRepository, UserOperationClaimRepository>();" ]),
      Filter(Entry(TestsDir, "/Application.Tests/Startup.cs"),
        [ "using Application.Tests.DependencyResolvers;",
          "public void ConfigureServices(IServiceCollection services) => services.AddUsersServices();" ]) ]

  /** Every filter located, in order. */
  function LocateFilters(filters: seq<Filter>, source: Path, tests: Path): (rs: seq<LineRemoval>)
    ensures |rs| == |filters|
    ensures forall k :: 0 <= k < |filters| ==>
      rs[k] == LineRemoval(Locate(filters[k].file, source, tests), filters[k].tokens)
  {
    if filters == [] then []
    else [LineRemoval(Locate(filters[0].file, source, tests), filters[0].tokens)] + LocateFilters(filters[1..], source, tests)
  }

  /** The four `RemoveLinesAsync` calls. */
  function LineRemovals(source: Path, tests: Path): seq<LineRemoval> {
    LocateFilters(Filters, source, tests)
  }

  /** `foreach (dir in dirs) Directory.Delete(dir, recursive: true)` on a disk. */
  function DeleteDirectories(d: Disk, dirs: seq<Path>): Run
    decreases |dirs|
  {
    if dirs == [] then Run(d, None)
    else match DeleteTree(d, dirs[0])
      case Err(e) => Run(d, Some(e))
      case Ok(next) => DeleteDirectories(next, dirs[1..])
  }

  /** `foreach (file in files) File.Delete(file)` on a disk. */
  function DeleteFiles(d: Disk, files: seq<Path>): Run
    decreases |files|
  {
    if files == [] then Run(d, None)
    else match DeleteFile(d, files[0])
      case Err(e) => Run(d, Some(e))
      case Ok(next) => DeleteFiles(next, files[1..])
  }

  /** One `RemoveLinesAsync`: read the file, write back the lines with no token. */
  function RemoveLinesFrom(d: Disk, removal: LineRemoval): Run {
    match ReadAll(d, removal.path)
    case Err(e) => Run(d, Some(e))
    case Ok(text) => Attempt(d, WriteAll(d, removal.path, RemoveLines(text, removal.tokens)))
  }

  /** The line filters one after another, stopping at the first that throws. */
  function RemoveAllLines(d: Disk, removals: seq<LineRemoval>): Run
    decreases |removals|
  {
    if removals == [] then Run(d, None)
    else
      var r := RemoveLinesFrom(d, removals[0]);
      if r.failure.Some? then r else RemoveAllLines(r.disk, removals[1..])
  }

  /** The three phases over given tables: directories, then files, then lines. */
  function StripLists(d: Disk, dirs: seq<Path>, files: seq<Path>, removals: seq<LineRemoval>): Run {
    var afterDirs := DeleteDirectories(d, dirs);
    if afterDirs.failure.Some? then afterDirs
    else
      var afterFiles := DeleteFiles(afterDirs.disk, files);
      if afterFiles.failure.Some? then afterFiles
      else RemoveAllLines(afterFiles.disk, removals)
  }

  /** What a strip removes: directory trees, files and line filters, each relative to the two folders. */
  datatype RemovalPlan = RemovalPlan(dirs: seq<Entry>, files: seq<Entry>, filters: seq<Filter>)

  /** The security feature's three tables. */
  const SecurityMechanism := RemovalPlan(DirEntries, FileEntries, Filters)

  /** The three phases over a plan located at working directory `cwd`. */
  function StripPlan(d: Disk, cwd: Path, cases: CaseForms, plan: RemovalPlan): Run {
    var source, tests := SourcePath(cwd, cases), TestsPath(cwd, cases);
    StripLists(d, LocateAll(plan.dirs, source, tests), LocateAll(plan.files, source, tests),
               LocateFilters(plan.filters, source, tests))
  }

  /** `removeSecurityMechanism` from working directory `cwd`: the three phases over its own tables. */
  function Strip(d: Disk, cwd: Path, cases: CaseForms): Run {
    StripPlan(d, cwd, cases, SecurityMechanism)
  }

  /** `p` lies in none of the trees rooted at `dirs`. */
  predicate OutsideAll(p: Path, dirs: seq<Path>) {
    forall k :: 0 <= k < |dirs| ==> !InTree(p, dirs[k])
  }

  /**
    Deleting the trees only ever removes entries, and never one outside all
    the trees, even when a deletion throws partway; when every deletion
    succeeds, what is left is exactly what lay outside all the trees, with
    its text unchanged.
  */
  lemma {:induction false} DeleteDirectoriesEffect(d: Disk, dirs: seq<Path>)
    ensures var r := DeleteDirectories(d, dirs);
      && (forall p :: p in r.disk.files ==> p in d.files && r.disk.files[p] == d.files[p])
      && r.disk.dirs <= d.dirs
      && (forall p :: p in d.files && OutsideAll(p, dirs) ==> p in r.disk.files)
      && (forall p :: p in d.dirs && OutsideAll(p, dirs) ==> p in r.disk.dirs)
      && (r.failure == None ==>
            && (forall p :: p in r.disk.files <==> p in d.files && OutsideAll(p, dirs))
            && (forall p :: p in r.disk.dirs <==> p in d.dirs && OutsideAll(p, dirs)))
    decreases |dirs|
  {
    if dirs != [] && dirs[0] in d.dirs {
      var next := Prune(d, dirs[0]);
      DeleteDirectoriesEffect(next, dirs[1..]);
      forall p ensures OutsideAll(p, dirs) <==> !InTree(p, dirs[0]) && OutsideAll(p, dirs[1..]) {
        if !InTree(p, dirs[0]) && OutsideAll(p, dirs[1..]) {
          forall k | 0 < k < |dirs| ensures !InTree(p, dirs[k]) {
            assert dirs[k] == dirs[1..][k - 1];
          }
        }
      }
    }
  }

  /**
    Deleting the files only ever removes listed files and never touches a
    directory, even when a deletion throws partway; when every deletion
    succeeds, exactly the listed files are gone.
  */
  lemma {:induction false} DeleteFilesEffect(d: Disk, files: seq<Path>)
    ensures var r := DeleteFiles(d, files);
      && (forall p :: p in r.disk.files ==> p in d.files && r.disk.files[p] == d.files[p])
      && r.disk.dirs == d.dirs
      && (forall p :: p in d.files && p !in files ==> p in r.disk.files)
      && (r.failure == None ==> forall p :: p in r.disk.files <==> p in d.files && p !in files)
    decreases |files|
  {
    if files != [] && DeleteFile(d, files[0]).Ok? {
      var next := DeleteFile(d, files[0]).value;
      DeleteFilesEffect(next, files[1..]);
      assert files == [files[0]] + files[1..];
    }
  }

  /**
    One line filter that returns normally rewrites only its own file, which
    then holds the old text's lines without those that mention a token.
  */
  lemma RemoveLinesFromEffect(d: Disk, removal: LineRemoval)
    ensures var r := RemoveLinesFrom(d, removal);
      && r.disk.dirs == d.dirs
      && (forall p :: p in r.disk.files <==> p in d.files)
      && (forall p :: p in d.files && p != removal.path ==> r.disk.files[p] == d.files[p])
      && (r.failure == None ==>
            removal.path in d.files && r.disk.files[removal.path] == RemoveLines(d.files[removal.path], removal.tokens))
  {
  }

  /** The line filters never add or remove a file or a directory, and leave unlisted files as they were. */
  lemma {:induction false} RemoveAllLinesKeepsEntries(d: Disk, removals: seq<LineRemoval>)
    ensures var r := RemoveAllLines(d, removals);
      && r.disk.dirs == d.dirs
      && (forall p :: p in r.disk.files <==> p in d.files)
      && (forall p :: p in d.files && (forall k :: 0 <= k < |removals| ==> removals[k].path != p) ==>
            r.disk.files[p] == d.files[p])
    decreases |removals|
  {
    if removals != [] {
      var first := RemoveLinesFrom(d, removals[0]);
      RemoveLinesFromEffect(d, removals[0]);
      if first.failure == None {
        RemoveAllLinesKeepsEntries(first.disk, removals[1..]);
        forall p | p in d.files && (forall k :: 0 <= k < |removals| ==> removals[k].path != p)
          ensures forall k :: 0 <= k < |removals[1..]| ==> removals[1..][k].path != p
        {
          forall k | 0 <= k < |removals[1..]| ensures removals[1..][k].path != p {
            assert removals[1..][k] == removals[k + 1];
          }
        }
      }
    }
  }

  /** No two line filters name the same file. */
  predicate DistinctPaths(removals: seq<LineRemoval>) {
    forall i, j :: 0 <= i < j < |removals| ==> removals[i].path != removals[j].path
  }

  /**
    Filters over distinct files that all return normally leave each filtered
    file holding its old text without the lines that contain one of its tokens.
  */
  lemma {:induction false} RemoveAllLinesFiltersEach(d: Disk, removals: seq<LineRemoval>)
    requires DistinctPaths(removals)
    ensures var r := RemoveAllLines(d, removals);
      r.failure == None ==>
        forall k :: 0 <= k < |removals| ==>
          && removals[k].path in d.files && removals[k].path in r.disk.files
          && r.disk.files[removals[k].path] == RemoveLines(d.files[removals[k].path], removals[k].tokens)
    decreases |removals|
  {
    if removals != [] {
      var first := RemoveLinesFrom(d, removals[0]);
      RemoveLinesFromEffect(d, removals[0]);
      var rest := removals[1..];
      if first.failure == None {
        forall i, j | 0 <= i < j < |rest| ensures rest[i].path != rest[j].path {
          assert rest[i] == removals[i + 1] && rest[j] == removals[j + 1];
        }
        RemoveAllLinesFiltersEach(first.disk, rest);
        RemoveAllLinesKeepsEntries(first.disk, rest);
        var r := RemoveAllLines(d, removals);
        if r.failure == None {
          forall k | 0 <= k < |removals|
            ensures && removals[k].path in d.files && removals[k].path in r.disk.files
                    && r.disk.files[removals[k].path] == RemoveLines(d.files[removals[k].path], removals[k].tokens)
          {
            if k == 0 {
              forall m | 0 <= m < |rest| ensures rest[m].path != removals[0].path {
                assert rest[m] == removals[m + 1];
              }
            } else {
              assert rest[k - 1] == removals[k];
            }
          }
        }
      }
    }
  }

  /** `p` is the path of none of the line filters. */
  predicate Unfiltered(p: Path, removals: seq<LineRemoval>) {
    forall k :: 0 <= k < |removals| ==> removals[k].path != p
  }

  /**
    The phases never create an entry, and files outside the filtered ones
    keep their text, however far they get. When they all return normally,
    no listed directory, nothing below one and no listed file is left, and
    every other entry that was there still is.
  */
  lemma StripListsEffect(d: Disk, dirs: seq<Path>, files: seq<Path>, removals: seq<LineRemoval>)
    ensures var r := StripLists(d, dirs, files, removals);
      && r.disk.dirs <= d.dirs
      && (forall p :: p in r.disk.files ==> p in d.files)
      && (forall p :: p in r.disk.files && Unfiltered(p, removals) ==> r.disk.files[p] == d.files[p])
      && (r.failure == None ==>
            && (forall p :: p in r.disk.files <==> p in d.files && OutsideAll(p, dirs) && p !in files)
            && (forall p :: p in r.disk.dirs <==> p in d.dirs && OutsideAll(p, dirs)))
      && (r.failure == None && DistinctPaths(removals) ==>
            forall k :: 0 <= k < |removals| ==>
              && removals[k].path in d.files && removals[k].path in r.disk.files
              && r.disk.files[removals[k].path] == RemoveLines(d.files[removals[k].path], removals[k].tokens))
  {
    var afterDirs := DeleteDirectories(d, dirs);
    DeleteDirectoriesEffect(d, dirs);
    if afterDirs.failure == None {
      var afterFiles := DeleteFiles(afterDirs.disk, files);
      DeleteFilesEffect(afterDirs.disk, files);
      if afterFiles.failure == None {
        RemoveAllLinesKeepsEntries(afterFiles.disk, removals);
        if DistinctPaths(removals) {
          RemoveAllLinesFiltersEach(afterFiles.disk, removals);
        }
      }
    }
  }

  /**
    However far the phases get, nothing outside the listed trees that is not
    a listed file is removed. Directories go first: while any listed tree is
    still there, the strip has thrown before reaching the files, and every
    file outside the trees is still there with its text.
  */
  lemma StripListsFrame(d: Disk, dirs: seq<Path>, files: seq<Path>, removals: seq<LineRemoval>)
    ensures var r := StripLists(d, dirs, files, removals);
      && (forall p :: p in d.files && OutsideAll(p, dirs) && p !in files ==> p in r.disk.files)
      && (forall p :: p in d.dirs && OutsideAll(p, dirs) ==> p in r.disk.dirs)
      && ((exists k :: 0 <= k < |dirs| && dirs[k] in r.disk.dirs) ==>
            && r.failure.Some?
            && forall p :: p in d.files && OutsideAll(p, dirs) ==> p in r.disk.files && r.disk.files[p] == d.files[p])
  {
    var afterDirs := DeleteDirectories(d, dirs);
    DeleteDirectoriesEffect(d, dirs);
    if afterDirs.failure == None {
      forall k | 0 <= k < |dirs| ensures dirs[k] !in afterDirs.disk.dirs {
        assert !OutsideAll(dirs[k], dirs);
      }
      var afterFiles := DeleteFiles(afterDirs.disk, files);
      DeleteFilesEffect(afterDirs.disk, files);
      if afterFiles.failure == None {
        RemoveAllLinesKeepsEntries(afterFiles.disk, removals);
      }
    }
  }

  /**
    `removeSecurityMechanism` that returns normally leaves none of its ten
    directory trees and none of its twenty-six files; every other entry that
    was there still is.
  */
  lemma StripRemovesListed(d: Disk, cwd: Path, cases: CaseForms)
    ensures var source, tests := SourcePath(cwd, cases), TestsPath(cwd, cases);
      var dirs, files := DirsToDelete(source, tests), FilesToDelete(source, tests);
      var r := Strip(d, cwd, cases);
      r.failure == None ==>
        && (forall p :: p in r.disk.files <==> p in d.files && OutsideAll(p, dirs) && p !in files)
        && (forall p :: p in r.disk.dirs <==> p in d.dirs && OutsideAll(p, dirs))
  {
    var source, tests := SourcePath(cwd, cases), TestsPath(cwd, cases);
    StripListsEffect(d, DirsToDelete(source, tests), FilesToDelete(source, tests), LineRemovals(source, tests));
  }

  /** Two paths with one folder prefix and different suffixes differ. */
  lemma SuffixesTellApart(folder: Path, x: string, y: string)
    requires x != y
    ensures folder + x != folder + y
  {
    assert (folder + x)[|folder|..] == x && (folder + y)[|folder|..] == y;
  }

  /**
    Distinct entries name distinct files once located, provided the two
    folders differ at some position both reach.
  */
  lemma LocateFiltersDistinct(filters: seq<Filter>, source: Path, tests: Path, at: nat)
    requires at < |source| && at < |tests| && source[at] != tests[at]
    requires forall i, j :: 0 <= i < j < |filters| ==> filters[i].file != filters[j].file
    ensures DistinctPaths(LocateFilters(filters, source, tests))
  {
    var rs := LocateFilters(filters, source, tests);
    forall i, j | 0 <= i < j < |rs| ensures rs[i].path != rs[j].path {
      var e, f := filters[i].file, filters[j].file;
      if e.anchor == f.anchor {
        SuffixesTellApart(if e.anchor == SourceDir then source else tests, e.suffix, f.suffix);
      } else {
        assert rs[i].path[at] != rs[j].path[at];
      }
    }
  }

  /** The four filters name four different files. */
  lemma FilterFilesDistinct()
    ensures forall i, j :: 0 <= i < j < |Filters| ==> Filters[i].file != Filters[j].file
  {
  }

  /**
    A strip over a plan whose filters name different files, when it returns
    normally, leaves each filtered file holding its old text without the
    lines that contain one of that file's tokens.
  */
  lemma StripPlanFiltersEach(d: Disk, cwd: Path, cases: CaseForms, plan: RemovalPlan)
    requires forall i, j :: 0 <= i < j < |plan.filters| ==> plan.filters[i].file != plan.filters[j].file
    ensures var source, tests := SourcePath(cwd, cases), TestsPath(cwd, cases);
      var r := StripPlan(d, cwd, cases, plan);
      r.failure == None ==>
        forall k :: 0 <= k < |plan.filters| ==>
          var p := Locate(plan.filters[k].file, source, tests);
          p in d.files && p in r.disk.files && r.disk.files[p] == RemoveLines(d.files[p], plan.filters[k].tokens)
  {
    var sln := SolutionPath(cwd, cases);
    var source, tests := SourcePath(cwd, cases), TestsPath(cwd, cases);
    assert source[|sln| + 1] == 's' && tests[|sln| + 1] == 't';
    LocateFiltersDistinct(plan.filters, source, tests, |sln| + 1);
    StripListsEffect(d, LocateAll(plan.dirs, source, tests), LocateAll(plan.files, source, tests),
                     LocateFilters(plan.filters, source, tests));
  }

  /**
    After a `removeSecurityMechanism` that returns normally, each of the four
    filtered files holds its old text without the lines that contain one of
    that file's tokens.
  */
  lemma StripFiltersEach(d: Disk, cwd: Path, cases: CaseForms)
    ensures var source, tests := SourcePath(cwd, cases), TestsPath(cwd, cases);
      var r := Strip(d, cwd, cases);
      r.failure == None ==>
        forall k :: 0 <= k < |Filters| ==>
          var p := Locate(Filters[k].file, source, tests);
          p in d.files && p in r.disk.files && r.disk.files[p] == RemoveLines(d.files[p], Filters[k].tokens)
  {
    FilterFilesDistinct();
    StripPlanFiltersEach(d, cwd, cases, SecurityMechanism);
  }

  /** When the first listed directory is missing, the phases throw at once and change nothing. */
  lemma StripListsNeedsFirstDirectory(d: Disk, dirs: seq<Path>, files: seq<Path>, removals: seq<LineRemoval>)
    requires |dirs| > 0 && dirs[0] !in d.dirs
    ensures StripLists(d, dirs, files, removals) == Run(d, Some(DirectoryNotFound(dirs[0])))
  {
  }

  /**
    The strip looks for `<cwd>/<Pascal name>/src/<camel name>/Application/Features/Auth`
    first: when that directory is missing it throws at once and changes nothing.
  */
  lemma StripNeedsFirstDirectory(d: Disk, cwd: Path, cases: CaseForms)
    requires SourcePath(cwd, cases) + "/Application/Features/Auth" !in d.dirs
    ensures Strip(d, cwd, cases) == Run(d, Some(DirectoryNotFound(SourcePath(cwd, cases) + "/Application/Features/Auth")))
  {
    var source, tests := SourcePath(cwd, cases), TestsPath(cwd, cases);
    var dirs := DirsToDelete(source, tests);
    assert DirEntries[0] == Entry(SourceDir, "/Application/Features/Auth");
    StripListsNeedsFirstDirectory(d, dirs, FilesToDelete(source, tests), LineRemovals(source, tests));
  }

  /** Running the deletions from index `i` on is deleting `dirs[i]` and then the rest. */
  lemma DeleteDirectoriesFrom(d: Disk, dirs: seq<Path>, i: nat)
    requires i < |dirs|
    ensures var t := DeleteTree(d, dirs[i]);
      DeleteDirectories(d, dirs[i..]) == if t.Err? then Run(d, Some(t.error)) else DeleteDirectories(t.value, dirs[i + 1..])
  {
    assert dirs[i..][0] == dirs[i];
    assert dirs[i..][1..] == dirs[i + 1..];
  }

  /** Running the deletions from index `i` on is deleting `files[i]` and then the rest. */
  lemma DeleteFilesFrom(d: Disk, files: seq<Path>, i: nat)
    requires i < |files|
    ensures var t := DeleteFile(d, files[i]);
      DeleteFiles(d, files[i..]) == if t.Err? then Run(d, Some(t.error)) else DeleteFiles(t.value, files[i + 1..])
  {
    assert files[i..][0] == files[i];
    assert files[i..][1..] == files[i + 1..];
  }

  /** Running the filters from index `i` on is filtering with `removals[i]` and then the rest. */
  lemma RemoveAllLinesFrom(d: Disk, removals: seq<LineRemoval>, i: nat)
    requires i < |removals|
    ensures var r := RemoveLinesFrom(d, removals[i]);
      RemoveAllLines(d, removals[i..]) == if r.failure.Some? then r else RemoveAllLines(r.disk, removals[i + 1..])
  {
    assert removals[i..][0] == removals[i];
    assert removals[i..][1..] == removals[i + 1..];
  }

  /** The `foreach` over the directory list. */
  method DeleteDirectoryList(fs: FileSystem, dirs: seq<Path>) returns (failure: Option<IoError>)
    modifies fs`files, fs`dirs
    ensures Run(fs.Contents(), failure) == DeleteDirectories(old(fs.Contents()), dirs)
  {
    assert dirs[0..] == dirs;
    for i := 0 to |dirs|
      invariant DeleteDirectories(old(fs.Contents()), dirs) == DeleteDirectories(fs.Contents(), dirs[i..])
    {
      DeleteDirectoriesFrom(fs.Contents(), dirs, i);
      failure := fs.DirectoryDelete(dirs[i]);
      if failure.Some? {
        return;
      }
    }
    failure := None;
  }

  /** The `foreach` over the file list. */
  method DeleteFileList(fs: FileSystem, files: seq<Path>) returns (failure: Option<IoError>)
    modifies fs`files, fs`dirs
    ensures Run(fs.Contents(), failure) == DeleteFiles(old(fs.Contents()), files)
  {
    assert files[0..] == files;
    for i := 0 to |files|
      invariant DeleteFiles(old(fs.Contents()), files) == DeleteFiles(fs.Contents(), files[i..])
    {
      DeleteFilesFrom(fs.Contents(), files, i);
      failure := fs.FileDelete(files[i]);
      if failure.Some? {
        return;
      }
    }
    failure := None;
  }

  /** `FileHelper.RemoveLinesAsync(path, line => tokens.Any(line.Contains))`. */
  method RemoveLinesAsync(fs: FileSystem, removal: LineRemoval) returns (failure: Option<IoError>)
    modifies fs`files, fs`dirs
    ensures Run(fs.Contents(), failure) == RemoveLinesFrom(old(fs.Contents()), removal)
  {
    var text := fs.ReadAllText(removal.path);
    if text.Err? {
      return Some(text.error);
    }
    failure := fs.WriteAllText(removal.path, RemoveLines(text.value, removal.tokens));
  }

  /** The four `RemoveLinesAsync` calls, one after another. */
  method RemoveLinesInOrder(fs: FileSystem, removals: seq<LineRemoval>) returns (failure: Option<IoError>)
    modifies fs`files, fs`dirs
    ensures Run(fs.Contents(), failure) == RemoveAllLines(old(fs.Contents()), removals)
  {
    assert removals[0..] == removals;
    for i := 0 to |removals|
      invariant RemoveAllLines(old(fs.Contents()), removals) == RemoveAllLines(fs.Contents(), removals[i..])
    {
      RemoveAllLinesFrom(fs.Contents(), removals, i);
      failure := RemoveLinesAsync(fs, removals[i]);
      if failure.Some? {
        return;
      }
    }
    failure := None;
  }

  /** The two deletion loops, then the line filters, over the given tables. */
  method RunStripLists(fs: FileSystem, dirs: seq<Path>, files: seq<Path>, removals: seq<LineRemoval>)
    returns (failure: Option<IoError>)
    modifies fs`files, fs`dirs
    ensures Run(fs.Contents(), failure) == StripLists(old(fs.Contents()), dirs, files, removals)
  {
    failure := DeleteDirectoryList(fs, dirs);
    if failure.Some? {
      return;
    }
    failure := DeleteFileList(fs, files);
    if failure.Some? {
      return;
    }
    failure := RemoveLinesInOrder(fs, removals);
  }

  /** The phases over `plan`, located from the current working directory. */
  method StripWithPlan(fs: FileSystem, cases: CaseForms, plan: RemovalPlan) returns (failure: Option<IoError>)
    modifies fs`files, fs`dirs
    ensures Run(fs.Contents(), failure) == StripPlan(old(fs.Contents()), fs.cwd, cases, plan)
  {
    var projectSourcePath := SourcePath(fs.cwd, cases);
    var projectTestsPath := TestsPath(fs.cwd, cases);
    failure := RunStripLists(fs, LocateAll(plan.dirs, projectSourcePath, projectTestsPath),
                             LocateAll(plan.files, projectSourcePath, projectTestsPath),
                             LocateFilters(plan.filters, projectSourcePath, projectTestsPath));
  }

  /**
    `removeSecurityMechanism`: the phases over the security feature's tables.
    The handler reaches the same steps through `StripWithPlan` with its
    `plan` field, which its constructor sets to `SecurityMechanism`.
  */
  method RemoveSecurityMechanism(fs: FileSystem, cases: CaseForms) returns (failure: Option<IoError>)
    modifies fs`files, fs`dirs
    ensures Run(fs.Contents(), failure) == Strip(old(fs.Contents()), fs.cwd, cases)
  {
    failure := StripWithPlan(fs, cases, SecurityMechanism);
  }
}
