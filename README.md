# New-project scaffolding: a Dafny model

This project models the `new` command of the code generator
(`CreateNewProjectCommand` and its stream handler). The handler builds a new
solution from a starter template in four phases:

1. It clones the template into `./<name>`.
2. It renames the clone after the project. When the security feature is not
   wanted, it also strips that feature.
3. It deletes the cloned `.git` directory and lists the project's files.
4. It initialises a fresh git repository.

Before each phase it yields a progress response. The same response object
is reused and its fields are overwritten in between.

The model is split into modules:

- `OrdinalText` models .NET ordinal `Contains`, `IndexOf` and `Replace`.
  `Replace` is a left-to-right scan with non-overlapping matches. It is proved
  equal to an independent reference: split the text at every match, then join
  the pieces with the replacement.
- `LineFilter` models the line filter of `RemoveLinesAsync`. A line is dropped
  when it contains any of the listed tokens.
- `IO` models the disk and the working directory:
  - a `Disk` value maps paths to file texts and holds the set of directories;
  - the `System.IO` calls the handler makes are pure functions that fail the
    way .NET throws;
  - the class `FileSystem` holds the mutable process state (files,
    directories, working directory). Its methods are proved equal to those
    functions.
- `Rename` models `renameProject` and its local
  `replaceFileContentWithProjectName`. The rename is a fixed table of seven
  steps, run from inside the clone.
- `SecurityStripping` models `removeSecurityMechanism`. It deletes ten
  directory trees, then 26 files, then filters the lines of four files. The
  tables are stored relative to two anchor folders. The imperative loops are
  proved equal to a fold over the tables. The phase lemmas hold for any
  removal plan.
- `CreateNewProject` holds the command, the handler and `Handle`. Each
  `yield return` appends a value snapshot of the response to the handler's
  `emitted` sequence. `Handle` is proved equal to `HandleOutcome`:
  - the number of yields;
  - the listing;
  - the final disk, working directory and failure.

  The lemmas then state what the emitted events contain.

Several things are passed in as parameters because they are not part of this
model:

- git: each call is given as the disk it leaves behind, or `None` when it
  fails;
- the case converters `ToPascalCase`/`ToCamelCase`: their results are passed
  as `CaseForms`.

The code assigns `OutputMessage` twice (lines 66-69), so only the
Update-Database warning reaches the consumer.

## Model

| member | source | states |
|---|---|---|
| `OrdinalText.IndexOf` | src/CodeGen/Application/Features/Create/Commands/New/CreateNewProjectCommand.cs:130 | -1 exactly when the search string does not occur (`path.Contains(search)` is false); otherwise the index of an occurrence with none before it |
| `OrdinalText.ReplaceIsJoinOfSplit` | src/CodeGen/Application/Features/Create/Commands/New/CreateNewProjectCommand.cs:132 | the scanning ordinal `Replace` equals cutting the text at every leftmost non-overlapping match and gluing the pieces with the replacement |
| `OrdinalText.SplitJoinRoundTrip` | src/CodeGen/Application/Features/Create/Commands/New/CreateNewProjectCommand.cs:132 | gluing the pieces back with the search string itself restores the text |
| `OrdinalText.SplitPartsAvoidPattern` | src/CodeGen/Application/Features/Create/Commands/New/CreateNewProjectCommand.cs:132 | no piece between the cuts contains the search string |
| `OrdinalText.ReplaceWithoutMatch` | src/CodeGen/Application/Features/Create/Commands/New/CreateNewProjectCommand.cs:138 | a text without the search string comes back from `Replace` unchanged |
| `OrdinalText.ReplaceBySelf` | src/CodeGen/Application/Features/Create/Commands/New/CreateNewProjectCommand.cs:138 | replacing a string by itself changes nothing |
| `OrdinalText.SplitOfJoin` | src/CodeGen/Application/Features/Create/Commands/New/CreateNewProjectCommand.cs:197-211 | for a one-character separator, splitting lines joined by it gives the same lines back when none contains it |
| `LineFilter.KeepLines` | src/CodeGen/Application/Features/Create/Commands/New/CreateNewProjectCommand.cs:199-210 | a line survives exactly when it contains none of the tokens (`tokens.Any(line.Contains)` is false); each surviving line keeps its number of copies, and nothing is added |
| `LineFilter.RemoveLinesKeepsExactly` | src/CodeGen/Application/Features/Create/Commands/New/CreateNewProjectCommand.cs:197-211 | reading the filtered text back gives exactly the kept lines, in order; when none is kept the file is empty |
| `LineFilter.KeepLinesIdempotent` | src/CodeGen/Application/Features/Create/Commands/New/CreateNewProjectCommand.cs:199-210 | filtering twice with the same tokens equals filtering once |
| `IO.ChangeDirectory` | src/CodeGen/Application/Features/Create/Commands/New/CreateNewProjectCommand.cs:80 | `SetCurrentDirectory` succeeds exactly when the resolved directory exists or is an ancestor of the current one, and then moves there |
| `IO.Move` | src/CodeGen/Application/Features/Create/Commands/New/CreateNewProjectCommand.cs:94-97 | `Directory.Move` succeeds exactly when the paths differ, the source exists, the destination does not and the destination's parent does; a file moves with its text |
| `IO.MoveTreeFiles` | src/CodeGen/Application/Features/Create/Commands/New/CreateNewProjectCommand.cs:94-97 | a directory move puts every file of the tree at its rebased path with its text and leaves files outside both trees as they were |
| `IO.MoveTreeDirs` | src/CodeGen/Application/Features/Create/Commands/New/CreateNewProjectCommand.cs:94-97 | a directory move rebases every subdirectory and keeps the directories outside both trees |
| `IO.DeleteTree` | src/CodeGen/Application/Features/Create/Commands/New/CreateNewProjectCommand.cs:163 | recursive `Directory.Delete` succeeds exactly when the directory exists, and then removes the whole tree |
| `IO.Prune` | src/CodeGen/Application/Features/Create/Commands/New/CreateNewProjectCommand.cs:51-53 | after removing a tree, an entry remains exactly when it was there and lies outside the tree, with its text unchanged |
| `IO.DeleteFile` | src/CodeGen/Application/Features/Create/Commands/New/CreateNewProjectCommand.cs:195 | `File.Delete` as on Windows: fails exactly on a directory or a missing parent directory; otherwise only that file is gone (a missing file is no error) |
| `IO.ReadAll` | src/CodeGen/Application/Features/Create/Commands/New/CreateNewProjectCommand.cs:137 | reading succeeds exactly on an existing file and returns its text |
| `IO.WriteAll` | src/CodeGen/Application/Features/Create/Commands/New/CreateNewProjectCommand.cs:139 | writing succeeds exactly when the path is not a directory and its parent exists, and then sets that file's text alone |
| `IO.FilesUnder` | src/CodeGen/Application/Features/Create/Commands/New/CreateNewProjectCommand.cs:54-57 | the listing holds exactly the files strictly inside the root, at any depth |
| `IO.FileSystem.SetCurrentDirectory` | src/CodeGen/Application/Features/Create/Commands/New/CreateNewProjectCommand.cs:80 | the working directory moves to the resolved target on success and stays on failure |
| `IO.FileSystem.DirectoryMove` | src/CodeGen/Application/Features/Create/Commands/New/CreateNewProjectCommand.cs:133 | the disk becomes the result of `Move`, or stays as it was when the move throws |
| `IO.FileSystem.DirectoryDelete` | src/CodeGen/Application/Features/Create/Commands/New/CreateNewProjectCommand.cs:163 | the disk becomes the result of `DeleteTree`, or stays as it was when it throws |
| `IO.FileSystem.FileDelete` | src/CodeGen/Application/Features/Create/Commands/New/CreateNewProjectCommand.cs:195 | the disk becomes the result of `DeleteFile`, or stays as it was when it throws |
| `IO.FileSystem.ReadAllText` | src/CodeGen/Application/Features/Create/Commands/New/CreateNewProjectCommand.cs:137 | returns what `ReadAll` gives on the current disk |
| `IO.FileSystem.WriteAllText` | src/CodeGen/Application/Features/Create/Commands/New/CreateNewProjectCommand.cs:139 | the disk becomes the result of `WriteAll`, or stays as it was when it throws |
| `IO.FileSystem.DeleteDirectory` | src/CodeGen/Application/Features/Create/Commands/New/CreateNewProjectCommand.cs:51-53 | the tree at the path is gone and nothing else changes |
| `IO.FileSystem.GetFilesInDirectoryTree` | src/CodeGen/Application/Features/Create/Commands/New/CreateNewProjectCommand.cs:54-57 | returns exactly the files inside the root on the current disk |
| `Rename.RelocationEffect` | src/CodeGen/Application/Features/Create/Commands/New/CreateNewProjectCommand.cs:124-140 | a relocate-and-replace that returns normally found a file at `path`. The entry leaves `path` exactly when the path contains the search string. The file then sits at the replaced path, its text has every occurrence replaced, and every other entry is untouched |
| `Rename.RelocationWithoutMatch` | src/CodeGen/Application/Features/Create/Commands/New/CreateNewProjectCommand.cs:130-139 | when the search string is in neither the path nor the text, the disk is unchanged |
| `Rename.RelocationTwice` | src/CodeGen/Application/Features/Create/Commands/New/CreateNewProjectCommand.cs:111-120 | two relocations of one file whose path holds neither search string leave its text with both replacements applied, first then second |
| `Rename.ReplaceFileContentWithProjectName` | src/CodeGen/Application/Features/Create/Commands/New/CreateNewProjectCommand.cs:124-140 | the new disk and the exception are those of `Relocation` on the old disk |
| `Rename.RenameStepAt` | src/CodeGen/Application/Features/Create/Commands/New/CreateNewProjectCommand.cs:82-120 | every rewrite step of the rename has a non-empty search string, as .NET `Replace` demands |
| `Rename.EnterAndLeave` | src/CodeGen/Application/Features/Create/Commands/New/CreateNewProjectCommand.cs:80-122 | entering `./<name>` succeeds exactly when `cwd/<name>` exists, and for a name without '/' `../` from there always leads back to `cwd` |
| `Rename.RenameRestoresWorkingDirectory` | src/CodeGen/Application/Features/Create/Commands/New/CreateNewProjectCommand.cs:78-122 | for a name without '/', a rename that returns normally leaves the working directory where it was; one that throws inside the project leaves it there |
| `Rename.AppSettingsSteps` | src/CodeGen/Application/Features/Create/Commands/New/CreateNewProjectCommand.cs:111-120 | the last two steps are the two relocations of the settings file, "StarterProject" first |
| `Rename.RenameRewritesAppSettingsInOrder` | src/CodeGen/Application/Features/Create/Commands/New/CreateNewProjectCommand.cs:111-120 | for a settings path that holds neither search string, when the last two steps succeed, the settings file holds its old text with "StarterProject" replaced by the Pascal name, then "starterProject" by the camel name |
| `Rename.RunRenameSteps` | src/CodeGen/Application/Features/Create/Commands/New/CreateNewProjectCommand.cs:82-120 | the six relocations and the move, in source order and stopping at the first exception, are the fold `RenameRun` over the step table |
| `Rename.RenameProject` | src/CodeGen/Application/Features/Create/Commands/New/CreateNewProjectCommand.cs:78-122 | disk, working directory and exception are those of `RenameOutcome` |
| `SecurityStripping.LocateAll` | src/CodeGen/Application/Features/Create/Commands/New/CreateNewProjectCommand.cs:149-193 | the listed paths are, index by index, the anchor folder followed by the entry's suffix |
| `SecurityStripping.LocateFilters` | src/CodeGen/Application/Features/Create/Commands/New/CreateNewProjectCommand.cs:197-254 | each filter is located at its anchor folder and keeps its token list, index by index |
| `SecurityStripping.DeleteDirectoriesEffect` | src/CodeGen/Application/Features/Create/Commands/New/CreateNewProjectCommand.cs:162-163 | deleting the trees only removes entries, and never one outside all the trees, even when a deletion throws partway. When every deletion succeeds, an entry remains exactly when it lies outside all the trees |
| `SecurityStripping.DeleteFilesEffect` | src/CodeGen/Application/Features/Create/Commands/New/CreateNewProjectCommand.cs:194-195 | deleting files never touches a directory and never removes an unlisted file, even when a deletion throws partway. When every deletion succeeds, exactly the listed files are gone |
| `SecurityStripping.RemoveLinesFromEffect` | src/CodeGen/Application/Features/Create/Commands/New/CreateNewProjectCommand.cs:197-211 | one filter rewrites only its own file. On success that file holds the old text without the lines that contain a token |
| `SecurityStripping.RemoveAllLinesKeepsEntries` | src/CodeGen/Application/Features/Create/Commands/New/CreateNewProjectCommand.cs:197-254 | the filters never add or remove an entry, and leave unfiltered files unchanged |
| `SecurityStripping.RemoveAllLinesFiltersEach` | src/CodeGen/Application/Features/Create/Commands/New/CreateNewProjectCommand.cs:197-254 | when the filtered files are distinct and every filter returns normally, each filtered file holds exactly its old text with the lines carrying one of its tokens removed |
| `SecurityStripping.StripListsEffect` | src/CodeGen/Application/Features/Create/Commands/New/CreateNewProjectCommand.cs:149-254 | nothing is ever created, and files outside the filtered ones keep their text. On success an entry remains exactly when it is outside every listed tree and not a listed file; when the filtered files are distinct, each holds its old text with the lines carrying one of its tokens removed |
| `SecurityStripping.StripListsFrame` | src/CodeGen/Application/Features/Create/Commands/New/CreateNewProjectCommand.cs:162-195 | however far the phases get, no entry outside the listed trees that is not a listed file is removed; directories go before files: while a listed tree remains, the strip has thrown and every file outside the trees is still there with its text |
| `SecurityStripping.StripListsNeedsFirstDirectory` | src/CodeGen/Application/Features/Create/Commands/New/CreateNewProjectCommand.cs:162-163 | a missing first directory makes the strip throw at once with the disk unchanged |
| `SecurityStripping.StripRemovesListed` | src/CodeGen/Application/Features/Create/Commands/New/CreateNewProjectCommand.cs:143-195 | a strip that returns normally leaves none of its ten trees and 26 files, and every other entry |
| `SecurityStripping.LocateFiltersDistinct` | src/CodeGen/Application/Features/Create/Commands/New/CreateNewProjectCommand.cs:197-254 | filters naming different entries name different files once placed under the source and tests folders |
| `SecurityStripping.StripPlanFiltersEach` | src/CodeGen/Application/Features/Create/Commands/New/CreateNewProjectCommand.cs:197-254 | for any plan whose filters name different entries, a strip that returns normally leaves each filtered file holding its old text minus the lines carrying one of its tokens |
| `SecurityStripping.StripFiltersEach` | src/CodeGen/Application/Features/Create/Commands/New/CreateNewProjectCommand.cs:197-254 | a strip that returns normally leaves each of the four filtered files holding its old text minus the lines carrying one of its own tokens |
| `SecurityStripping.StripNeedsFirstDirectory` | src/CodeGen/Application/Features/Create/Commands/New/CreateNewProjectCommand.cs:145-163 | the strip looks first for `<cwd>/<Pascal name>/src/<camel name>/Application/Features/Auth`. When that is missing it throws at once and changes nothing |
| `SecurityStripping.DeleteDirectoryList` | src/CodeGen/Application/Features/Create/Commands/New/CreateNewProjectCommand.cs:162-163 | the `foreach` loop over directories equals the fold `DeleteDirectories` |
| `SecurityStripping.DeleteFileList` | src/CodeGen/Application/Features/Create/Commands/New/CreateNewProjectCommand.cs:194-195 | the `foreach` loop over files equals the fold `DeleteFiles` |
| `SecurityStripping.RemoveLinesAsync` | src/CodeGen/Application/Features/Create/Commands/New/CreateNewProjectCommand.cs:197-211 | read, filter and write back equal `RemoveLinesFrom` |
| `SecurityStripping.RemoveLinesInOrder` | src/CodeGen/Application/Features/Create/Commands/New/CreateNewProjectCommand.cs:197-254 | the four filters in order, stopping at the first exception, equal `RemoveAllLines` |
| `SecurityStripping.RunStripLists` | src/CodeGen/Application/Features/Create/Commands/New/CreateNewProjectCommand.cs:149-254 | the three phases in order equal `StripLists` |
| `SecurityStripping.StripWithPlan` | src/CodeGen/Application/Features/Create/Commands/New/CreateNewProjectCommand.cs:145-254 | paths are located from the current working directory and the Pascal name; the result equals `StripPlan` |
| `SecurityStripping.RemoveSecurityMechanism` | src/CodeGen/Application/Features/Create/Commands/New/CreateNewProjectCommand.cs:143-254 | new disk and exception equal `Strip` over the security feature's own tables |
| `CreateNewProject.ResponseFields` | src/CodeGen/Application/Features/Create/Commands/New/CreateNewProjectCommand.cs:33-70 | the response at yield k holds the k-th status and the message of the phase before it (none at first). Only the last yield carries an output message (the Update-Database warning) and the listing |
| `CreateNewProject.EventAt` | src/CodeGen/Application/Features/Create/Commands/New/CreateNewProjectCommand.cs:37-70 | the k-th event emitted is the response as it stood at the k-th `yield return` |
| `CreateNewProject.EventsBeforeListing` | src/CodeGen/Application/Features/Create/Commands/New/CreateNewProjectCommand.cs:54-65 | the first three events do not depend on the listing |
| `CreateNewProject.HandleYieldsFourTimesIffCompleted` | src/CodeGen/Application/Features/Create/Commands/New/CreateNewProjectCommand.cs:28-71 | a run yields between one and four times, and four times exactly when it completes, whatever the flag |
| `CreateNewProject.StatusesInOrder` | src/CodeGen/Application/Features/Create/Commands/New/CreateNewProjectCommand.cs:36-64 | the statuses are Cloning, Preparing, Initializing git and Completed, in that order |
| `CreateNewProject.LastOperationReportsPreviousPhase` | src/CodeGen/Application/Features/Create/Commands/New/CreateNewProjectCommand.cs:40-62 | the first event has no last-operation message. Each later one carries the clone, prepare or git-init message in turn |
| `CreateNewProject.ListingAndOutputOnlyOnLastEvent` | src/CodeGen/Application/Features/Create/Commands/New/CreateNewProjectCommand.cs:38-69 | only the last event carries the listing and an output message, and that message is the Update-Database warning (line 68 overwrites line 66) |
| `CreateNewProject.StripRunsIffSecurityDropped` | src/CodeGen/Application/Features/Create/Commands/New/CreateNewProjectCommand.cs:45-47 | with the flag set, preparation is the rename alone. With it cleared, a preparation that returns normally has removed exactly the listed trees and files |
| `CreateNewProject.ListingExcludesGitMetadata` | src/CodeGen/Application/Features/Create/Commands/New/CreateNewProjectCommand.cs:51-61 | the listing is exactly the project's files outside the cloned `.git`. It is the same whatever git init later does |
| `CreateNewProject.GitInitRestoresWorkingDirectory` | src/CodeGen/Application/Features/Create/Commands/New/CreateNewProjectCommand.cs:308-321 | for a name without '/', git initialisation that returns normally ends where it began; one that fails after entering stays in the project |
| `CreateNewProject.NestedNameStaysInside` | src/CodeGen/Application/Features/Create/Commands/New/CreateNewProjectCommand.cs:308-321 | for a name `<first>/<second>` whose directory exists and git calls that succeed, initialisation returns normally but ends in `cwd/<first>`, not `cwd` |
| `CreateNewProject.HandleRestoresWorkingDirectory` | src/CodeGen/Application/Features/Create/Commands/New/CreateNewProjectCommand.cs:28-71 | for a name without '/', a run that completes leaves the working directory where it found it |
| `CreateNewProject.CreateNewProjectCommand.constructor` | src/CodeGen/Application/Features/Create/Commands/New/CreateNewProjectCommand.cs:11-17 | the parameterless request has an empty name and keeps the security feature (the flag defaults to true) |
| `CreateNewProject.CreateNewProjectCommand.WithOptions` | src/CodeGen/Application/Features/Create/Commands/New/CreateNewProjectCommand.cs:19-23 | the request holds the given name and flag |
| `CreateNewProject.CloneCorePackagesAndStarterProject` | src/CodeGen/Application/Features/Create/Commands/New/CreateNewProjectCommand.cs:73-76 | the disk becomes what the clone leaves, or the clone's failure is reported |
| `CreateNewProject.PrepareProject` | src/CodeGen/Application/Features/Create/Commands/New/CreateNewProjectCommand.cs:45-47 | the rename, then the strip unless the flag keeps the feature, equal `Preparation` |
| `CreateNewProject.ClearGitMetadataAndList` | src/CodeGen/Application/Features/Create/Commands/New/CreateNewProjectCommand.cs:51-57 | the cloned `.git` tree is gone, and the listing holds the project's files on the disk after that |
| `CreateNewProject.InitializeGitRepository` | src/CodeGen/Application/Features/Create/Commands/New/CreateNewProjectCommand.cs:308-321 | enter the project, `init`, `branch -m master main`, back to `../`; equals `GitInitOutcome` |
| `CreateNewProject.CreateNewProjectCommandHandler.YieldReturn` | src/CodeGen/Application/Features/Create/Commands/New/CreateNewProjectCommand.cs:37 | the consumer receives the response as it stands at that moment |
| `CreateNewProject.CreateNewProjectCommandHandler.Handle` | src/CodeGen/Application/Features/Create/Commands/New/CreateNewProjectCommand.cs:28-71 | the emitted events are the first `yieldCount` snapshots, and disk, working directory and failure equal `HandleOutcome` |
| `CreateNewProject.CreateNewProjectCommandHandler.PrepareAndInitialize` | src/CodeGen/Application/Features/Create/Commands/New/CreateNewProjectCommand.cs:43-70 | from the second yield on, `Handle` equals `AfterClone` |
| `CreateNewProject.CreateNewProjectCommandHandler.ListAndInitialize` | src/CodeGen/Application/Features/Create/Commands/New/CreateNewProjectCommand.cs:51-70 | from the listing on, `Handle` equals `AfterPreparation` |

## Left out

- `FileHelper.RemoveContentAsync` (lines 256-305) removes the JWT set-up blocks from `Program.cs`. `FileHelper` is not part of this model, so the strip ends after the line filters.
- `FileHelper.RemoveLinesAsync` is not part of this model either. Its file is taken as lines separated by '\n', and the kept lines are written back joined by '\n'. Carriage returns stay inside the lines.
- `GitCommandHelper.RunAsync` runs the `git` process. It is a parameter: the disk each call leaves, or `None` when it fails. What git writes inside `.git` is not modelled.
- `ToPascalCase` and `ToCamelCase` are not part of this model. Their results are given as `CaseForms`.
- `DirectoryHelper.DeleteDirectory` is not part of this model. It is taken to remove the tree if it exists and to do nothing otherwise.
- `DirectoryHelper.GetFilesInDirectoryTree` is not part of this model. It is taken to return every file below the root, at any depth. The listing is a set: the enumeration order of the returned collection is not modelled.
- Async/await, the cancellation token and MediatR's dispatch are not modelled. The calls run in sequence.
- The stream yields one response object four times. The model records a value snapshot at each yield. A consumer that keeps the reference and reads it after a later mutation would see newer values; that aliasing is not modelled.
- `projectTestsPath` ends with '/', and its suffixes start with '/'. The resulting "//" is modelled as one separator, as the operating system resolves it.
- Paths are compared as written. There is no normalisation of ".", "..", case or trailing separators beyond `SetCurrentDirectory`'s own "./<name>" and "../".
- `Directory.Move` refusing to move a directory into its own subtree is not modelled. Neither are cross-volume moves and access rights; every file is readable and writable text.
- Exceptions are named by `IoError` and `GitFailed`. Their .NET types and messages, and encoding errors on non-text files, are not modelled.
- The commented-out steps of `initializeGitRepository` (lines 313-319) are not code and are not modelled.
- No lemma claims that `Replace` leaves no occurrence behind: the replacement may itself contain the search string.
- The handler's lemmas about `Handle` hold for any removal plan. The handler strips `SecurityMechanism`, whose tables only `SecurityStripping.StripRemovesListed`, `SecurityStripping.StripFiltersEach` and `SecurityStripping.StripNeedsFirstDirectory` spell out.
- A project name containing '/' (such as "a/b") is not rejected. Entering `./a/b` and then `../` ends in `cwd/a`, not `cwd`, so the working directory is not restored. The restore lemmas therefore require a name without '/'. `CreateNewProject.NestedNameStaysInside` shows the case.
- `IO.DeleteFile` follows .NET on Windows, where `File.Delete` throws when the file's folder is missing. On Unix .NET treats a missing folder as no error, so there the strip would go on past such a file.
- An empty project name (the parameterless command's default, line 16) is not modelled faithfully. `SetCurrentDirectory("./")` stays in the working directory, but `Resolve` takes "./" + "" to `cwd + "/"`, which is not a directory, so the model's rename throws there.
- The disk holds decoded text. `File.WriteAllText` (line 139) always writes UTF-8 without a byte-order mark, even when nothing matched, so a file that began with one loses it. `Rename.RelocationWithoutMatch`'s "disk unchanged" holds at the level of text only.
