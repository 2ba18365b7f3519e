# gocd-qt-plugin core, modelled in Dafny

The model covers the GoCD task plugin that builds Qt projects. A task configuration has four entries: Build, Target, Command and Packages. Together with a job context (a working directory and environment variables), the plugin turns it into a run of build steps. Each step is a shell command line started with an environment derived from the job's. The exit code of each step then gives a success or failure response.

Both task executors are modelled:

- `TaskHandler.handle` is the newer one. It has a case-sensitive mode switch over BUILD, TEST, REPOSITORY and ONLINE/OFFLINE/INSTALLER, plus a default branch.
- `QtTaskExecutor.execute` is the older one. It has only BUILD (compared ignoring ASCII letter case, and only with a target) and TEST.

A BUILD runs QMAKE once, then MAKE once per trimmed piece of the comma-split target list. A trailing comma adds one more MAKE without a target. The run stops at the first step that does not succeed. REPOSITORY runs the Qt Installer Framework's repogen, and ONLINE/OFFLINE/INSTALLER run its binarycreator. Both tools are set up through the mutable builders `Qt`, `QtRepoGen` and `QtInstaller`. `toModules` reads a module list and completes it from a package folder.

## How the model is built

- Java's `null` is `Option.None`. Every NullPointerException the code raises is `Thrown(NullPointer)`, an exception with a null message. This covers:
  - a null value put into the process environment;
  - `Paths.get` on a null segment;
  - `new File(null)` when QT_HOME is not set;
  - a null argument in `ProcessBuilder.start`;
  - `listFiles()` returning null;
  - a switch on a null build.
- The host is a `Platform` value. It holds:
  - the `os.name` property;
  - `getAbsolutePath` as an uninterpreted function;
  - the agent's own environment;
  - directory listings as an uninterpreted function from folder to names, or null when the folder cannot be listed.
- Starting processes is an oracle. It maps the step's index within the request and the process handed to `start()` to an exit code or a thrown exception. A ghost trace records every process handed to `start()`. This is how the ordering and short-circuit properties are stated.
- Each imperative operation is a method proved equal to a specification function. The properties of those functions are lemmas:
  - `createCommand`, `updateEnvironment`, `process` and the BUILD loop;
  - `getConfig`, `toModules`;
  - the builders' `getCommand` and `build`.
- A run of steps is stated over a runner: a function from a step and its index to how that step ends. The BUILD loop is proved for any runner that agrees with the request's own steps, and both executors use the request's runner (`RunnerOf`).
- The builders are classes whose setters change their fields in place. Java inheritance from `Qt` becomes a `qt` field holding the shared `Qt` state.
- `String.split` with a one-character pattern is modelled exactly. A string without a delimiter gives itself, so `""` gives `[""]`. Otherwise trailing empty strings are dropped: `","` gives `[]` and `"a,b,"` gives `[a, b]`.

Three behaviours of the code are worth stating outright:

- The mode switch of `handle` is case-sensitive, so `build` is "Nothing to do" there, while `execute` builds.
- A BUILD only rejects a null target. An empty target runs QMAKE and a MAKE without a target.
- Empty middle entries of QT_CONFIG are kept, and become `CONFIG+=` flags with nothing after them.
- `Qt2` and `info.tol.gocd.util.Environment` are not part of this model. `Qt2.getArch/getSpec/getConfig/isWindows` are taken to behave like `cd/go/task/qt/Qt.java` and `Util.isWindows`. `Environment.get` is a map lookup and `Environment.isSet` is key presence. Both generations share one TaskResponse.

## Model

| member | source | states |
|---|---|---|
| Util.ContainsIgnoreCaseIff | src/main/java/cd/go/task/qt/Util.java:55-57 | false when the text or the value is null; otherwise true exactly when the lower-cased value occurs at some index of the lower-cased text |
| Util.IsWindowsIff | src/main/java/cd/go/task/qt/Util.java:46-51 | the OS is Windows exactly when os.name is non-null and "windows" occurs in it in any letter case |
| JavaText.ContainsIff | src/main/java/info/tol/gocd/task/qt/Qt.java:95 | String.contains holds exactly when the part occurs at some index |
| JavaText.BlankIff | src/main/java/cd/go/task/qt/Qt.java:79 | trim().isEmpty() holds exactly when every character is at most U+0020 |
| JavaText.ToLower | src/main/java/cd/go/task/qt/Util.java:56 | toLowerCase keeps the length and lowers each ASCII letter |
| JavaText.SplitJoin | src/main/java/cd/go/task/qt/Qt.java:80 | joining the comma split gives the string back unless it ends with a comma |
| JavaText.SplitOfPieces | src/main/java/cd/go/task/qt/Qt.java:80 | the join of two or more delimiter-free strings splits back into them less the trailing empty ones |
| JavaText.SplitOfJoin | src/main/java/info/tol/gocd/task/qt/Qt.java:167 | comma-free parts whose last one is not empty split back out of their comma join |
| JavaText.SplitDropsTrailing | src/main/java/info/tol/gocd/task/qt/handler/TaskHandler.java:112 | a string ending with the delimiter splits into fewer strings than it has pieces (the trailing empties are lost) |
| JavaText.PiecesFree | src/main/java/info/tol/gocd/task/qt/handler/TaskHandler.java:349 | no piece of a split holds a delimiter |
| JavaText.SplitRestrict | src/main/java/info/tol/gocd/task/qt/handler/TaskHandler.java:349 | a split only depends on which characters of the string are delimiters |
| JavaText.IntRoundTrip | src/main/java/info/tol/gocd/task/qt/handler/TaskHandler.java:138 | the decimal text of an int reads back as that int |
| JavaRuntime.LastIndexOf | src/main/java/info/tol/gocd/task/qt/Qt.java:68-70 | the index of the last occurrence of the separator, or -1 when there is none |
| JavaRuntime.Values | src/main/java/info/tol/gocd/task/qt/handler/TaskHandler.java:187 | the strings behind a list without nulls, element by element |
| JavaRuntime.ProcessBuilder.constructor | src/main/java/info/tol/gocd/task/qt/handler/TaskHandler.java:265 | a new builder holds the command, no directory and a copy of the agent's environment |
| JavaRuntime.ProcessBuilder.Directory | src/main/java/info/tol/gocd/task/qt/handler/TaskHandler.java:180 | sets only the directory |
| JavaRuntime.ProcessBuilder.PutAll | src/main/java/info/tol/gocd/task/qt/handler/TaskHandler.java:181 | lays the entries over the environment and changes nothing else |
| JavaRuntime.ProcessBuilder.Put | src/main/java/info/tol/gocd/task/qt/handler/TaskHandler.java:278-279 | putting a null value throws and leaves the environment unchanged; otherwise it sets the one entry |
| JavaRuntime.ProcessBuilder.Spec | src/main/java/info/tol/gocd/task/qt/handler/TaskHandler.java:187 | start() succeeds exactly when no argument is null, and then runs the command with the directory and environment held |
| Response.Success | src/main/java/cd/go/task/qt/TaskResponse.java:49-51 | success, the message, no throwable, the success code |
| Response.Failure | src/main/java/cd/go/task/qt/TaskResponse.java:53-55 | failure, the message, no throwable, the internal-error code |
| Response.FailureWith | src/main/java/cd/go/task/qt/TaskResponse.java:57-59 | failure keeping both the throwable and the message |
| Response.ResponseCode | src/main/java/cd/go/task/qt/TaskResponse.java:37-39 | SUCCESS_RESPONSE_CODE exactly for a success, INTERNAL_ERROR exactly for a failure |
| QtEnv.Lookup | src/main/java/cd/go/task/qt/Qt.java:55 | there is a value exactly when the key is present, and it is the key's entry |
| QtEnv.GetArch | src/main/java/cd/go/task/qt/Qt.java:53-57 | the QT_ARCH entry, null exactly when it is absent |
| QtEnv.GetSpec | src/main/java/cd/go/task/qt/Qt.java:65-68 | the QT_SPEC entry, null exactly when it is absent |
| QtEnv.TrimAll | src/main/java/cd/go/task/qt/Qt.java:80 | one trimmed string per input string, in order |
| QtEnv.GetConfig | src/main/java/cd/go/task/qt/Qt.java:76-83 | the loop collects exactly the configuration entries of the environment |
| QtEnv.ConfigEntriesSpec | src/main/java/cd/go/task/qt/Qt.java:78-82 | no entries for an absent or blank QT_CONFIG; otherwise one trimmed entry per piece of the Java comma split, in order, empty middle pieces kept |
| QtEnv.ConfigRoundTrip | src/main/java/cd/go/task/qt/Qt.java:76-83 | a QT_CONFIG without blanks and without a trailing comma is the comma join of its entries |
| QtEnv.ConfigSplit | src/main/java/cd/go/task/qt/Qt.java:80 | "a, ,b," splits into a, a blank and b |
| QtEnv.ConfigTrims | src/main/java/cd/go/task/qt/Qt.java:80 | trimming those pieces gives a, "" and b |
| QtEnv.ConfigExample | src/main/java/cd/go/task/qt/Qt.java:79-81 | "a, ,b," gives a, "" and b |
| Steps.ExitResponse | src/main/java/info/tol/gocd/task/qt/handler/TaskHandler.java:193-194 | the response is a success exactly for exit code 0 and never carries a throwable |
| Steps.ExitMessage | src/main/java/info/tol/gocd/task/qt/handler/TaskHandler.java:193-194 | exit 0 reports "Executed the build"; any other exit reports a failure whose message is the status text followed by the code, which reads back as the code |
| Steps.ExitMessageExample | src/main/java/cd/go/task/qt/QtTaskExecutor.java:93-94 | exit 137 is reported as the status text followed by 137 |
| Steps.ConfigFlags | src/main/java/info/tol/gocd/task/qt/handler/TaskHandler.java:225 | one CONFIG+=entry per configuration entry, in order |
| Steps.AddConfigFlags | src/main/java/info/tol/gocd/task/qt/handler/TaskHandler.java:225 | the forEach loop appends exactly those flags |
| Steps.AddQmakeArgs | src/main/java/info/tol/gocd/task/qt/handler/TaskHandler.java:218-227 | appends the qmake arguments, or throws as the specification says |
| Steps.AddTestArgs | src/main/java/info/tol/gocd/task/qt/handler/TaskHandler.java:231-251 | appends the test arguments, or throws as the specification says |
| Steps.CreateCommand | src/main/java/info/tol/gocd/task/qt/handler/TaskHandler.java:206-266 | the method builds exactly the command line of the specification |
| Steps.VcVarsJoin | src/main/java/info/tol/gocd/task/qt/handler/TaskHandler.java:209-213 | the joined Windows line starts with "vcvarsall.bat x86_amd64 & " |
| Steps.CommandShape | src/main/java/info/tol/gocd/task/qt/handler/TaskHandler.java:262-265 | the command is always three elements: cmd /c on Windows, sh -c elsewhere, then the space-joined arguments, led on Windows by the vcvarsall set-up |
| Steps.CommandThrows | src/main/java/info/tol/gocd/task/qt/handler/TaskHandler.java:215-259 | QMAKE throws exactly without QT_ARCH; TEST throws exactly without QT_ARCH, without QT_SPEC, or (off Windows) without a non-blank command and a target; MAKE never throws |
| Steps.QmakeShape | src/main/java/info/tol/gocd/task/qt/handler/TaskHandler.java:217-228 | the qmake binary QT_HOME/arch/bin/qmake, -spec and the spec come first and the command last, with one argument per QT_CONFIG entry between them |
| Steps.QmakeConfigOrder | src/main/java/info/tol/gocd/task/qt/handler/TaskHandler.java:217-228 | the arguments between the spec and the command are CONFIG+=entry for each QT_CONFIG entry, in order |
| Steps.MakeShape | src/main/java/info/tol/gocd/task/qt/handler/TaskHandler.java:254-259 | make or jom, followed by the target exactly when it is neither null nor empty |
| Steps.TestShape | src/main/java/info/tol/gocd/task/qt/handler/TaskHandler.java:230-252 | the library path set-up, then wd/build/spec/bin/testCase with .exe on Windows, and -xunitxml last; the test case is the command unless null or blank, else the target |
| Steps.UpdateEnvironment | src/main/java/info/tol/gocd/task/qt/handler/TaskHandler.java:275-293 | puts exactly the overlay over the builder's environment, or throws when QT_ARCH or QT_SPEC is missing, and leaves command and directory alone |
| Steps.OverlayEntries | src/main/java/info/tol/gocd/task/qt/handler/TaskHandler.java:275-293 | the overlay exists exactly when QT_ARCH and QT_SPEC are set; it sets QT_ARCH, QT_SPEC, QT_BUILD = abs(wd)/build and the QML and plugin paths under QT_BUILD/spec; it sets QT_REPO = QT_REPOSITORY/RELEASE exactly when both are set |
| Steps.ChildEnvironment | src/main/java/info/tol/gocd/task/qt/handler/TaskHandler.java:181-182 | the child sees the overlay's value, else the job's, else the agent's |
| Steps.Process | src/main/java/info/tol/gocd/task/qt/handler/TaskHandler.java:177-195 | the step launches and answers exactly as the specification of one step says |
| Steps.StepSucceeds | src/main/java/info/tol/gocd/task/qt/handler/TaskHandler.java:179-194 | a step launches at most one process, none exactly when it throws first; it succeeds exactly when that process exits with 0 |
| Orchestration.MakeSteps | src/main/java/info/tol/gocd/task/qt/handler/TaskHandler.java:112-113 | one MAKE step per piece, with the trimmed piece as its target |
| Orchestration.RunnerOf | src/main/java/info/tol/gocd/task/qt/handler/TaskHandler.java:109 | the runner of a request runs each step as a step of that request |
| Orchestration.RunnerOneLaunch | src/main/java/info/tol/gocd/task/qt/handler/TaskHandler.java:187 | every step of a request launches at most one process, and one when it succeeds |
| Orchestration.RunSnoc | src/main/java/info/tol/gocd/task/qt/handler/TaskHandler.java:112-117 | after a successful prefix the next step runs as the next launch |
| Orchestration.RunStopped | src/main/java/info/tol/gocd/task/qt/handler/TaskHandler.java:114-116 | once a step does not succeed, later steps never start |
| Orchestration.RunLaunches | src/main/java/info/tol/gocd/task/qt/handler/TaskHandler.java:109-123 | at most one launch per step, and the i-th launch belongs to the i-th step |
| Orchestration.RunGoesOn | src/main/java/info/tol/gocd/task/qt/handler/TaskHandler.java:110-120 | every step before the last one run succeeded |
| Orchestration.RunSucceeds | src/main/java/info/tol/gocd/task/qt/handler/TaskHandler.java:109-125 | a run succeeds exactly when every step of the plan ran and succeeded |
| Orchestration.StopIndex | src/main/java/info/tol/gocd/task/qt/handler/TaskHandler.java:114-121 | the run ends at an index of the plan |
| Orchestration.RunEndsAtFirstFailure | src/main/java/info/tol/gocd/task/qt/handler/TaskHandler.java:114-125 | the run ends with the first step that does not succeed, or with the last step, and all steps before it succeeded |
| Orchestration.BuildPlanShape | src/main/java/info/tol/gocd/task/qt/handler/TaskHandler.java:109-123 | QMAKE first, then one MAKE per trimmed piece in split order, then one MAKE "" exactly when the targets end in a comma |
| Orchestration.RequestTrace | src/main/java/info/tol/gocd/task/qt/handler/TaskHandler.java:109-125 | the launches are the plan's processes in order; each but the last exited with 0; success exactly when every step launched and exited with 0 |
| Orchestration.QmakeFirst | src/main/java/info/tol/gocd/task/qt/handler/TaskHandler.java:109-110 | the first launch is QMAKE, and when QMAKE does not succeed its outcome is the build's with no MAKE launched |
| Orchestration.MakeOrder | src/main/java/info/tol/gocd/task/qt/handler/TaskHandler.java:111-117 | the launches after QMAKE are the MAKE targets in split order, and a successful build ran its whole plan |
| Orchestration.SplitLoneComma | src/main/java/info/tol/gocd/task/qt/handler/TaskHandler.java:112 | "," splits into no target at all |
| Orchestration.SplitTwoTargets | src/main/java/info/tol/gocd/task/qt/handler/TaskHandler.java:112 | "a,b," splits into a and b |
| Orchestration.SplitDoubledComma | src/main/java/info/tol/gocd/task/qt/handler/TaskHandler.java:112 | "a,," splits into a alone |
| Orchestration.EmptyTargets | src/main/java/info/tol/gocd/task/qt/handler/TaskHandler.java:112-119 | "" gives QMAKE and one MAKE without target |
| Orchestration.LoneComma | src/main/java/info/tol/gocd/task/qt/handler/TaskHandler.java:112-119 | "," also gives QMAKE and one MAKE without target |
| Orchestration.TrailingComma | src/main/java/info/tol/gocd/task/qt/handler/TaskHandler.java:118-123 | "a,b," gives MAKE a, MAKE b, then one MAKE "" |
| Orchestration.TrailingCommas | src/main/java/info/tol/gocd/task/qt/handler/TaskHandler.java:112-123 | "a,," gives MAKE a and a single MAKE "" |
| Orchestration.RunAdvance | src/main/java/info/tol/gocd/task/qt/handler/TaskHandler.java:112-113 | one more step after a successful prefix extends the run by that step's result and launch |
| Orchestration.RunHalts | src/main/java/info/tol/gocd/task/qt/handler/TaskHandler.java:114-116 | a prefix of the plan that did not succeed is the whole run |
| Orchestration.RunMakes | src/main/java/info/tol/gocd/task/qt/handler/TaskHandler.java:111-117 | the target loop either succeeds through every MAKE step or returns the run of the whole plan |
| Orchestration.RunTrailing | src/main/java/info/tol/gocd/task/qt/handler/TaskHandler.java:118-122 | the trailing-comma MAKE completes the run of the plan |
| Orchestration.RunBuild | src/main/java/info/tol/gocd/task/qt/handler/TaskHandler.java:104-125 | given a runner that runs each step as the request does, the BUILD loop with its early returns returns the result and launches the processes of the specified run of the plan |
| QtTool.IsWindowsAgrees | src/main/java/info/tol/gocd/task/qt/Qt.java:135-138 | the builders' OS test holds exactly when os.name is non-null and contains "windows" after lower-casing, and agrees with Util.isWindows |
| QtTool.QuoteIfSpaced | src/main/java/info/tol/gocd/task/qt/Qt.java:95 | a path with a space comes back in double quotes, any other path unchanged |
| QtTool.QuoteIfSpacedMeaning | src/main/java/info/tol/gocd/task/qt/Qt.java:95 | the result has a space exactly when the path has one, and then it is the unchanged path between two double quotes |
| QtTool.MakeToolChoice | src/main/java/info/tol/gocd/task/qt/Qt.java:89-96 | make off Windows; on Windows the absolute jom path under the Qt base, quoted exactly when it has a space |
| QtTool.VcVarsAllChoice | src/main/java/info/tol/gocd/task/qt/Qt.java:101-105 | VC_VARSALL/vcvarsall.bat made absolute, quoted exactly when it has a space; an unset VC_VARSALL throws |
| QtTool.InstallerBinFound | src/main/java/info/tol/gocd/task/qt/Qt.java:111-117 | the installer folder is found exactly when QT_HOME has a parent whose Tools/QtInstallerFramework can be listed; it is a bin folder inside that directory |
| QtTool.ToolNames | src/main/java/info/tol/gocd/task/qt/Qt.java:122-133 | repogen and binarycreator carry .exe exactly on Windows and sit in the installer bin folder |
| QtTool.BaseArgumentsShape | src/main/java/info/tol/gocd/task/qt/Qt.java:161-172 | -i and the comma-joined modules come first exactly when there are modules; -p and the package path always close the list |
| QtTool.ModulesRoundTrip | src/main/java/info/tol/gocd/task/qt/Qt.java:166-167 | the -i argument splits back into comma-free modules |
| QtTool.Qt.constructor | src/main/java/info/tol/gocd/task/qt/Qt.java:52-56 | home is QT_HOME; working directory and environment kept; no packages and no modules |
| QtTool.Qt.SetPackagePath | src/main/java/info/tol/gocd/task/qt/Qt.java:143-146 | overwrites the package path only and returns this |
| QtTool.Qt.AddModules | src/main/java/info/tol/gocd/task/qt/Qt.java:153-156 | appends the modules in order, changes nothing else, returns this |
| QtTool.Qt.GetCommand | src/main/java/info/tol/gocd/task/qt/Qt.java:161-172 | the appended list is the -i/-p arguments of the current modules and package path |
| QtTool.Qt.Build | src/main/java/info/tol/gocd/task/qt/Qt.java:184-189 | starts the command in the absolute working directory with the environment over the agent's, or throws on a null argument |
| QtInstaller.ModeNamed | src/main/java/info/tol/gocd/task/qt/QtInstaller.java:44-56 | ONLINE exactly for "ONLINE", OFFLINE exactly for "OFFLINE", BOTH for every other name |
| QtInstaller.InstallerArgumentsShape | src/main/java/info/tol/gocd/task/qt/QtInstaller.java:67-87 | binarycreator first, -n for ONLINE, -f for OFFLINE and none for BOTH, then -c and the config, the base arguments unchanged, the name last |
| QtInstaller.QtInstaller.constructor | src/main/java/info/tol/gocd/task/qt/QtInstaller.java:29-32 | a new installer has mode BOTH, no name, no configuration, and a fresh Qt state |
| QtInstaller.QtInstaller.SetName | src/main/java/info/tol/gocd/task/qt/QtInstaller.java:34-37 | overwrites only the name, returns this |
| QtInstaller.QtInstaller.SetMode | src/main/java/info/tol/gocd/task/qt/QtInstaller.java:39-42 | overwrites only the mode, returns this |
| QtInstaller.QtInstaller.SetModeNamed | src/main/java/info/tol/gocd/task/qt/QtInstaller.java:44-56 | sets the mode the name selects, nothing else, returns this |
| QtInstaller.QtInstaller.SetConfig | src/main/java/info/tol/gocd/task/qt/QtInstaller.java:58-61 | overwrites only the configuration, returns this |
| QtInstaller.QtInstaller.GetCommand | src/main/java/info/tol/gocd/task/qt/QtInstaller.java:67-87 | the command of the current fields, or what locating binarycreator throws |
| QtInstaller.QtInstaller.Build | src/main/java/info/tol/gocd/task/qt/Qt.java:184-189 | starts that command, or throws |
| QtInstaller.Of | src/main/java/info/tol/gocd/task/qt/QtInstaller.java:95-97 | throws exactly when QT_HOME is not set; otherwise a fresh installer in its initial state |
| QtRepoGen.RepoGenArgumentsShape | src/main/java/info/tol/gocd/task/qt/QtRepoGen.java:40-51 | for every input: repogen first, --update right after it when update is on, the base arguments unchanged, the repository last |
| QtRepoGen.RepoGenUpdateFlag | src/main/java/info/tol/gocd/task/qt/QtRepoGen.java:44-46 | when no other argument is --update, the command holds --update exactly when update is on |
| QtRepoGen.QtRepoGen.constructor | src/main/java/info/tol/gocd/task/qt/QtRepoGen.java:21-24 | a new generator has update off and no repository |
| QtRepoGen.QtRepoGen.SetUpdate | src/main/java/info/tol/gocd/task/qt/QtRepoGen.java:26-29 | switches update on whatever it was (so calling it twice is calling it once), returns this |
| QtRepoGen.QtRepoGen.SetRepositoryPath | src/main/java/info/tol/gocd/task/qt/QtRepoGen.java:31-34 | overwrites only the repository, returns this |
| QtRepoGen.QtRepoGen.GetCommand | src/main/java/info/tol/gocd/task/qt/QtRepoGen.java:40-51 | the command of the current fields, or what locating repogen throws |
| QtRepoGen.QtRepoGen.Build | src/main/java/info/tol/gocd/task/qt/Qt.java:184-189 | starts that command, or throws |
| QtRepoGen.Of | src/main/java/info/tol/gocd/task/qt/QtRepoGen.java:59-61 | throws exactly when QT_HOME is not set; otherwise a fresh generator in its initial state |
| Handler.CaughtMeaning | src/main/java/info/tol/gocd/task/qt/handler/TaskHandler.java:159-164 | the request succeeds exactly when its last response does; a Throwable becomes a failure carrying its message and no throwable |
| Handler.ToolRunOutcome | src/main/java/info/tol/gocd/task/qt/handler/TaskHandler.java:131-139 | a tool run launches its process exactly when building it did not throw, and succeeds exactly when it exits with 0 |
| Handler.RepositoryLaunch | src/main/java/info/tol/gocd/task/qt/handler/TaskHandler.java:302-312 | repogen is started exactly when QT_HOME is set, the installer folder is found and packages are configured, as repogen --update -p packages build/repository in abs(wd) |
| Handler.InstallerLaunch | src/main/java/info/tol/gocd/task/qt/handler/TaskHandler.java:322-336 | binarycreator is started exactly when QT_HOME is set, the folder is found and command, packages and target are set, as binarycreator [-n/-f] -c command -p packages target |
| Handler.InstallerValues | src/main/java/info/tol/gocd/task/qt/QtInstaller.java:67-87 | the installer command holds no null exactly when config, packages and name are set |
| Handler.CreateRepogen | src/main/java/info/tol/gocd/task/qt/handler/TaskHandler.java:302-312 | the builder calls produce exactly the specified repogen process |
| Handler.CreateInstaller | src/main/java/info/tol/gocd/task/qt/handler/TaskHandler.java:322-336 | the builder calls produce exactly the specified binarycreator process |
| Handler.Await | src/main/java/info/tol/gocd/task/qt/handler/TaskHandler.java:135-139 | waiting maps the exit code like a build step |
| Handler.Handle | src/main/java/info/tol/gocd/task/qt/handler/TaskHandler.java:95-165 | null build fails with a null message; BUILD without target fails with "No target defined"; BUILD runs its plan; TEST one TEST step; REPOSITORY and ONLINE/OFFLINE/INSTALLER one tool run; any other name "Nothing to do", none of these launching anything else |
| Handler.NonBlank | src/main/java/info/tol/gocd/task/qt/handler/TaskHandler.java:349-353 | keeps exactly the names that are not blank |
| Handler.TokensClean | src/main/java/info/tol/gocd/task/qt/handler/TaskHandler.java:349-353 | every module read from the text is non-blank and holds no comma or whitespace |
| Handler.NonBlankKeeps | src/main/java/info/tol/gocd/task/qt/handler/TaskHandler.java:350-352 | a list of non-blank names is kept as it is |
| Handler.TokensOfJoin | src/main/java/info/tol/gocd/task/qt/handler/TaskHandler.java:349-353 | a comma-joined list of clean names reads back as that list |
| Handler.SplitModules | src/main/java/info/tol/gocd/task/qt/handler/TaskHandler.java:349 | the delimiter split of a comma-joined list of clean names is that list |
| Handler.ExpandKeeps | src/main/java/info/tol/gocd/task/qt/handler/TaskHandler.java:355-361 | the modules read from the text stay in place, names are only appended |
| Handler.ExpandAdds | src/main/java/info/tol/gocd/task/qt/handler/TaskHandler.java:355-361 | each appended name is listed in the package folder, is not yet a module when appended (so it is added at most once), and is a prefix of a module read from the text |
| Handler.ExpandMember | src/main/java/info/tol/gocd/task/qt/handler/TaskHandler.java:355-361 | a listed name ends up among the modules exactly when it already was one or is a prefix of one |
| Handler.ExpandMemberOnlyIf | src/main/java/info/tol/gocd/task/qt/handler/TaskHandler.java:357-358 | an appended listed name is a prefix of a module read from the text |
| Handler.ExpandMemberIf | src/main/java/info/tol/gocd/task/qt/handler/TaskHandler.java:355-361 | a listed name that is a prefix of a module is among the result |
| Handler.ListedModules | src/main/java/info/tol/gocd/task/qt/handler/TaskHandler.java:348-353 | the first loop keeps exactly the non-blank pieces of the text, in order |
| Handler.AdoptEntry | src/main/java/info/tol/gocd/task/qt/handler/TaskHandler.java:356-360 | the inner loop adds the folder entry once when some module starts with it and it is not yet a module |
| Handler.ToModules | src/main/java/info/tol/gocd/task/qt/handler/TaskHandler.java:346-364 | no modules for a null text; otherwise the tokens completed from the folder; a null package path or an unreadable folder throws |
| Executor.IsBuildIff | src/main/java/cd/go/task/qt/QtTaskExecutor.java:40 | a request builds exactly when the mode is BUILD in any ASCII letter case and there is a target |
| Executor.IsBuildExamples | src/main/java/cd/go/task/qt/QtTaskExecutor.java:40 | "build" with a target builds; INSTALLER or a missing target falls through to TEST |
| Executor.ReportedMeaning | src/main/java/cd/go/task/qt/QtTaskExecutor.java:62-63 | success exactly when the last response succeeded; an exception becomes "Failed to invoke the build!" carrying the exception |
| Executor.Execute | src/main/java/cd/go/task/qt/QtTaskExecutor.java:39-65 | a build runs QMAKE and the MAKE plan; every other request runs one TEST step with the configured target |

## Left out

- Process execution, stream draining, `waitFor` and `destroy`: one oracle stands for all of them. It is given the step's index within the request and the process handed to `start()`.
- Console output: `printLine`, `printEnvironment`, `Qt.log` and the stack-trace dump. `Qt.log` also calls `getCommand`. It throws exactly what the later `build()` would throw, so leaving it out changes no response.
- Request parsing and the response JSON: `TaskRequest.of`, `QtConfig.of` and `toResponse`. The configuration and the context are Dafny values.
- `getAbsolutePath` depends on the process's current directory, so it is an uninterpreted function of the platform.
- Path normalisation is not modelled. `java.io.File` collapses duplicate and trailing separators. `Path.resolve` returns an absolute child unchanged. The model joins with the separator.
- JavaRuntime.Parent: models `getParentFile` with the Unix prefix rule only; Windows drive and UNC prefixes are not modelled.
- Directory listings are an input. The order of `listFiles()` is the platform's, so "the first listed installer version" means the first in that order.
- Executor.IsBuildIff / JavaText.EqualsIgnoreCase: ASCII case folding only; the non-ASCII letters that `equalsIgnoreCase` folds to I (dotless ı U+0131, dotted İ U+0130) are not modelled, so `execute` treats "buıld" or "BUİLD" with a target as a TEST request where Java builds.
- JavaText.ToLower: lowers ASCII letters only, not the full Unicode case mapping of `toLowerCase`.
- NullPointerException messages: modern JVMs give these exceptions a descriptive message. The model gives them a null message, so a handler failure caused by one has a null message.
- Exceptions and errors are not told apart. `execute` catches only `Exception`, while `handle` catches every `Throwable`. The model treats everything thrown as an exception.
- JavaRuntime.ProcessBuilder.Put: does not model that the process environment rejects names or values holding '=' or NUL characters.
- QtInstaller.QtInstaller.SetModeNamed: takes a non-null name. `setMode(null)` would throw, but `handle` only calls it with a non-null build.
- QtTool.Qt.AddModules: takes a list. `addModules(null)` would throw, and no caller in the core passes null.
- Exit codes are unbounded integers. A Java `int` is printed the same way, so no wrap-around is involved.
- `Util.readResource`, `readResourceBytes` and `readFully` are resource I/O.
- `QtPlugin`, the `request` package, `Qt2Config` and both `QtPlatform` enums are host glue and constant tables.
- Concurrency: the plugin runs one step at a time, and the stream-reading threads are part of the left-out I/O.
