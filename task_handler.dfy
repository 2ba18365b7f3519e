/** info/tol/gocd/task/qt/handler/TaskHandler.java: the mode switch of one task request (BUILD, TEST,
    REPOSITORY, ONLINE/OFFLINE/INSTALLER, anything else), the two installer-tool runs it sets up, and
    toModules, which reads a module list and completes it from a package folder. */
module Handler {
  import opened JavaText
  import opened JavaRuntime
  import opened Response
  import opened Task
  import opened Steps
  import opened Orchestration
  import QtTool
  import QtInstaller
  import QtRepoGen

  const NO_TARGET: string := "No target defined"
  const NOTHING_TO_DO: string := "Nothing to do"

  // ----- the catch of handle -----

  /** catch (Throwable e): a thrown exception becomes a failure carrying the exception's message. */
  function Caught(r: Result<TaskResponse>): TaskResponse
  {
    match r
    case Ok(response) => response
    case Thrown(e) => Failure(e.message)
  }

  /** The request succeeds exactly when its last response does; an exception becomes a failure with
      the exception's (possibly null) message and no throwable attached. */
  lemma CaughtMeaning(r: Result<TaskResponse>)
    ensures ResponseCode(Caught(r)) == SUCCESS_RESPONSE_CODE <==> Succeeded(r)
    ensures r.Thrown? ==> Caught(r) == TaskResponse(false, r.error.message, None)
  {
  }

  // ----- the installer-tool runs -----

  /** Starting the process of a tool run, waiting for it and mapping its exit code; it is the request's
      only launch. */
  function ToolRun(s: Setup, reason: Label, p: Result<ProcessSpec>): Progress
  {
    match p
    case Thrown(e) => Progress(Thrown(e), [])
    case Ok(spec) =>
      var l := Launch(reason, spec);
      match s.oracle(0, spec)
      case Exited(code) => Progress(Ok(ExitResponse(code)), [l])
      case Raised(t) => Progress(Thrown(t), [l])
  }

  /** A tool run launches its process exactly when building it did not throw, and succeeds exactly when
      that process exits with 0. */
  lemma ToolRunOutcome(s: Setup, reason: Label, p: Result<ProcessSpec>)
    ensures p.Thrown? ==> ToolRun(s, reason, p) == Progress(Thrown(p.error), [])
    ensures p.Ok? ==> ToolRun(s, reason, p).trace == [Launch(reason, p.value)]
    ensures Succeeded(ToolRun(s, reason, p).result) <==> p.Ok? && s.oracle(0, p.value) == Exited(0)
  {
  }

  /** createRepogen: the repogen process with update on, the task's package path and the fixed
      repository folder. */
  function RepositoryProcess(s: Setup): Result<ProcessSpec>
  {
    var env := s.context.environment;
    var pl := s.platform;
    if QtTool.QT_HOME !in env then Thrown(NullPointer)
    else
      match QtRepoGen.RepoGenCommand(pl, env[QtTool.QT_HOME], true, QtTool.BaseArguments([], s.config.packages), Some(QtTool.PathRepository(pl)))
      case Thrown(e) => Thrown(e)
      case Ok(command) => QtTool.StartSpec(pl, s.context.workingDir, env, command)
  }

  /** The repogen process is built exactly when QT_HOME is set, the installer folder is found and a
      package path is configured; it then runs repogen --update -p <packages> build/repository in the
      absolute working directory with the job's environment over the agent's. */
  lemma RepositoryLaunch(s: Setup)
    ensures RepositoryProcess(s).Ok? <==>
      QtTool.QT_HOME in s.context.environment
      && QtTool.InstallerBin(s.platform, s.context.environment[QtTool.QT_HOME]).Ok?
      && s.config.packages.Some?
    ensures RepositoryProcess(s).Ok? ==>
      var pl := s.platform;
      var env := s.context.environment;
      var p := RepositoryProcess(s).value;
      p.command == [pl.absolute(QtTool.RepositoryGenerator(pl, env[QtTool.QT_HOME]).value), "--update", "-p",
                    s.config.packages.value, QtTool.PathRepository(pl)]
      && p.directory == Some(pl.absolute(s.context.workingDir))
      && p.environment == pl.processEnv + env
  {
    var pl := s.platform;
    var env := s.context.environment;
    if QtTool.QT_HOME in env {
      QtTool.ToolNames(pl, env[QtTool.QT_HOME]);
      var g := QtTool.RepositoryGenerator(pl, env[QtTool.QT_HOME]);
      if g.Ok? {
        var c := QtRepoGen.RepoGenArguments(pl.absolute(g.value), true, QtTool.BaseArguments([], s.config.packages), Some(QtTool.PathRepository(pl)));
        assert c == [Some(pl.absolute(g.value)), Some("--update"), Some("-p"), s.config.packages, Some(QtTool.PathRepository(pl))];
        assert NoNulls(c) <==> s.config.packages.Some? by {
          assert c[3] == s.config.packages;
        }
      }
    }
  }

  /** createInstaller: the binarycreator process named after the target, in the mode named by the build,
      with the command as configuration file and the task's package path. */
  function InstallerProcess(s: Setup, build: string): Result<ProcessSpec>
  {
    var env := s.context.environment;
    var pl := s.platform;
    if QtTool.QT_HOME !in env then Thrown(NullPointer)
    else
      match QtInstaller.InstallerCommand(pl, env[QtTool.QT_HOME], QtInstaller.ModeNamed(build), s.config.command,
                                         QtTool.BaseArguments([], s.config.packages), s.config.target)
      case Thrown(e) => Thrown(e)
      case Ok(command) => QtTool.StartSpec(pl, s.context.workingDir, env, command)
  }

  /** The binarycreator option a build name selects. */
  function ModeOption(build: string): seq<string>
  {
    if build == "ONLINE" then ["-n"] else if build == "OFFLINE" then ["-f"] else []
  }

  /** The binarycreator process is built exactly when QT_HOME is set, the installer folder is found and
      configuration file, package path and name are all configured; it then runs
      binarycreator [-n|-f] -c <config> -p <packages> <name>, with -n for ONLINE, -f for OFFLINE and
      neither for INSTALLER. */
  lemma InstallerLaunch(s: Setup, build: string)
    ensures InstallerProcess(s, build).Ok? <==>
      QtTool.QT_HOME in s.context.environment
      && QtTool.InstallerBin(s.platform, s.context.environment[QtTool.QT_HOME]).Ok?
      && s.config.command.Some? && s.config.packages.Some? && s.config.target.Some?
    ensures InstallerProcess(s, build).Ok? ==>
      var pl := s.platform;
      var env := s.context.environment;
      var p := InstallerProcess(s, build).value;
      p.command == [pl.absolute(QtTool.BinaryCreator(pl, env[QtTool.QT_HOME]).value)] + ModeOption(build)
                   + ["-c", s.config.command.value, "-p", s.config.packages.value, s.config.target.value]
      && p.directory == Some(pl.absolute(s.context.workingDir))
      && p.environment == pl.processEnv + env
  {
    var pl := s.platform;
    var env := s.context.environment;
    if QtTool.QT_HOME in env {
      QtTool.ToolNames(pl, env[QtTool.QT_HOME]);
      var g := QtTool.BinaryCreator(pl, env[QtTool.QT_HOME]);
      if g.Ok? {
        InstallerValues(pl.absolute(g.value), build, s.config.command, s.config.packages, s.config.target);
      }
    }
  }

  /** The installer command of a tool run holds no null exactly when configuration file, package path and
      name are set, and then reads creator [-n|-f] -c <config> -p <packages> <name>. */
  lemma InstallerValues(creator: string, build: string, config: Option<string>, packages: Option<string>, name: Option<string>)
    ensures var c := QtInstaller.InstallerArguments(creator, QtInstaller.ModeNamed(build), config, QtTool.BaseArguments([], packages), name);
      (NoNulls(c) <==> config.Some? && packages.Some? && name.Some?)
      && (NoNulls(c) ==> Values(c) == [creator] + ModeOption(build) + ["-c", config.value, "-p", packages.value, name.value])
  {
    var mode := QtInstaller.ModeNamed(build);
    var flag := QtInstaller.ModeFlag(mode);
    var c := QtInstaller.InstallerArguments(creator, mode, config, QtTool.BaseArguments([], packages), name);
    var f := |flag|;
    assert c == [Some(creator)] + flag + [Some("-c"), config, Some("-p"), packages, name];
    assert c[2 + f] == config && c[4 + f] == packages && c[5 + f] == name;
    if NoNulls(c) {
      var v := Values(c);
      var w := [creator] + ModeOption(build) + ["-c", config.value, "-p", packages.value, name.value];
      assert |w| == |v|;
      forall i | 0 <= i < |v|
        ensures v[i] == w[i]
      {
        assert Some(v[i]) == c[i];
      }
    }
  }

  /** createRepogen */
  method CreateRepogen(s: Setup) returns (r: Result<ProcessSpec>)
    ensures r == RepositoryProcess(s)
  {
    var of := QtRepoGen.Of(s.context.workingDir, s.context.environment);
    if of.Thrown? {
      return Thrown(of.error);
    }
    var builder := of.value;
    var self := builder.SetUpdate();
    var qt := builder.qt.SetPackagePath(s.config.packages);
    self := builder.SetRepositoryPath(Some(QtTool.PathRepository(s.platform)));
    r := builder.Build(s.platform);
  }

  /** createInstaller(task, name, build, config, packages) */
  method CreateInstaller(s: Setup, name: Option<string>, build: string, config: Option<string>, packages: Option<string>)
    returns (r: Result<ProcessSpec>)
    requires name == s.config.target && config == s.config.command && packages == s.config.packages
    ensures r == InstallerProcess(s, build)
  {
    var of := QtInstaller.Of(s.context.workingDir, s.context.environment);
    if of.Thrown? {
      return Thrown(of.error);
    }
    var builder := of.value;
    var self := builder.SetName(name);
    self := self.SetModeNamed(build);
    self := builder.SetConfig(config);
    var qt := builder.qt.SetPackagePath(packages);
    r := builder.Build(s.platform);
  }

  /** Waiting for a tool process and mapping its exit code. */
  method Await(s: Setup, reason: Label, p: Result<ProcessSpec>) returns (r: Result<TaskResponse>, ghost launched: seq<Launch>)
    ensures r == ToolRun(s, reason, p).result
    ensures launched == ToolRun(s, reason, p).trace
  {
    if p.Thrown? {
      return Thrown(p.error), [];
    }
    launched := [Launch(reason, p.value)];
    var exec := s.oracle(0, p.value);
    match exec {
      case Exited(code) => r := Ok(ExitResponse(code));
      case Raised(t) => r := Thrown(t);
    }
  }

  /** handle: the response of a request, and every process it launched. */
  method Handle(s: Setup) returns (response: TaskResponse, ghost trace: seq<Launch>)
    ensures s.config.build.None? ==> response == Failure(None)
    ensures s.config.build == Some("BUILD") && s.config.target.None? ==> response == Failure(Some(NO_TARGET))
    ensures s.config.build == Some("BUILD") && s.config.target.Some? ==>
      response == Caught(Run(RunnerOf(s), BuildPlan(s.config.target.value), 0).result)
    ensures s.config.build == Some("TEST") ==> response == Caught(StepRun(s, Step(TEST, s.config.target), 0).result)
    ensures s.config.build == Some("REPOSITORY") ==>
      response == Caught(ToolRun(s, RepositoryGenerator, RepositoryProcess(s)).result)
    ensures s.config.build.Some? && s.config.build.value in {"ONLINE", "OFFLINE", "INSTALLER"} ==>
      response == Caught(ToolRun(s, InstallerCreator, InstallerProcess(s, s.config.build.value)).result)
    ensures s.config.build.Some? && s.config.build.value !in {"BUILD", "TEST", "REPOSITORY", "ONLINE", "OFFLINE", "INSTALLER"} ==>
      response == Success(Some(NOTHING_TO_DO))
    // the processes launched on the way
    ensures s.config.build.None? || s.config.build.value !in {"BUILD", "TEST", "REPOSITORY", "ONLINE", "OFFLINE", "INSTALLER"} ==>
      trace == []
    ensures s.config.build == Some("BUILD") ==>
      trace == if s.config.target.None? then [] else Run(RunnerOf(s), BuildPlan(s.config.target.value), 0).trace
    ensures s.config.build == Some("TEST") ==> trace == StepRun(s, Step(TEST, s.config.target), 0).launched
    ensures s.config.build == Some("REPOSITORY") ==> trace == ToolRun(s, RepositoryGenerator, RepositoryProcess(s)).trace
    ensures s.config.build.Some? && s.config.build.value in {"ONLINE", "OFFLINE", "INSTALLER"} ==>
      trace == ToolRun(s, InstallerCreator, InstallerProcess(s, s.config.build.value)).trace
  {
    var config := s.config;
    if config.build.None? {
      return Caught(Thrown(NullPointer)), [];
    }
    var build := config.build.value;
    var r: Result<TaskResponse>;
    if build == "BUILD" {
      if config.target.None? {
        return Failure(Some(NO_TARGET)), [];
      }
      r, trace := RunBuild(s, RunnerOf(s), config.target.value);
    } else if build == "TEST" {
      r, trace := Process(s, Step(TEST, config.target), 0);
    } else if build == "REPOSITORY" {
      var p := CreateRepogen(s);
      r, trace := Await(s, RepositoryGenerator, p);
    } else if build == "ONLINE" || build == "OFFLINE" || build == "INSTALLER" {
      var p := CreateInstaller(s, config.target, build, config.command, config.packages);
      r, trace := Await(s, InstallerCreator, p);
    } else {
      return Success(Some(NOTHING_TO_DO)), [];
    }
    response := Caught(r);
  }

  // ----- toModules -----

  /** The pattern (,|\s|\n|\r\n) splits at a comma or any of Java's whitespace characters; a CR LF pair
      is split at both characters, which leaves an empty token between them. */
  const MODULE_DELIMITERS: set<char> := {',', ' ', '\t', '\n', '\U{000B}', '\U{000C}', '\r'}

  /** The names that are not blank, in order. */
  function NonBlank(names: seq<string>): (r: seq<string>)
    ensures forall k :: 0 <= k < |r| ==> !IsBlank(r[k]) && r[k] in names
    ensures forall k :: 0 <= k < |names| && !IsBlank(names[k]) ==> names[k] in r
  {
    if names == [] then []
    else NonBlank(names[..|names| - 1]) + (if IsBlank(names[|names| - 1]) then [] else [names[|names| - 1]])
  }

  /** The module names a text lists. */
  function Tokens(text: string): seq<string>
  {
    NonBlank(Split(text, MODULE_DELIMITERS))
  }

  /** One pass of the inner loop for a listed name: the name is appended when it is not yet a module and
      some module starts with it. */
  function Adopt(modules: seq<string>, name: string): seq<string>
  {
    if name !in modules && exists k :: 0 <= k < |modules| && StartsWith(modules[k], name) then modules + [name]
    else modules
  }

  /** The outer loop: every listed name in turn. */
  function Expand(modules: seq<string>, names: seq<string>): seq<string>
  {
    if names == [] then modules else Adopt(Expand(modules, names[..|names| - 1]), names[|names| - 1])
  }

  /** toModules: no modules without a text; otherwise the listed tokens, completed by the entries of the
      package folder that some module starts with. A null package path or an unreadable folder throws. */
  function Modules(text: Option<string>, packages: Option<string>, workingDir: string, pl: Platform): Result<seq<string>>
  {
    if text.None? then Ok([])
    else if packages.None? then Thrown(NullPointer)
    else
      var listing := pl.listDir(FileOf(pl, Some(workingDir), packages.value));
      if listing.None? then Thrown(NullPointer) else Ok(Expand(Tokens(text.value), listing.value))
  }

  /** Starting with a string that starts with a prefix starts with that prefix's prefixes. */
  lemma StartsWithTrans(a: string, b: string, c: string)
    requires StartsWith(a, b) && StartsWith(b, c)
    ensures StartsWith(a, c)
  {
    assert a[..|c|] == a[..|b|][..|c|];
  }

  /** The modules a pass starts from stay in place: names are only ever appended. */
  lemma {:induction false} ExpandKeeps(m: seq<string>, names: seq<string>)
    ensures |Expand(m, names)| >= |m| && Expand(m, names)[..|m|] == m
    decreases |names|
  {
    if names != [] {
      var init := names[..|names| - 1];
      ExpandKeeps(m, init);
      var r0 := Expand(m, init);
      assert Expand(m, names)[..|r0|] == r0;
      assert Expand(m, names)[..|m|] == r0[..|m|];
    }
  }

  /** Every appended name is listed in the package folder, is not already a module when it is appended,
      and is a prefix of one of the module names read from the text. */
  lemma {:induction false} ExpandAdds(m: seq<string>, names: seq<string>)
    ensures var r := Expand(m, names);
      forall i :: |m| <= i < |r| ==>
        r[i] in names && r[i] !in r[..i] && exists k :: 0 <= k < |m| && StartsWith(m[k], r[i])
    decreases |names|
  {
    if names != [] {
      var init := names[..|names| - 1];
      var last := names[|names| - 1];
      ExpandAdds(m, init);
      ExpandKeeps(m, init);
      var r0 := Expand(m, init);
      var r := Adopt(r0, last);
      assert r == Expand(m, names);
      forall i | |m| <= i < |r|
        ensures r[i] in names && r[i] !in r[..i] && exists k :: 0 <= k < |m| && StartsWith(m[k], r[i])
      {
        if i < |r0| {
          assert r[i] == r0[i] && r[..i] == r0[..i];
          var j :| 0 <= j < |init| && init[j] == r0[i];
          assert names[j] == init[j];
        } else {
          assert r == r0 + [last] && r[i] == last && r[..i] == r0;
          var k :| 0 <= k < |r0| && StartsWith(r0[k], last);
          if k < |m| {
            assert r0[k] == m[k];
          } else {
            var k2 :| 0 <= k2 < |m| && StartsWith(m[k2], r0[k]);
            StartsWithTrans(m[k2], r0[k], last);
          }
        }
      }
    }
  }

  /** A listed name ends up among the modules exactly when it already was one or it is a prefix of one of
      the module names read from the text. */
  lemma ExpandMember(m: seq<string>, names: seq<string>, n: string)
    requires n in names
    ensures n in Expand(m, names) <==> n in m || exists k :: 0 <= k < |m| && StartsWith(m[k], n)
  {
    if n in Expand(m, names) && n !in m {
      ExpandMemberOnlyIf(m, names, n);
    }
    if n in m || exists k :: 0 <= k < |m| && StartsWith(m[k], n) {
      ExpandMemberIf(m, names, n);
    }
  }

  lemma ExpandMemberOnlyIf(m: seq<string>, names: seq<string>, n: string)
    requires n in Expand(m, names) && n !in m
    ensures exists k :: 0 <= k < |m| && StartsWith(m[k], n)
  {
    var r := Expand(m, names);
    ExpandKeeps(m, names);
    ExpandAdds(m, names);
    var i :| 0 <= i < |r| && r[i] == n;
  }

  lemma {:induction false} ExpandMemberIf(m: seq<string>, names: seq<string>, n: string)
    requires n in names
    requires n in m || exists k :: 0 <= k < |m| && StartsWith(m[k], n)
    ensures n in Expand(m, names)
    decreases |names|
  {
    var init := names[..|names| - 1];
    var last := names[|names| - 1];
    var r0 := Expand(m, init);
    ExpandKeeps(m, init);
    if n in init {
      ExpandMemberIf(m, init, n);
    } else {
      assert n == last;
      if n !in r0 {
        var k :| 0 <= k < |m| && StartsWith(m[k], n);
        assert r0[k] == m[k];
      }
    }
    if n in r0 {
      var i :| 0 <= i < |r0| && r0[i] == n;
      assert Expand(m, names)[i] == n;
    }
  }

  /** Every module name read from a text is non-blank and holds no comma or whitespace. */
  lemma TokensClean(text: string)
    ensures forall k :: 0 <= k < |Tokens(text)| ==>
      !IsBlank(Tokens(text)[k]) && !HasAny(Tokens(text)[k], MODULE_DELIMITERS)
  {
    var parts := Split(text, MODULE_DELIMITERS);
    if HasAny(text, MODULE_DELIMITERS) {
      PiecesFree(text, MODULE_DELIMITERS);
    }
    assert forall k :: 0 <= k < |parts| ==> !HasAny(parts[k], MODULE_DELIMITERS);
  }

  /** NonBlank keeps a list of non-blank names as it is. */
  lemma {:induction false} NonBlankKeeps(names: seq<string>)
    requires forall k :: 0 <= k < |names| ==> !IsBlank(names[k])
    ensures NonBlank(names) == names
    decreases |names|
  {
    if names != [] {
      NonBlankKeeps(names[..|names| - 1]);
      assert names[..|names| - 1] + [names[|names| - 1]] == names;
    }
  }

  /** A comma-separated list of non-blank names without separators reads back as that list. */
  lemma TokensOfJoin(modules: seq<string>)
    requires forall k :: 0 <= k < |modules| ==> !IsBlank(modules[k]) && !HasAny(modules[k], MODULE_DELIMITERS)
    ensures Tokens(Join(",", modules)) == modules
  {
    NonBlankKeeps(modules);
    if modules != [] {
      SplitModules(modules);
    }
  }

  lemma SplitModules(modules: seq<string>)
    requires modules != []
    requires forall k :: 0 <= k < |modules| ==> !IsBlank(modules[k]) && !HasAny(modules[k], MODULE_DELIMITERS)
    ensures Split(Join(",", modules), MODULE_DELIMITERS) == modules
  {
    var j := Join([','], modules);
    JoinOnlySeparator(modules, ',', MODULE_DELIMITERS);
    SplitRestrict(j, MODULE_DELIMITERS, {','});
    forall k | 0 <= k < |modules|
      ensures !HasAny(modules[k], {','})
    {
      HasAnyIff(modules[k], MODULE_DELIMITERS);
      HasAnyIff(modules[k], {','});
    }
    assert modules[|modules| - 1] != "";
    SplitOfJoin(modules, ',');
  }

  /** The first loop of toModules: the pieces of the text that are not blank, in order. */
  method ListedModules(text: string) returns (modules: seq<string>)
    ensures modules == Tokens(text)
  {
    var pieces := Split(text, MODULE_DELIMITERS);
    modules := [];
    var i := 0;
    while i < |pieces|
      invariant 0 <= i <= |pieces|
      invariant modules == NonBlank(pieces[..i])
    {
      if !IsBlank(pieces[i]) {
        modules := modules + [pieces[i]];
      }
      assert pieces[..i + 1][..i] == pieces[..i];
      i := i + 1;
    }
    assert pieces[..i] == pieces;
  }

  /** The inner loop of toModules for one folder entry: over a copy of the modules, the entry is added
      once some copied module starts with it, and never twice. */
  method AdoptEntry(modules: seq<string>, name: string) returns (r: seq<string>)
    ensures r == Adopt(modules, name)
  {
    r := modules;
    var j := 0;
    while j < |modules|
      invariant 0 <= j <= |modules|
      invariant r == if name !in modules && exists k :: 0 <= k < j && StartsWith(modules[k], name) then modules + [name] else modules
    {
      if name !in r && StartsWith(modules[j], name) {
        r := r + [name];
      }
      j := j + 1;
    }
  }

  /** toModules: the two loops, proved to compute Modules. */
  method ToModules(text: Option<string>, packages: Option<string>, workingDir: string, pl: Platform) returns (r: Result<seq<string>>)
    ensures r == Modules(text, packages, workingDir, pl)
  {
    if text.None? {
      return Ok([]);
    }
    var modules := ListedModules(text.value);
    if packages.None? {
      return Thrown(NullPointer);
    }
    var listing := pl.listDir(FileOf(pl, Some(workingDir), packages.value));
    if listing.None? {
      return Thrown(NullPointer);
    }
    var names := listing.value;
    ghost var tokens := modules;
    var f := 0;
    while f < |names|
      invariant 0 <= f <= |names|
      invariant modules == Expand(tokens, names[..f])
    {
      modules := AdoptEntry(modules, names[f]);
      assert names[..f + 1][..f] == names[..f];
      f := f + 1;
    }
    assert names[..f] == names;
    r := Ok(modules);
  }
}
