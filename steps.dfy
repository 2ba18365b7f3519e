/** One build step as both executors run it (TaskHandler.java and QtTaskExecutor.java carry the same
    text): createCommand builds the shell command line, updateEnvironment lays the Qt variables over
    the copied job environment, and process launches the step and maps its exit code. */
module Steps {
  import opened JavaText
  import opened JavaRuntime
  import opened QtEnv
  import opened Response
  import opened Task

  const EXECUTED: string := "Executed the build"
  const STATUS_MESSAGE: string := "Could not execute build! Process returned with status code "

  // ----- exit code -> response -----

  /** The response for a process that exited with code: success only for 0, otherwise a failure
      naming the code. */
  function ExitResponse(code: int): (r: TaskResponse)
    ensures ResponseCode(r) == SUCCESS_RESPONSE_CODE <==> code == 0
    ensures r.throwable == None
  {
    if code == 0 then Success(Some(EXECUTED)) else Failure(Some(STATUS_MESSAGE + IntToString(code)))
  }

  /** A zero exit reports "Executed the build"; any other exit reports a failure whose message is the
      status text followed by the decimal code, from which the code can be read back. */
  lemma ExitMessage(code: int)
    ensures code == 0 ==> ExitResponse(code).success && ExitResponse(code).message == Some(EXECUTED)
    ensures code != 0 ==> !ExitResponse(code).success && ExitResponse(code).message.Some?
    ensures code != 0 ==>
      var m := ExitResponse(code).message.value;
      StartsWith(m, STATUS_MESSAGE) && ParseInt(m[|STATUS_MESSAGE|..]) == code
  {
    if code != 0 {
      var m := STATUS_MESSAGE + IntToString(code);
      assert m[|STATUS_MESSAGE|..] == IntToString(code);
      IntRoundTrip(code);
    }
  }

  /** The exit status of a killed process shows up in the message. */
  lemma ExitMessageExample()
    ensures ExitResponse(137).message == Some(STATUS_MESSAGE + "137")
  {
    assert DigitChar(1) == '1' && DigitChar(3) == '3' && DigitChar(7) == '7';
    assert NatToString(13) == NatToString(1) + [DigitChar(3)] == "13";
    assert NatToString(137) == NatToString(13) + [DigitChar(7)] == "137";
    assert IntToString(137) == "137";
  }

  // ----- command line -----

  /** The Visual C++ environment set-up that precedes every command on Windows. */
  function VcVarsPrefix(pl: Platform): seq<string>
  {
    if pl.Windows() then ["vcvarsall.bat", "x86_amd64", "&"] else []
  }

  /** One CONFIG+= argument per configuration entry. */
  function ConfigFlags(configs: seq<string>): (r: seq<string>)
    ensures |r| == |configs|
    ensures forall i :: 0 <= i < |configs| ==> r[i] == "CONFIG+=" + configs[i]
  {
    if configs == [] then [] else ConfigFlags(configs[..|configs| - 1]) + ["CONFIG+=" + configs[|configs| - 1]]
  }

  /** The absolute path of QT_HOME/<segments>; File(null, child) is just child when QT_HOME is absent. */
  function QtBinary(env: map<string, string>, pl: Platform, segments: seq<string>): string
  {
    pl.absolute(FileOf(pl, Lookup(env, QT_HOME), PathOf(pl, segments)))
  }

  /** The QMAKE arguments: qmake, -spec and the spec, the CONFIG flags, then the configured command. A
      missing QT_ARCH makes Paths.get throw. Null spec and command are joined as "null". */
  function QmakeArgs(env: map<string, string>, config: QtConfig, pl: Platform): Result<seq<string>>
  {
    var arch := GetArch(env);
    if arch.None? then Thrown(NullPointer)
    else Ok([QtBinary(env, pl, [arch.value, "bin", "qmake"]), "-spec", Show(GetSpec(env))]
            + ConfigFlags(ConfigEntries(env)) + [Show(config.command)])
  }

  /** The test binary's name: the command unless it is null or blank, else the target; ".exe" is
      appended on Windows (to "null" when both are null). */
  function TestCase(config: QtConfig, pl: Platform): Option<string>
  {
    var name := if config.command.None? || IsBlank(config.command.value) then config.target else config.command;
    if pl.Windows() then Some(Show(name) + ".exe") else name
  }

  /** The library search path set-up of a test run: LD_LIBRARY_PATH on Unix, PATH on Windows. */
  function LibraryPath(pl: Platform, bin: string): seq<string>
  {
    if pl.Windows() then ["set PATH=" + bin + ";%PATH%", "&"] else ["LD_LIBRARY_PATH=$LD_LIBRARY_PATH:" + bin]
  }

  /** The TEST arguments: the library path, the absolute path of wd/build/spec/bin/testCase, then
      -xunitxml. A missing QT_ARCH or QT_SPEC makes Paths.get throw, a null test case new File. */
  function TestArgs(ctx: TaskContext, config: QtConfig, pl: Platform): Result<seq<string>>
  {
    var env := ctx.environment;
    var arch := GetArch(env);
    var spec := GetSpec(env);
    var testCase := TestCase(config, pl);
    if arch.None? || spec.None? || testCase.None? then Thrown(NullPointer)
    else
      var bin := QtBinary(env, pl, [arch.value, "bin"]);
      var dir := PathOf(pl, [ctx.workingDir, "build", spec.value, "bin"]);
      Ok(LibraryPath(pl, bin) + [pl.absolute(Resolve(pl, dir, testCase.value)), "-xunitxml"])
  }

  /** The MAKE arguments: jom or make, then the target unless it is null or empty. */
  function MakeArgs(pl: Platform, target: Option<string>): seq<string>
  {
    [if pl.Windows() then "jom" else "make"] + (if target.Some? && target.value != "" then [target.value] else [])
  }

  /** The arguments of a step, before the Windows prefix. */
  function StepArgs(ctx: TaskContext, config: QtConfig, pl: Platform, step: Step): Result<seq<string>>
  {
    match step.build
    case QMAKE => QmakeArgs(ctx.environment, config, pl)
    case TEST => TestArgs(ctx, config, pl)
    case MAKE => Ok(MakeArgs(pl, step.target))
  }

  /** The shell invocation that runs the space-joined arguments. */
  function ShellCommand(pl: Platform, args: seq<string>): seq<string>
  {
    if pl.Windows() then ["cmd", "/c", Join(" ", args)] else ["sh", "-c", Join(" ", args)]
  }

  /** The command createCommand hands to the ProcessBuilder, or what it throws. */
  function CommandLine(ctx: TaskContext, config: QtConfig, pl: Platform, step: Step): Result<seq<string>>
  {
    match StepArgs(ctx, config, pl, step)
    case Thrown(e) => Thrown(e)
    case Ok(args) => Ok(ShellCommand(pl, VcVarsPrefix(pl) + args))
  }

  /** The forEach of createCommand's QMAKE branch: one CONFIG+= argument per entry, in order. */
  method AddConfigFlags(args: seq<string>, configs: seq<string>) returns (out: seq<string>)
    ensures out == args + ConfigFlags(configs)
  {
    out := args;
    var i := 0;
    while i < |configs|
      invariant 0 <= i <= |configs|
      invariant out == args + ConfigFlags(configs[..i])
    {
      assert configs[..i + 1][..i] == configs[..i];
      out := out + ["CONFIG+=" + configs[i]];
      i := i + 1;
    }
    assert configs[..i] == configs;
  }

  lemma AppendRegroup(a: seq<string>, b: seq<string>, c: seq<string>, d: seq<string>)
    ensures a + b + c + d == a + (b + c + d)
  {
  }

  /** The QMAKE branch of createCommand: appends the qmake call to args, one CONFIG+= per entry. */
  method AddQmakeArgs(args: seq<string>, env: map<string, string>, config: QtConfig, pl: Platform) returns (r: Result<seq<string>>)
    ensures QmakeArgs(env, config, pl).Thrown? ==> r == QmakeArgs(env, config, pl)
    ensures QmakeArgs(env, config, pl).Ok? ==> r == Ok(args + QmakeArgs(env, config, pl).value)
  {
    var arch := GetArch(env);
    if arch.None? {
      return Thrown(NullPointer);
    }
    var qtHome := Lookup(env, QT_HOME);
    var path := PathOf(pl, [arch.value, "bin", "qmake"]);
    var call := [pl.absolute(FileOf(pl, qtHome, path)), "-spec", Show(GetSpec(env))];
    var configs := GetConfig(env);
    var out := AddConfigFlags(args + call, configs);
    out := out + [Show(config.command)];
    ghost var expected := call + ConfigFlags(configs) + [Show(config.command)];
    assert QmakeArgs(env, config, pl) == Ok(expected);
    AppendRegroup(args, call, ConfigFlags(configs), [Show(config.command)]);
    return Ok(out);
  }

  /** The TEST branch of createCommand. */
  method AddTestArgs(args: seq<string>, ctx: TaskContext, config: QtConfig, pl: Platform) returns (r: Result<seq<string>>)
    ensures TestArgs(ctx, config, pl).Thrown? ==> r == TestArgs(ctx, config, pl)
    ensures TestArgs(ctx, config, pl).Ok? ==> r == Ok(args + TestArgs(ctx, config, pl).value)
  {
    var env := ctx.environment;
    var windows := pl.Windows();
    var arch := GetArch(env);
    if arch.None? {
      return Thrown(NullPointer);
    }
    var qtHome := Lookup(env, QT_HOME);
    var path := PathOf(pl, [arch.value, "bin"]);
    var bin := pl.absolute(FileOf(pl, qtHome, path));
    var out := args;
    if windows {
      out := out + ["set PATH=" + bin + ";%PATH%", "&"];
    } else {
      out := out + ["LD_LIBRARY_PATH=$LD_LIBRARY_PATH:" + bin];
    }
    assert out == args + LibraryPath(pl, bin);
    var testCase := config.command;
    if testCase.None? || IsBlank(testCase.value) {
      testCase := config.target;
    }
    if windows {
      testCase := Some(Show(testCase) + ".exe");
    }
    assert testCase == TestCase(config, pl);
    var spec := GetSpec(env);
    if spec.None? || testCase.None? {
      return Thrown(NullPointer);
    }
    var test := PathOf(pl, [ctx.workingDir, "build", spec.value, "bin"]);
    out := out + [pl.absolute(Resolve(pl, test, testCase.value)), "-xunitxml"];
    assert out == args + TestArgs(ctx, config, pl).value;
    return Ok(out);
  }

  /** createCommand: collects the arguments in a list and wraps the joined list in a shell call. */
  method CreateCommand(ctx: TaskContext, config: QtConfig, pl: Platform, step: Step) returns (r: Result<seq<string>>)
    ensures r == CommandLine(ctx, config, pl, step)
  {
    var windows := pl.Windows();
    var args: seq<string> := [];
    if windows {
      args := args + ["vcvarsall.bat", "x86_amd64", "&"];
    }
    assert args == VcVarsPrefix(pl);
    var collected: Result<seq<string>>;
    match step.build {
      case QMAKE =>
        collected := AddQmakeArgs(args, ctx.environment, config, pl);
      case TEST =>
        collected := AddTestArgs(args, ctx, config, pl);
      case MAKE =>
        var out := args + [if windows then "jom" else "make"];
        if step.target.Some? && step.target.value != "" {
          out := out + [step.target.value];
        }
        assert out == args + MakeArgs(pl, step.target);
        collected := Ok(out);
    }
    if collected.Thrown? {
      return Thrown(collected.error);
    }
    args := collected.value;
    var cmd := if windows then "cmd" else "sh";
    var cmdArg := if windows then "/c" else "-c";
    var argument := Join(" ", args);
    r := Ok([cmd, cmdArg, argument]);
  }

  /** The joined Windows command line starts with the vcvarsall call and its "&". */
  lemma VcVarsJoin(args: seq<string>)
    requires args != []
    ensures Join(" ", ["vcvarsall.bat", "x86_amd64", "&"] + args) == "vcvarsall.bat x86_amd64 & " + Join(" ", args)
  {
    var prefix := ["vcvarsall.bat", "x86_amd64", "&"];
    JoinAppend(" ", prefix, args);
    assert prefix[1..] == ["x86_amd64", "&"] && prefix[1..][1..] == ["&"];
    assert Join(" ", ["&"]) == "&";
    assert Join(" ", ["x86_amd64", "&"]) == "x86_amd64" + " " + "&";
    assert Join(" ", prefix) == "vcvarsall.bat" + " " + ("x86_amd64" + " " + "&");
    assert "vcvarsall.bat" + " " + ("x86_amd64" + " " + "&") + " " == "vcvarsall.bat x86_amd64 & ";
  }

  /** The command is always a three-element shell call, cmd /c on Windows and sh -c elsewhere, whose
      third element starts with the vcvarsall set-up on Windows. */
  lemma CommandShape(ctx: TaskContext, config: QtConfig, pl: Platform, step: Step)
    ensures CommandLine(ctx, config, pl, step).Ok? ==>
      var c := CommandLine(ctx, config, pl, step).value;
      var a := StepArgs(ctx, config, pl, step).value;
      |c| == 3 && c[0] == (if pl.Windows() then "cmd" else "sh") && c[1] == (if pl.Windows() then "/c" else "-c")
      && (pl.Windows() ==> c[2] == "vcvarsall.bat x86_amd64 & " + Join(" ", a))
      && (!pl.Windows() ==> c[2] == Join(" ", a))
  {
    if CommandLine(ctx, config, pl, step).Ok? {
      var a := StepArgs(ctx, config, pl, step).value;
      assert a != [];
      if pl.Windows() {
        VcVarsJoin(a);
      } else {
        assert VcVarsPrefix(pl) + a == a;
      }
    }
  }

  /** When a step throws before anything is launched: QMAKE without QT_ARCH; TEST without QT_ARCH, without
      QT_SPEC, or (off Windows) with neither a non-blank command nor a target. MAKE always builds a command. */
  lemma CommandThrows(ctx: TaskContext, config: QtConfig, pl: Platform, step: Step)
    ensures CommandLine(ctx, config, pl, step).Thrown? ==> CommandLine(ctx, config, pl, step).error == NullPointer
    ensures step.build == QMAKE ==> (CommandLine(ctx, config, pl, step).Thrown? <==> QT_ARCH !in ctx.environment)
    ensures step.build == MAKE ==> CommandLine(ctx, config, pl, step).Ok?
    ensures step.build == TEST ==> (CommandLine(ctx, config, pl, step).Thrown? <==>
      QT_ARCH !in ctx.environment || QT_SPEC !in ctx.environment
      || (!pl.Windows() && (config.command.None? || IsBlank(config.command.value)) && config.target.None?))
  {
  }

  /** Where the parts of head + middle + [last] sit. */
  lemma AroundShape(head: seq<string>, middle: seq<string>, last: string)
    ensures
      var a := head + middle + [last];
      |a| == |head| + |middle| + 1
      && a[..|head|] == head
      && a[|head|..|a| - 1] == middle
      && a[|a| - 1] == last
  {
    var a := head + middle + [last];
    assert a[..|head|] == head;
    assert a[|head|..|a| - 1] == middle;
  }

  /** The QMAKE arguments when QT_ARCH is set. */
  lemma QmakeStep(ctx: TaskContext, config: QtConfig, pl: Platform)
    requires QT_ARCH in ctx.environment
    ensures
      var env := ctx.environment;
      StepArgs(ctx, config, pl, Step(QMAKE, None))
      == Ok([QtBinary(env, pl, [env[QT_ARCH], "bin", "qmake"]), "-spec", Show(GetSpec(env))] + ConfigFlags(ConfigEntries(env)) + [Show(config.command)])
  {
  }

  /** The QMAKE arguments around the configuration flags: the qmake binary, -spec and the spec first,
      the configured command last, one argument per QT_CONFIG entry in between. */
  lemma QmakeShape(ctx: TaskContext, config: QtConfig, pl: Platform)
    requires QT_ARCH in ctx.environment
    ensures
      var env := ctx.environment;
      var a := StepArgs(ctx, config, pl, Step(QMAKE, None)).value;
      |a| == 4 + |ConfigEntries(env)|
      && a[0] == QtBinary(env, pl, [env[QT_ARCH], "bin", "qmake"])
      && a[1] == "-spec" && a[2] == Show(GetSpec(env))
      && a[|a| - 1] == Show(config.command)
  {
    var env := ctx.environment;
    var head := [QtBinary(env, pl, [env[QT_ARCH], "bin", "qmake"]), "-spec", Show(GetSpec(env))];
    QmakeStep(ctx, config, pl);
    AroundShape(head, ConfigFlags(ConfigEntries(env)), Show(config.command));
  }

  /** Between them, the QMAKE arguments are the CONFIG+=entry flags of the QT_CONFIG entries, in order. */
  lemma QmakeConfigOrder(ctx: TaskContext, config: QtConfig, pl: Platform)
    requires QT_ARCH in ctx.environment
    ensures
      var a := StepArgs(ctx, config, pl, Step(QMAKE, None)).value;
      4 <= |a| && a[3..|a| - 1] == ConfigFlags(ConfigEntries(ctx.environment))
  {
    var env := ctx.environment;
    var head := [QtBinary(env, pl, [env[QT_ARCH], "bin", "qmake"]), "-spec", Show(GetSpec(env))];
    QmakeStep(ctx, config, pl);
    AroundShape(head, ConfigFlags(ConfigEntries(env)), Show(config.command));
  }

  /** A MAKE step passes its target to make or jom exactly when the target is neither null nor empty. */
  lemma MakeShape(ctx: TaskContext, config: QtConfig, pl: Platform, target: Option<string>)
    ensures
      var a := StepArgs(ctx, config, pl, Step(MAKE, target)).value;
      a[0] == (if pl.Windows() then "jom" else "make")
      && (|a| == 2 <==> target.Some? && target.value != "")
      && (|a| == 2 ==> a[1] == target.value)
      && (|a| == 1 || |a| == 2)
  {
  }

  /** A TEST step runs the test case found under wd/build/spec/bin with -xunitxml, after setting the
      library path to QT_HOME/arch/bin; the test case is the command unless that is null or blank. */
  lemma TestShape(ctx: TaskContext, config: QtConfig, pl: Platform)
    requires StepArgs(ctx, config, pl, Step(TEST, None)).Ok?
    ensures
      var env := ctx.environment;
      var a := StepArgs(ctx, config, pl, Step(TEST, None)).value;
      var bin := QtBinary(env, pl, [env[QT_ARCH], "bin"]);
      var name := if config.command.Some? && !IsBlank(config.command.value) then config.command else config.target;
      var dir := PathOf(pl, [ctx.workingDir, "build", env[QT_SPEC], "bin"]);
      a[|a| - 1] == "-xunitxml"
      && (pl.Windows() ==>
            |a| == 4 && a[0] == "set PATH=" + bin + ";%PATH%" && a[1] == "&"
            && a[2] == pl.absolute(Resolve(pl, dir, Show(name) + ".exe")))
      && (!pl.Windows() ==>
            |a| == 3 && a[0] == "LD_LIBRARY_PATH=$LD_LIBRARY_PATH:" + bin
            && name.Some? && a[1] == pl.absolute(Resolve(pl, dir, name.value)))
  {
  }

  // ----- environment overlay -----

  /** The entries updateEnvironment puts over the copied job environment, in the order it puts them, or the
      NullPointerException that putting a null QT_ARCH or QT_SPEC raises. */
  function Overlay(ctx: TaskContext, pl: Platform): Result<map<string, string>>
  {
    var env := ctx.environment;
    var arch := GetArch(env);
    var spec := GetSpec(env);
    if arch.None? || spec.None? then Thrown(NullPointer)
    else
      var qt := map[QT_ARCH := arch.value, QT_SPEC := spec.value];
      var repo := if QT_REPOSITORY in env && RELEASE in env then qt[QT_REPO := Resolve(pl, env[QT_REPOSITORY], env[RELEASE])] else qt;
      var buildPath := Resolve(pl, pl.absolute(ctx.workingDir), "build");
      var base := Resolve(pl, buildPath, spec.value);
      Ok(repo[QT_BUILD := buildPath][QML2_IMPORT_PATH := Resolve(pl, base, "qml")][QT_PLUGIN_PATH := Resolve(pl, base, "plugins")])
  }

  /** Putting an entry after a putAll is putting it into the map that was put. */
  lemma PutOver(e: map<string, string>, m: map<string, string>, k: string, v: string)
    ensures (e + m)[k := v] == e + m[k := v]
  {
  }

  /** updateEnvironment: puts the Qt variables into the builder's environment one by one. */
  method UpdateEnvironment(builder: ProcessBuilder, ctx: TaskContext, pl: Platform) returns (c: Completion)
    modifies builder
    ensures Overlay(ctx, pl).Thrown? ==> c == Abrupt(Overlay(ctx, pl).error)
    ensures Overlay(ctx, pl).Ok? ==> c == Normal && builder.environment == old(builder.environment) + Overlay(ctx, pl).value
    ensures builder.command == old(builder.command) && builder.directory == old(builder.directory)
  {
    ghost var e := builder.environment;
    var env := ctx.environment;
    var release := Lookup(env, RELEASE);
    c := builder.Put(QT_ARCH, GetArch(env));
    if c.Abrupt? {
      return;
    }
    c := builder.Put(QT_SPEC, GetSpec(env));
    if c.Abrupt? {
      return;
    }
    ghost var m: map<string, string> := map[QT_ARCH := GetArch(env).value, QT_SPEC := GetSpec(env).value];
    assert builder.environment == e + m;
    if QT_REPOSITORY in env && release.Some? {
      var repository := env[QT_REPOSITORY];
      c := builder.Put(QT_REPO, Some(Resolve(pl, repository, release.value)));
      PutOver(e, m, QT_REPO, Resolve(pl, repository, release.value));
      m := m[QT_REPO := Resolve(pl, repository, release.value)];
    }
    var spec := GetSpec(env).value;
    var buildPath := Resolve(pl, pl.absolute(ctx.workingDir), "build");
    var base := Resolve(pl, buildPath, spec);
    c := builder.Put(QT_BUILD, Some(buildPath));
    PutOver(e, m, QT_BUILD, buildPath);
    m := m[QT_BUILD := buildPath];
    c := builder.Put(QML2_IMPORT_PATH, Some(Resolve(pl, base, "qml")));
    PutOver(e, m, QML2_IMPORT_PATH, Resolve(pl, base, "qml"));
    m := m[QML2_IMPORT_PATH := Resolve(pl, base, "qml")];
    c := builder.Put(QT_PLUGIN_PATH, Some(Resolve(pl, base, "plugins")));
    PutOver(e, m, QT_PLUGIN_PATH, Resolve(pl, base, "plugins"));
    m := m[QT_PLUGIN_PATH := Resolve(pl, base, "plugins")];
    assert m == Overlay(ctx, pl).value;
  }

  /** The overlay exists exactly when QT_ARCH and QT_SPEC are set. It always sets the five Qt variables
      and sets QT_REPO exactly when QT_REPOSITORY and RELEASE are both set; QT_BUILD is the absolute
      working directory's build folder, and the QML and plugin paths lie under QT_BUILD/spec. */
  lemma OverlayEntries(ctx: TaskContext, pl: Platform)
    ensures Overlay(ctx, pl).Ok? <==> QT_ARCH in ctx.environment && QT_SPEC in ctx.environment
    ensures Overlay(ctx, pl).Ok? ==>
      var env := ctx.environment;
      var o := Overlay(ctx, pl).value;
      var sep := pl.Separator();
      o.Keys == {QT_ARCH, QT_SPEC, QT_BUILD, QML2_IMPORT_PATH, QT_PLUGIN_PATH}
                + (if QT_REPOSITORY in env && RELEASE in env then {QT_REPO} else {})
      && o[QT_ARCH] == env[QT_ARCH] && o[QT_SPEC] == env[QT_SPEC]
      && o[QT_BUILD] == pl.absolute(ctx.workingDir) + sep + "build"
      && o[QML2_IMPORT_PATH] == o[QT_BUILD] + sep + env[QT_SPEC] + sep + "qml"
      && o[QT_PLUGIN_PATH] == o[QT_BUILD] + sep + env[QT_SPEC] + sep + "plugins"
      && (QT_REPO in o ==> o[QT_REPO] == env[QT_REPOSITORY] + sep + env[RELEASE])
  {
  }

  /** The child environment: the agent's environment, overridden by the job's, overridden by the overlay. A
      variable the overlay does not name keeps the job's value, or the agent's when the job has none. */
  lemma ChildEnvironment(ctx: TaskContext, pl: Platform, key: string)
    requires Overlay(ctx, pl).Ok?
    ensures
      var child := pl.processEnv + ctx.environment + Overlay(ctx, pl).value;
      var o := Overlay(ctx, pl).value;
      key in child <==> key in pl.processEnv || key in ctx.environment || key in o
    ensures
      var child := pl.processEnv + ctx.environment + Overlay(ctx, pl).value;
      var o := Overlay(ctx, pl).value;
      (key in o ==> child[key] == o[key])
      && (key !in o && key in ctx.environment ==> child[key] == ctx.environment[key])
      && (key !in o && key !in ctx.environment && key in pl.processEnv ==> child[key] == pl.processEnv[key])
  {
  }

  // ----- one step -----

  /** A step's outcome: its response, or the exception it threw, and the processes it launched (none
      or one). */
  datatype StepOutcome = StepOutcome(result: Result<TaskResponse>, launched: seq<Launch>)

  /** What process hands to ProcessBuilder.start: the command line, the relative working directory and
      the child environment; or the exception thrown on the way. */
  function StepProcess(s: Setup, step: Step): Result<ProcessSpec>
  {
    match CommandLine(s.context, s.config, s.platform, step)
    case Thrown(e) => Thrown(e)
    case Ok(cmd) =>
      match Overlay(s.context, s.platform)
      case Thrown(e) => Thrown(e)
      case Ok(o) => Ok(ProcessSpec(cmd, Some(s.context.workingDir), s.platform.processEnv + s.context.environment + o))
  }

  /** Running one step as the n-th launch of the request. */
  function StepRun(s: Setup, step: Step, n: nat): StepOutcome
  {
    match StepProcess(s, step)
    case Thrown(e) => StepOutcome(Thrown(e), [])
    case Ok(p) =>
      var l := Launch(BuildStep(step), p);
      match s.oracle(n, p)
      case Exited(code) => StepOutcome(Ok(ExitResponse(code)), [l])
      case Raised(t) => StepOutcome(Thrown(t), [l])
  }

  /** A response that lets the build go on. */
  predicate Succeeded(r: Result<TaskResponse>)
  {
    r.Ok? && ResponseCode(r.value) == SUCCESS_RESPONSE_CODE
  }

  /** process: builds the command, sets the directory, copies the job environment, lays the overlay
      over it, starts the process and maps its exit code. */
  method Process(s: Setup, step: Step, n: nat) returns (r: Result<TaskResponse>, ghost launched: seq<Launch>)
    ensures r == StepRun(s, step, n).result
    ensures launched == StepRun(s, step, n).launched
  {
    launched := [];
    var cmd := CreateCommand(s.context, s.config, s.platform, step);
    if cmd.Thrown? {
      return Thrown(cmd.error), [];
    }
    var builder := new ProcessBuilder(Somes(cmd.value), s.platform);
    builder.Directory(s.context.workingDir);
    builder.PutAll(s.context.environment);
    var c := UpdateEnvironment(builder, s.context, s.platform);
    if c.Abrupt? {
      return Thrown(c.error), [];
    }
    var spec := builder.Spec();
    ValuesSomes(cmd.value);
    var p := spec.value;
    launched := [Launch(BuildStep(step), p)];
    var exec := s.oracle(n, p);
    match exec {
      case Exited(code) =>
        r := Ok(ExitResponse(code));
      case Raised(t) =>
        r := Thrown(t);
    }
  }

  /** A step goes on to the next one exactly when its process was launched and exited with 0; a step
      that throws before start() launches nothing. */
  lemma StepSucceeds(s: Setup, step: Step, n: nat)
    ensures |StepRun(s, step, n).launched| <= 1
    ensures StepProcess(s, step).Thrown? <==> StepRun(s, step, n).launched == []
    ensures StepRun(s, step, n).launched != [] ==>
      StepRun(s, step, n).launched[0] == Launch(BuildStep(step), StepProcess(s, step).value)
    ensures Succeeded(StepRun(s, step, n).result) <==>
      StepProcess(s, step).Ok? && s.oracle(n, StepProcess(s, step).value) == Exited(0)
  {
  }
}
