/** info/tol/gocd/task/qt/QtInstaller.java: the builder of a binarycreator run producing the online,
    offline or combined installer. The inherited part of the Java class is the QtTool.Qt it holds. */
module QtInstaller {
  import opened JavaText
  import opened JavaRuntime
  import opened QtTool

  datatype Mode = BOTH | ONLINE | OFFLINE

  /** setMode(String): the names ONLINE and OFFLINE select those modes, every other name BOTH. */
  function ModeNamed(name: string): (m: Mode)
    ensures m == ONLINE <==> name == "ONLINE"
    ensures m == OFFLINE <==> name == "OFFLINE"
  {
    if name == "ONLINE" then ONLINE
    else if name == "OFFLINE" then OFFLINE
    else BOTH
  }

  /** The binarycreator option of a mode: -n online only, -f offline only, none for both. */
  function ModeFlag(mode: Mode): seq<Option<string>>
  {
    match mode
    case ONLINE => [Some("-n")]
    case OFFLINE => [Some("-f")]
    case BOTH => []
  }

  /** The command getCommand builds: binarycreator, the mode option, -c and the configuration file, the
      base arguments and last the installer's name. */
  function InstallerArguments(creator: string, mode: Mode, config: Option<string>, base: seq<Option<string>>, name: Option<string>): seq<Option<string>>
  {
    [Some(creator)] + ModeFlag(mode) + [Some("-c"), config] + base + [name]
  }

  /** Where each part sits in the command: the creator first, the mode option only in a single-mode build,
      the configuration right after -c, the base arguments unchanged and the name last. */
  lemma InstallerArgumentsShape(creator: string, mode: Mode, config: Option<string>, base: seq<Option<string>>, name: Option<string>)
    ensures var a := InstallerArguments(creator, mode, config, base, name);
      var f := |ModeFlag(mode)|;
      |a| == 4 + f + |base|
      && a[0] == Some(creator)
      && (mode == ONLINE ==> a[1] == Some("-n"))
      && (mode == OFFLINE ==> a[1] == Some("-f"))
      && (mode == BOTH ==> f == 0)
      && a[1 + f] == Some("-c") && a[2 + f] == config
      && a[3 + f..|a| - 1] == base
      && a[|a| - 1] == name
  {
    var a := InstallerArguments(creator, mode, config, base, name);
    var f := |ModeFlag(mode)|;
    assert a == ([Some(creator)] + ModeFlag(mode) + [Some("-c"), config]) + base + [name];
    assert a[3 + f..|a| - 1] == base;
  }

  /** The installer run a fresh builder makes with the handler's settings: its command needs the binary
      creator, whose absolute path leads the command. */
  function InstallerCommand(pl: Platform, home: string, mode: Mode, config: Option<string>, base: seq<Option<string>>, name: Option<string>): Result<seq<Option<string>>>
  {
    match BinaryCreator(pl, home)
    case Thrown(e) => Thrown(e)
    case Ok(creator) => Ok(InstallerArguments(pl.absolute(creator), mode, config, base, name))
  }

  class QtInstaller {
    /** The inherited Qt state. */
    const qt: Qt
    var mode: Mode
    var name: Option<string>
    var config: Option<string>

    /** new QtInstaller(workingDir, environment): mode BOTH, name and configuration not set. */
    constructor (workingDir: string, environment: map<string, string>)
      requires QT_HOME in environment
      ensures fresh(qt)
      ensures qt.home == environment[QT_HOME] && qt.workingDir == workingDir && qt.environment == environment
      ensures qt.packages == None && qt.modules == []
      ensures mode == BOTH && name == None && config == None
    {
      qt := new Qt(workingDir, environment);
      mode := BOTH;
      name := None;
      config := None;
    }

    /** setName */
    method SetName(name: Option<string>) returns (self: QtInstaller)
      modifies this
      ensures self == this
      ensures this.name == name && mode == old(mode) && config == old(config)
    {
      this.name := name;
      self := this;
    }

    /** setMode(Mode) */
    method SetMode(mode: Mode) returns (self: QtInstaller)
      modifies this
      ensures self == this
      ensures this.mode == mode && name == old(name) && config == old(config)
    {
      this.mode := mode;
      self := this;
    }

    /** setMode(String) */
    method SetModeNamed(mode: string) returns (self: QtInstaller)
      modifies this
      ensures self == this
      ensures this.mode == ModeNamed(mode) && name == old(name) && config == old(config)
    {
      if mode == "ONLINE" {
        self := SetMode(ONLINE);
      } else if mode == "OFFLINE" {
        self := SetMode(OFFLINE);
      } else {
        self := SetMode(BOTH);
      }
      self := this;
    }

    /** setConfig */
    method SetConfig(config: Option<string>) returns (self: QtInstaller)
      modifies this
      ensures self == this
      ensures this.config == config && mode == old(mode) && name == old(name)
    {
      this.config := config;
      self := this;
    }

    /** getCommand */
    method GetCommand(pl: Platform) returns (r: Result<seq<Option<string>>>)
      ensures r == InstallerCommand(pl, qt.home, mode, config, BaseArguments(qt.modules, qt.packages), name)
    {
      var creator := BinaryCreator(pl, qt.home);
      if creator.Thrown? {
        return Thrown(creator.error);
      }
      var command := [Some(pl.absolute(creator.value))];
      match mode {
        case ONLINE => command := command + [Some("-n")];
        case OFFLINE => command := command + [Some("-f")];
        case BOTH =>
      }
      command := command + [Some("-c"), config];
      var base := qt.GetCommand();
      command := command + base;
      command := command + [name];
      assert command == InstallerArguments(pl.absolute(creator.value), mode, config, base, name);
      r := Ok(command);
    }

    /** build(): the process binarycreator would be started as. */
    method Build(pl: Platform) returns (r: Result<ProcessSpec>)
      ensures var c := InstallerCommand(pl, qt.home, mode, config, BaseArguments(qt.modules, qt.packages), name);
        (c.Thrown? ==> r == Thrown(c.error))
        && (c.Ok? ==> r == StartSpec(pl, qt.workingDir, qt.environment, c.value))
    {
      var command := GetCommand(pl);
      if command.Thrown? {
        return Thrown(command.error);
      }
      r := qt.Build(command.value, pl);
    }
  }

  /** QtInstaller.of: new File(null) throws when QT_HOME is not set. */
  method Of(workingDir: string, environment: map<string, string>) returns (r: Result<QtInstaller>)
    ensures QT_HOME !in environment <==> r == Thrown(NullPointer)
    ensures QT_HOME in environment <==> r.Ok?
    ensures r.Ok? ==> fresh(r.value) && fresh(r.value.qt)
    ensures r.Ok? ==>
      r.value.qt.home == environment[QT_HOME] && r.value.qt.workingDir == workingDir
      && r.value.qt.environment == environment
    ensures r.Ok? ==>
      r.value.qt.packages == None && r.value.qt.modules == []
      && r.value.mode == BOTH && r.value.name == None && r.value.config == None
  {
    if QT_HOME !in environment {
      return Thrown(NullPointer);
    }
    var installer := new QtInstaller(workingDir, environment);
    r := Ok(installer);
  }
}
