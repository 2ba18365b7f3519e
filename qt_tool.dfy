/** info/tol/gocd/task/qt/Qt.java: the base of the Qt Installer Framework builders. It knows QT_HOME,
    the working directory and the environment, collects a package path and a module list, and turns
    them into the -i/-p arguments; it also locates make/jom, vcvarsall.bat and the installer tools. */
module QtTool {
  import opened JavaText
  import opened JavaRuntime
  import Util

  const QT_HOME: string := "QT_HOME"
  const VC_VARSALL: string := "VC_VARSALL"

  /** Qt.PATH_REPOSITORY: build/repository with the platform's separator. */
  function PathRepository(pl: Platform): string
  {
    Join(pl.Separator(), ["build", "repository"])
  }

  /** Qt.isWindows, the class's own copy of the OS test. */
  predicate IsWindows(osName: Option<string>)
  {
    osName.Some? && Contains(ToLower(osName.value), "windows")
  }

  /** The class's OS test is the one of cd/go/task/qt/Util.java, so the builders and the separator agree. */
  lemma IsWindowsAgrees(osName: Option<string>)
    ensures IsWindows(osName) <==> Util.IsWindows(osName)
    ensures IsWindows(osName) <==> osName.Some? && exists i :: OccursAt(ToLower(osName.value), "windows", i)
  {
    Util.IsWindowsIff(osName);
    assert ToLower("windows") == "windows";
    if osName.Some? {
      ContainsIff(ToLower(osName.value), "windows");
    }
  }

  /** A path with a space, in double quotes; any other path as it is. */
  function QuoteIfSpaced(file: string): (r: string)
    ensures Contains(file, " ") ==> r == "\"" + file + "\""
    ensures !Contains(file, " ") ==> r == file
  {
    if Contains(file, " ") then "\"" + file + "\"" else file
  }

  /** A quoted path is quoted exactly because it holds a space: a result with a space is enclosed in double
      quotes around the unchanged path. */
  lemma QuoteIfSpacedMeaning(file: string)
    ensures Contains(QuoteIfSpaced(file), " ") <==> Contains(file, " ")
    ensures Contains(QuoteIfSpaced(file), " ") ==>
      var r := QuoteIfSpaced(file);
      |r| == |file| + 2 && r[0] == '"' && r[|r| - 1] == '"' && r[1..|r| - 1] == file
  {
    var r := QuoteIfSpaced(file);
    ContainsIff(file, " ");
    ContainsIff(r, " ");
    if Contains(file, " ") {
      var i :| OccursAt(file, " ", i);
      assert r[i + 1..i + 2] == file[i..i + 1];
      assert OccursAt(r, " ", i + 1);
      assert r[1..|r| - 1] == file;
    }
  }

  /** getQtBase: the parent of QT_HOME, null when it has none. */
  function QtBase(pl: Platform, home: string): Option<string>
  {
    Parent(pl, home)
  }

  /** getMakeTool: make off Windows; on Windows the absolute jom path under the Qt base, quoted when it
      holds a space. */
  function MakeTool(pl: Platform, home: string): string
  {
    if !IsWindows(pl.osName) then "make"
    else QuoteIfSpaced(pl.absolute(FileOf(pl, QtBase(pl, home), "Tools/QtCreator/bin/jom")))
  }

  /** getVcVarsAll: the absolute path of vcvarsall.bat in VC_VARSALL, quoted when it holds a space;
      new File(null) throws when VC_VARSALL is not set. */
  function VcVarsAll(pl: Platform, environment: map<string, string>): Result<string>
  {
    if VC_VARSALL !in environment then Thrown(NullPointer)
    else Ok(QuoteIfSpaced(pl.absolute(Resolve(pl, environment[VC_VARSALL], "vcvarsall.bat"))))
  }

  /** getInstallerBin: the bin folder of the first entry listed under <base>/Tools/QtInstallerFramework,
      or of version 3.0 when nothing is listed; a missing base or an unreadable folder throws. */
  function InstallerBin(pl: Platform, home: string): Result<string>
  {
    var base := QtBase(pl, home);
    if base.None? then Thrown(NullPointer)
    else
      var path := Resolve(pl, Resolve(pl, base.value, "Tools"), "QtInstallerFramework");
      var listing := pl.listDir(path);
      if listing.None? then Thrown(NullPointer)
      else if listing.value != [] then Ok(Resolve(pl, Resolve(pl, path, listing.value[0]), "bin"))
      else Ok(Resolve(pl, Resolve(pl, path, "3.0"), "bin"))
  }

  /** The executable name of an installer tool: with .exe on Windows. */
  function ToolName(tool: string, pl: Platform): string
  {
    if IsWindows(pl.osName) then tool + ".exe" else tool
  }

  /** getRepositoryGenerator */
  function RepositoryGenerator(pl: Platform, home: string): Result<string>
  {
    match InstallerBin(pl, home)
    case Thrown(e) => Thrown(e)
    case Ok(bin) => Ok(Resolve(pl, bin, ToolName("repogen", pl)))
  }

  /** getBinaryCreator */
  function BinaryCreator(pl: Platform, home: string): Result<string>
  {
    match InstallerBin(pl, home)
    case Thrown(e) => Thrown(e)
    case Ok(bin) => Ok(Resolve(pl, bin, ToolName("binarycreator", pl)))
  }

  /** off Windows make is the tool; on Windows jom under the Qt base, quoted exactly when its path has a space. */
  lemma MakeToolChoice(pl: Platform, home: string)
    ensures !IsWindows(pl.osName) ==> MakeTool(pl, home) == "make"
    ensures IsWindows(pl.osName) ==>
      var jom := pl.absolute(FileOf(pl, QtBase(pl, home), "Tools/QtCreator/bin/jom"));
      (Contains(jom, " ") ==> MakeTool(pl, home) == "\"" + jom + "\"")
      && (!Contains(jom, " ") ==> MakeTool(pl, home) == jom)
  {
  }

  /** vcvarsall.bat is looked up in VC_VARSALL; the absolute path is quoted exactly when it has a space,
      and an unset VC_VARSALL throws. */
  lemma VcVarsAllChoice(pl: Platform, environment: map<string, string>)
    ensures VcVarsAll(pl, environment).Thrown? <==> VC_VARSALL !in environment
    ensures VcVarsAll(pl, environment).Thrown? ==> VcVarsAll(pl, environment).error == NullPointer
    ensures VC_VARSALL in environment ==>
      var file := pl.absolute(environment[VC_VARSALL] + pl.Separator() + "vcvarsall.bat");
      (Contains(file, " ") ==> VcVarsAll(pl, environment).value == "\"" + file + "\"")
      && (!Contains(file, " ") ==> VcVarsAll(pl, environment).value == file)
  {
  }

  /** The installer folder is found exactly when QT_HOME has a parent that can be listed; then it is a bin
      folder inside <base>/Tools/QtInstallerFramework. */
  lemma InstallerBinFound(pl: Platform, home: string)
    ensures InstallerBin(pl, home).Ok? <==>
      QtBase(pl, home).Some?
      && pl.listDir(Resolve(pl, Resolve(pl, QtBase(pl, home).value, "Tools"), "QtInstallerFramework")).Some?
    ensures InstallerBin(pl, home).Ok? ==>
      var path := Resolve(pl, Resolve(pl, QtBase(pl, home).value, "Tools"), "QtInstallerFramework");
      StartsWith(InstallerBin(pl, home).value, path + pl.Separator()) && EndsWith(InstallerBin(pl, home).value, pl.Separator() + "bin")
  {
    if InstallerBin(pl, home).Ok? {
      var path := Resolve(pl, Resolve(pl, QtBase(pl, home).value, "Tools"), "QtInstallerFramework");
      var sep := pl.Separator();
      var listing := pl.listDir(path).value;
      var v := if listing != [] then listing[0] else "3.0";
      var r := InstallerBin(pl, home).value;
      assert r == (path + sep) + (v + sep + "bin");
      assert r == (path + sep + v) + (sep + "bin");
    }
  }

  /** The tool executables carry .exe exactly on Windows and sit in the installer bin folder. */
  lemma ToolNames(pl: Platform, home: string)
    ensures EndsWith(ToolName("repogen", pl), ".exe") <==> IsWindows(pl.osName)
    ensures EndsWith(ToolName("binarycreator", pl), ".exe") <==> IsWindows(pl.osName)
    ensures RepositoryGenerator(pl, home).Ok? <==> InstallerBin(pl, home).Ok?
    ensures BinaryCreator(pl, home).Ok? <==> InstallerBin(pl, home).Ok?
    ensures RepositoryGenerator(pl, home).Ok? ==>
      RepositoryGenerator(pl, home).value == InstallerBin(pl, home).value + pl.Separator() + ToolName("repogen", pl)
    ensures BinaryCreator(pl, home).Ok? ==>
      BinaryCreator(pl, home).value == InstallerBin(pl, home).value + pl.Separator() + ToolName("binarycreator", pl)
  {
    assert "repogen"[|"repogen"| - 4..] != ".exe";
    assert "binarycreator"[|"binarycreator"| - 4..] != ".exe";
  }

  /** The arguments Qt.getCommand adds: -i and the comma-joined modules when there are any, then -p and the
      package path (null when never set). */
  function BaseArguments(modules: seq<string>, packages: Option<string>): seq<Option<string>>
  {
    (if modules != [] then [Some("-i"), Some(Join(",", modules))] else []) + [Some("-p"), packages]
  }

  /** -i with the modules comes first exactly when there are modules, and -p with the package path always
      closes the list. */
  lemma BaseArgumentsShape(modules: seq<string>, packages: Option<string>)
    ensures var a := BaseArguments(modules, packages);
      |a| == (if modules == [] then 2 else 4)
      && a[|a| - 2] == Some("-p") && a[|a| - 1] == packages
      && (modules != [] ==> a[0] == Some("-i") && a[1] == Some(Join(",", modules)))
      && (Some("-i") in a <==> modules != [] || packages == Some("-i"))
  {
  }

  /** The -i list names the modules: comma-free modules whose last one is not empty are read back by
      splitting it at commas. */
  lemma ModulesRoundTrip(modules: seq<string>, packages: Option<string>)
    requires modules != []
    requires forall k :: 0 <= k < |modules| ==> !HasAny(modules[k], {','})
    requires |modules| == 1 || modules[|modules| - 1] != ""
    ensures Split(BaseArguments(modules, packages)[1].value, {','}) == modules
  {
    assert Join(",", modules) == Join([','], modules);
    SplitOfJoin(modules, ',');
  }

  /** What start() is handed by build(): the command, the absolute working directory and the agent's
      environment with the job's laid over it; a null argument makes start() throw. */
  function StartSpec(pl: Platform, workingDir: string, environment: map<string, string>, command: seq<Option<string>>): Result<ProcessSpec>
  {
    if NoNulls(command) then Ok(ProcessSpec(Values(command), Some(pl.absolute(workingDir)), pl.processEnv + environment))
    else Thrown(NullPointer)
  }

  /** The fields a builder keeps from its construction, and the two it collects. */
  class Qt {
    const home: string
    const workingDir: string
    const environment: map<string, string>
    var packages: Option<string>
    var modules: seq<string>

    /** new Qt(workingDir, environment); the Java constructor throws when QT_HOME is not set, which
        QtInstaller.Of and QtRepoGen.Of model. */
    constructor (workingDir: string, environment: map<string, string>)
      requires QT_HOME in environment
      ensures home == environment[QT_HOME] && this.workingDir == workingDir && this.environment == environment
      ensures packages == None && modules == []
    {
      home := environment[QT_HOME];
      this.workingDir := workingDir;
      this.environment := environment;
      packages := None;
      modules := [];
    }

    /** setPackagePath: overwrites the package path, returns this. */
    method SetPackagePath(packages: Option<string>) returns (self: Qt)
      modifies this
      ensures self == this
      ensures this.packages == packages && modules == old(modules)
    {
      this.packages := packages;
      self := this;
    }

    /** addModules: appends the modules in order, returns this. */
    method AddModules(modules: seq<string>) returns (self: Qt)
      modifies this
      ensures self == this
      ensures this.modules == old(this.modules) + modules && packages == old(packages)
    {
      this.modules := this.modules + modules;
      self := this;
    }

    /** getCommand */
    method GetCommand() returns (command: seq<Option<string>>)
      ensures command == BaseArguments(modules, packages)
    {
      command := [];
      if modules != [] {
        command := command + [Some("-i")];
        command := command + [Some(Join(",", modules))];
      }
      command := command + [Some("-p")];
      command := command + [packages];
    }

    /** build(), given the command the concrete builder's getCommand produced. */
    method Build(command: seq<Option<string>>, pl: Platform) returns (r: Result<ProcessSpec>)
      ensures r == StartSpec(pl, workingDir, environment, command)
    {
      var builder := new ProcessBuilder(command, pl);
      builder.Directory(pl.absolute(workingDir));
      builder.PutAll(environment);
      r := builder.Spec();
    }
  }
}
