/** info/tol/gocd/task/qt/QtRepoGen.java: the builder of a repogen run producing or updating the online
    repository. The inherited part of the Java class is the QtTool.Qt it holds. */
module QtRepoGen {
  import opened JavaText
  import opened JavaRuntime
  import opened QtTool

  /** The command getCommand builds: repogen, --update when asked for, the base arguments and last the
      repository folder. */
  function RepoGenArguments(repogen: string, update: bool, base: seq<Option<string>>, repository: Option<string>): seq<Option<string>>
  {
    [Some(repogen)] + (if update then [Some("--update")] else []) + base + [repository]
  }

  /** Where each part sits in the command: repogen first, --update right after it when an update was
      asked for, the base arguments unchanged and the repository last. */
  lemma RepoGenArgumentsShape(repogen: string, update: bool, base: seq<Option<string>>, repository: Option<string>)
    ensures var a := RepoGenArguments(repogen, update, base, repository);
      var u := if update then 1 else 0;
      |a| == 2 + u + |base|
      && a[0] == Some(repogen)
      && (update ==> a[1] == Some("--update"))
      && a[1 + u..|a| - 1] == base
      && a[|a| - 1] == repository
  {
    var a := RepoGenArguments(repogen, update, base, repository);
    var u := if update then 1 else 0;
    var head := [Some(repogen)] + (if update then [Some("--update")] else []);
    assert a == head + base + [repository];
    assert a[1 + u..|a| - 1] == base;
  }

  /** When no other argument is --update, the flag is in the command exactly when an update was asked for. */
  lemma RepoGenUpdateFlag(repogen: string, update: bool, base: seq<Option<string>>, repository: Option<string>)
    requires Some("--update") !in base && repository != Some("--update") && repogen != "--update"
    ensures Some("--update") in RepoGenArguments(repogen, update, base, repository) <==> update
  {
    var head := [Some(repogen)] + (if update then [Some("--update")] else []);
    assert RepoGenArguments(repogen, update, base, repository) == head + base + [repository];
  }

  /** The repogen run a builder describes: its command needs the repository generator, whose absolute path
      leads the command. */
  function RepoGenCommand(pl: Platform, home: string, update: bool, base: seq<Option<string>>, repository: Option<string>): Result<seq<Option<string>>>
  {
    match RepositoryGenerator(pl, home)
    case Thrown(e) => Thrown(e)
    case Ok(repogen) => Ok(RepoGenArguments(pl.absolute(repogen), update, base, repository))
  }

  class QtRepoGen {
    /** The inherited Qt state. */
    const qt: Qt
    var update: bool
    var repository: Option<string>

    /** new QtRepoGen(workingDir, environment): no update, repository not set. */
    constructor (workingDir: string, environment: map<string, string>)
      requires QT_HOME in environment
      ensures fresh(qt)
      ensures qt.home == environment[QT_HOME] && qt.workingDir == workingDir && qt.environment == environment
      ensures qt.packages == None && qt.modules == []
      ensures !update && repository == None
    {
      qt := new Qt(workingDir, environment);
      update := false;
      repository := None;
    }

    /** setUpdate: switches the update on; there is no way to switch it off again. */
    method SetUpdate() returns (self: QtRepoGen)
      modifies this
      ensures self == this
      ensures update && repository == old(repository)
    {
      update := true;
      self := this;
    }

    /** setRepositoryPath */
    method SetRepositoryPath(repository: Option<string>) returns (self: QtRepoGen)
      modifies this
      ensures self == this
      ensures this.repository == repository && update == old(update)
    {
      this.repository := repository;
      self := this;
    }

    /** getCommand */
    method GetCommand(pl: Platform) returns (r: Result<seq<Option<string>>>)
      ensures r == RepoGenCommand(pl, qt.home, update, BaseArguments(qt.modules, qt.packages), repository)
    {
      var repogen := RepositoryGenerator(pl, qt.home);
      if repogen.Thrown? {
        return Thrown(repogen.error);
      }
      var command := [Some(pl.absolute(repogen.value))];
      if update {
        command := command + [Some("--update")];
      }
      var base := qt.GetCommand();
      command := command + base;
      command := command + [repository];
      assert command == RepoGenArguments(pl.absolute(repogen.value), update, base, repository);
      r := Ok(command);
    }

    /** build(): the process repogen would be started as. */
    method Build(pl: Platform) returns (r: Result<ProcessSpec>)
      ensures var c := RepoGenCommand(pl, qt.home, update, BaseArguments(qt.modules, qt.packages), repository);
        (c.Thrown? ==> r == Thrown(c.error))
        && (c.Ok? ==> r == StartSpec(pl, qt.workingDir, qt.environment, c.value))
    {
      var command := GetCommand(pl);
      if command.Thrown? {
        return Thrown(command.error);
      }
      r := qt.Build(command.value, pl);
    }
  }

  /** QtRepoGen.of: new File(null) throws when QT_HOME is not set. */
  method Of(workingDir: string, environment: map<string, string>) returns (r: Result<QtRepoGen>)
    ensures QT_HOME !in environment <==> r == Thrown(NullPointer)
    ensures QT_HOME in environment <==> r.Ok?
    ensures r.Ok? ==> fresh(r.value) && fresh(r.value.qt)
    ensures r.Ok? ==>
      r.value.qt.home == environment[QT_HOME] && r.value.qt.workingDir == workingDir
      && r.value.qt.environment == environment
    ensures r.Ok? ==>
      r.value.qt.packages == None && r.value.qt.modules == []
      && !r.value.update && r.value.repository == None
  {
    if QT_HOME !in environment {
      return Thrown(NullPointer);
    }
    var repogen := new QtRepoGen(workingDir, environment);
    r := Ok(repogen);
  }
}
