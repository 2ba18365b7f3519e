/** The JVM services the task code calls: exceptions, the host platform (OS name, working directory,
    inherited environment, directory listings), java.io/java.nio path building, and launching a
    process, which is an oracle that answers with an exit code or an exception. */
module JavaRuntime {
  import opened JavaText
  import Util

  /** A thrown exception: its class and its getMessage(), which may be null. */
  datatype Throwable = Throwable(className: string, message: Option<string>)

  /** What dereferencing a null argument raises; its message is null. */
  const NullPointer: Throwable := Throwable("java.lang.NullPointerException", None)

  /** A value, or the exception thrown while computing it. */
  datatype Result<+T> = Ok(value: T) | Thrown(error: Throwable)

  /** How a void call ended. */
  datatype Completion = Normal | Abrupt(error: Throwable)

  /** The host the plugin runs on. absolute is File.getAbsolutePath (it depends on the process's
      current directory), processEnv the agent's own environment that a new ProcessBuilder
      starts from, and listDir is File.listFiles by name (None where that returns null). */
  datatype Platform = Platform(
    osName: Option<string>,
    absolute: string -> string,
    processEnv: map<string, string>,
    listDir: string -> Option<seq<string>>)
  {
    /** The OS test, decided from the "os.name" property. */
    predicate Windows()
    {
      Util.IsWindows(osName)
    }

    /** File.separator */
    function Separator(): string
    {
      if Windows() then "\\" else "/"
    }
  }

  /** Path.resolve(child), also new File(File parent, String child). */
  function Resolve(pl: Platform, base: string, child: string): string
  {
    base + pl.Separator() + child
  }

  /** Paths.get(first, more...).toString(), taken as the segments joined with the separator. */
  function PathOf(pl: Platform, segments: seq<string>): string
  {
    Join(pl.Separator(), segments)
  }

  /** new File(String parent, String child).getPath(): a null parent leaves the child alone. */
  function FileOf(pl: Platform, parent: Option<string>, child: string): string
  {
    if parent.None? then child else Resolve(pl, parent.value, child)
  }

  /** String.lastIndexOf(char), -1 when absent. */
  function LastIndexOf(s: string, c: char): (r: int)
    ensures -1 <= r < |s|
    ensures r >= 0 ==> s[r] == c
    ensures forall i :: r < i < |s| ==> s[i] != c
  {
    if s == [] then -1
    else if s[|s| - 1] == c then |s| - 1
    else LastIndexOf(s[..|s| - 1], c)
  }

  /** File.getParent: the text before the last separator; the root when only the root is left; null for
      a single relative name or the root itself. */
  function Parent(pl: Platform, path: string): Option<string>
  {
    var sep := if pl.Windows() then '\\' else '/';
    var prefix := if |path| > 0 && path[0] == sep then 1 else 0;
    var index := LastIndexOf(path, sep);
    if index < prefix then
      (if prefix > 0 && |path| > prefix then Some(path[..prefix]) else None)
    else Some(path[..index])
  }

  /** What ProcessBuilder.start is handed: the argument vector, the working directory (null: the
      JVM's own) and the complete child environment. */
  datatype ProcessSpec = ProcessSpec(command: seq<string>, directory: Option<string>, environment: map<string, string>)

  /** How a started process ended: waitFor() returned an exit code, or start()/waitFor() threw. */
  datatype Exec = Exited(code: int) | Raised(error: Throwable)

  /** The process primitive: given how many processes this request has launched before and what is
      launched now, it says how the process ends. */
  type Oracle = (nat, ProcessSpec) -> Exec

  /** Every element is non-null. */
  predicate NoNulls(xs: seq<Option<string>>)
  {
    forall i :: 0 <= i < |xs| ==> xs[i].Some?
  }

  /** Strings as non-null references. */
  function Somes(xs: seq<string>): (r: seq<Option<string>>)
    ensures |r| == |xs| && NoNulls(r)
    ensures forall i :: 0 <= i < |xs| ==> r[i] == Some(xs[i])
  {
    seq(|xs|, i requires 0 <= i < |xs| => Some(xs[i]))
  }

  /** The strings behind non-null references. */
  function Values(xs: seq<Option<string>>): (r: seq<string>)
    requires NoNulls(xs)
    ensures |r| == |xs|
    ensures forall i :: 0 <= i < |xs| ==> Some(r[i]) == xs[i]
  {
    seq(|xs|, i requires 0 <= i < |xs| => xs[i].value)
  }

  /** Values undoes Somes. */
  lemma ValuesSomes(xs: seq<string>)
    ensures Values(Somes(xs)) == xs
  {
  }

  /** java.lang.ProcessBuilder, up to start(): an argument list that may hold nulls, an optional
      directory and the environment map, which starts as a copy of the agent's own. */
  class ProcessBuilder {
    var command: seq<Option<string>>
    var directory: Option<string>
    var environment: map<string, string>

    /** new ProcessBuilder(command...) */
    constructor (command: seq<Option<string>>, pl: Platform)
      ensures this.command == command && directory == None && environment == pl.processEnv
    {
      this.command := command;
      directory := None;
      environment := pl.processEnv;
    }

    /** directory(new File(dir)) */
    method Directory(dir: string)
      modifies this
      ensures directory == Some(dir)
      ensures command == old(command) && environment == old(environment)
    {
      directory := Some(dir);
    }

    /** environment().putAll(entries) */
    method PutAll(entries: map<string, string>)
      modifies this
      ensures environment == old(environment) + entries
      ensures command == old(command) && directory == old(directory)
    {
      environment := environment + entries;
    }

    /** environment().put(key, value): the process environment refuses a null value with a
        NullPointerException and is then left as it was. */
    method Put(key: string, value: Option<string>) returns (c: Completion)
      modifies this
      ensures value.None? ==> c == Abrupt(NullPointer) && environment == old(environment)
      ensures value.Some? ==> c == Normal && environment == old(environment)[key := value.value]
      ensures command == old(command) && directory == old(directory)
    {
      if value.None? {
        return Abrupt(NullPointer);
      }
      environment := environment[key := value.value];
      return Normal;
    }

    /** What start() launches: it throws a NullPointerException when an argument is null, and
        otherwise hands over the arguments, the directory and the environment as they are. */
    function Spec(): (r: Result<ProcessSpec>)
      reads this
      ensures r.Ok? <==> NoNulls(command)
      ensures r.Thrown? ==> r.error == NullPointer
      ensures r.Ok? ==> Somes(r.value.command) == command
      ensures r.Ok? ==> r.value.directory == directory && r.value.environment == environment
    {
      if NoNulls(command) then Ok(ProcessSpec(Values(command), directory, environment))
      else Thrown(NullPointer)
    }
  }
}
