/** cd/go/task/qt/QtTaskExecutor.java: the executor of the first plugin generation. It knows only two
    modes: BUILD (compared ignoring case, and only with a target) and everything else, which runs the
    test. */
module Executor {
  import opened JavaText
  import opened JavaRuntime
  import opened Response
  import opened Task
  import opened QtEnv
  import opened Steps
  import opened Orchestration

  const FAILED_TO_INVOKE: string := "Failed to invoke the build!"

  /** isBuild: the mode is BUILD in any ASCII letter case and a target is configured. */
  predicate IsBuild(config: QtConfig)
  {
    EqualsIgnoreCase(MODE_BUILD, config.build) && config.target.Some?
  }

  /** The mode test ignores case: it accepts exactly the spellings of BUILD in upper and lower ASCII letters. */
  lemma IsBuildIff(config: QtConfig)
    ensures IsBuild(config) <==>
      config.build.Some? && ToLower(config.build.value) == "build" && config.target.Some?
  {
    assert ToLower(MODE_BUILD) == "build";
  }

  /** A lower-case mode name builds; a mode the executor does not know falls through to the test. */
  lemma IsBuildExamples(target: string)
    ensures IsBuild(QtConfig(Some("build"), Some(target), None, None))
    ensures !IsBuild(QtConfig(Some("INSTALLER"), Some(target), None, None))
    ensures !IsBuild(QtConfig(Some("BUILD"), None, None, None))
  {
    IsBuildIff(QtConfig(Some("build"), Some(target), None, None));
    IsBuildIff(QtConfig(Some("INSTALLER"), Some(target), None, None));
    assert ToLower("build") == "build";
    assert ToLower("INSTALLER")[0] == 'i';
  }

  /** catch (Exception e): an exception becomes a failure carrying the exception and a fixed message. */
  function Reported(r: Result<TaskResponse>): TaskResponse
  {
    match r
    case Ok(response) => response
    case Thrown(e) => FailureWith(e, Some(FAILED_TO_INVOKE))
  }

  /** The execution succeeds exactly when its last response does; an exception is kept in the failure. */
  lemma ReportedMeaning(r: Result<TaskResponse>)
    ensures ResponseCode(Reported(r)) == SUCCESS_RESPONSE_CODE <==> Succeeded(r)
    ensures r.Thrown? ==> Reported(r).throwable == Some(r.error) && Reported(r).message == Some(FAILED_TO_INVOKE)
  {
  }

  /** execute: the response and every process launched. */
  method Execute(s: Setup) returns (response: TaskResponse, ghost trace: seq<Launch>)
    ensures IsBuild(s.config) ==> response == Reported(Run(RunnerOf(s), BuildPlan(s.config.target.value), 0).result)
    ensures !IsBuild(s.config) ==> response == Reported(StepRun(s, Step(TEST, s.config.target), 0).result)
    ensures IsBuild(s.config) ==> trace == Run(RunnerOf(s), BuildPlan(s.config.target.value), 0).trace
    ensures !IsBuild(s.config) ==> trace == StepRun(s, Step(TEST, s.config.target), 0).launched
  {
    var r: Result<TaskResponse>;
    if IsBuild(s.config) {
      r, trace := RunBuild(s, RunnerOf(s), s.config.target.value);
    } else {
      r, trace := Process(s, Step(TEST, s.config.target), 0);
    }
    response := Reported(r);
  }
}
