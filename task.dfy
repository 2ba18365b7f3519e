/** The value carriers of one task request: the task configuration, the job context, the build steps,
    and the record of a launched process. */
module Task {
  import opened JavaText
  import opened JavaRuntime

  /** QtConfig: the four configuration properties; each is null when the task does not set it. */
  datatype QtConfig = QtConfig(build: Option<string>, target: Option<string>, command: Option<string>, packages: Option<string>)

  /** TaskContext / TaskRequest: the working directory and the job's environment variables. */
  datatype TaskContext = TaskContext(workingDir: string, environment: map<string, string>)

  /** The private Build enum of both executors. */
  datatype Build = QMAKE | MAKE | TEST

  /** One call of process(config, context, console, build, target). */
  datatype Step = Step(build: Build, target: Option<string>)

  /** Why a process was launched. */
  datatype Label = BuildStep(step: Step) | RepositoryGenerator | InstallerCreator

  /** A process handed to ProcessBuilder.start. */
  datatype Launch = Launch(reason: Label, process: ProcessSpec)

  /** Everything one request works on: the configuration, the job context, the host, and how the
      processes it launches end. */
  datatype Setup = Setup(context: TaskContext, config: QtConfig, platform: Platform, oracle: Oracle)
}
