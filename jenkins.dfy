/** The parts of the host build system the notifier reads and writes: build
    results and phases, the chain of earlier builds, artifacts, and a build
    whose environment variables can be extended while it runs. */
module Jenkins {
  import opened Wrappers

  /** Environment variables; a key that is absent reads as null. */
  type Env = map<string, string>

  /** The terminal result of a build (hudson.model.Result). */
  datatype BuildResult = SUCCESS | UNSTABLE | FAILURE | NOT_BUILT | ABORTED

  /** Result.toString() yields the result's name. */
  function ResultName(r: BuildResult): string
  {
    match r
    case SUCCESS => "SUCCESS"
    case UNSTABLE => "UNSTABLE"
    case FAILURE => "FAILURE"
    case NOT_BUILT => "NOT_BUILT"
    case ABORTED => "ABORTED"
  }

  /** The lifecycle moment a notification is sent for. */
  datatype BuildPhase = STARTED | COMPLETED

  /** BuildPhase.name(). */
  function PhaseName(p: BuildPhase): string
  {
    match p
    case STARTED => "STARTED"
    case COMPLETED => "COMPLETED"
  }

  /** An earlier build as reached through getPreviousBuild(): its result
      (null while unknown) and whether it is still running. */
  datatype PastBuild = PastBuild(result: Option<BuildResult>, building: bool)

  /** An archived artifact; only its display path is used. */
  datatype Artifact = Artifact(displayPath: string)

  /** What the notifier reads from the build it reports on; none of it
      changes while the notifier runs. */
  datatype BuildInfo = BuildInfo(
    result: Option<BuildResult>,
    duration: int,
    fullDisplayName: string,
    artifacts: seq<Artifact>,
    /** getPreviousBuild(), getPreviousBuild().getPreviousBuild(), ..., nearest first. */
    previous: seq<PastBuild>,
    /** Whether getEnvironment(listener) throws instead of returning the variables. */
    environmentFails: bool)

  /** The build a notification is about. Its environment grows when the
      notifier publishes variables into it (one PublishEnvVarAction per
      entry); later calls to getEnvironment see them. */
  class Build {
    const info: BuildInfo
    var env: Env

    constructor (info: BuildInfo, env: Env)
      ensures this.info == info && this.env == env
    {
      this.info := info;
      this.env := env;
    }

    /** getEnvironment(listener): None when the call throws. */
    function Environment(): Option<Env>
      reads this
    {
      if info.environmentFails then None else Some(env)
    }
  }
}
