/**
 * The records the orchestrator hands to the environ package (drone-go's
 * `drone.System`, `drone.Repo`, `drone.Build`, `drone.Stage`, `drone.Step`
 * and `drone.Netrc`), reduced to the fields the package reads. They are
 * read-only snapshots, so they are values here.
 */
module Drone {
  import opened Text

  /** The closed set of statuses a build, stage or step can have. */
  datatype Status =
    | Pending | Running | Passing | Failing | Blocked
    | Declined | Error | Killed | Skipped | Waiting

  /** The status strings of drone-go, which the legacy `CI_BUILD_STATUS` key carries. */
  function StatusName(s: Status): string
  {
    match s
    case Pending => "pending"
    case Running => "running"
    case Passing => "success"
    case Failing => "failure"
    case Blocked => "blocked"
    case Declined => "declined"
    case Error => "error"
    case Killed => "killed"
    case Skipped => "skipped"
    case Waiting => "waiting_on_dependencies"
  }

  /** Distinct statuses have distinct names, so the raw status can be read back. */
  lemma StatusNameInjective(s: Status, t: Status)
    requires StatusName(s) == StatusName(t)
    ensures s == t
  {
  }

  /** drone-go's `EventPullRequest`. */
  const EventPullRequest: string := "pull_request"

  datatype System = System(proto: string, host: string, version: string)

  datatype Repo = Repo(
    namespace: string, name: string, slug: string, scm: string,
    httpUrl: string, sshUrl: string, link: string, branch: string,
    isPrivate: bool, visibility: string)

  datatype Step = Step(name: string, number: int64, status: Status, errIgnore: bool)

  datatype Stage = Stage(
    kind: string, stageType: string, name: string, number: int64,
    machine: string, os: string, arch: string, variant: string, version: int64,
    status: Status, started: int64, stopped: int64,
    dependsOn: seq<string>, steps: seq<Step>)

  datatype Build = Build(
    trigger: string, source: string, target: string,
    after: string, before: string, ref: string, link: string,
    title: string, message: string,
    author: string, authorAvatar: string, authorEmail: string, authorName: string,
    number: int64, parent: int64, event: string, action: string,
    deploy: string, deployId: int64, debug: bool, status: Status,
    created: int64, started: int64, finished: int64,
    stages: seq<Stage>)

  datatype Netrc = Netrc(machine: string, login: string, password: string)
}
