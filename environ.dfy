/**
 * The per-entity mappers of the environ package (environ/environ.go): each
 * turns one record of the build snapshot into its environment variables.
 * `Stage`, `Build` and `Netrc` start from a fixed table and then override or
 * add keys; the others are single map literals.
 */
module Environ {
  import opened Wrappers
  import opened Text
  import opened Drone
  import opened Rollup
  import opened Merge
  import opened Semver

  // ----- small mappers -----

  /** `System`. The constant flag is emitted under the key `DRONE`. */
  function SystemEnv(system: System): Env
  {
    map[
      "CI" := "true",
      "DRONE" := "true",
      "GITFOX_SYSTEM_PROTO" := system.proto,
      "GITFOX_SYSTEM_HOST" := system.host,
      "GITFOX_SYSTEM_HOSTNAME" := system.host,
      "GITFOX_SYSTEM_VERSION" := system.version]
  }

  /** Six distinct keys; host and hostname agree; the flag key is `DRONE`, not `GITFOX`. */
  lemma SystemEnvShape(system: System)
    ensures |SystemEnv(system)| == 6
    ensures SystemEnv(system)["GITFOX_SYSTEM_HOST"] == SystemEnv(system)["GITFOX_SYSTEM_HOSTNAME"] == system.host
    ensures SystemEnv(system)["CI"] == "true" && SystemEnv(system)["DRONE"] == "true"
    ensures "GITFOX" !in SystemEnv(system)
  {
    var env := SystemEnv(system);
    assert env.Keys == {"CI", "DRONE", "GITFOX_SYSTEM_PROTO", "GITFOX_SYSTEM_HOST",
                        "GITFOX_SYSTEM_HOSTNAME", "GITFOX_SYSTEM_VERSION"};
  }

  /** `Repo`, with the legacy `CI_*` aliases of drone 0.8. */
  function RepoEnv(repo: Repo): Env
  {
    map[
      "GITFOX_REPO" := repo.slug,
      "GITFOX_REPO_SCM" := repo.scm,
      "GITFOX_REPO_OWNER" := repo.namespace,
      "GITFOX_REPO_NAMESPACE" := repo.namespace,
      "GITFOX_REPO_NAME" := repo.name,
      "GITFOX_REPO_LINK" := repo.link,
      "GITFOX_REPO_BRANCH" := repo.branch,
      "GITFOX_REMOTE_URL" := repo.httpUrl,
      "GITFOX_GIT_HTTP_URL" := repo.httpUrl,
      "GITFOX_GIT_SSH_URL" := repo.sshUrl,
      "GITFOX_REPO_VISIBILITY" := repo.visibility,
      "GITFOX_REPO_PRIVATE" := BoolString(repo.isPrivate),
      "CI_REPO" := repo.slug,
      "CI_REPO_NAME" := repo.slug,
      "CI_REPO_LINK" := repo.link,
      "CI_REPO_REMOTE" := repo.httpUrl,
      "CI_REMOTE_URL" := repo.httpUrl,
      "CI_REPO_PRIVATE" := BoolString(repo.isPrivate)]
  }

  /**
   * The legacy aliases repeat the primary keys; the legacy repository name
   * is the slug, not the bare name.
   */
  lemma RepoAliases(repo: Repo)
    ensures RepoEnv(repo)["CI_REPO"] == RepoEnv(repo)["CI_REPO_NAME"] == RepoEnv(repo)["GITFOX_REPO"] == repo.slug
    ensures RepoEnv(repo)["CI_REPO_LINK"] == RepoEnv(repo)["GITFOX_REPO_LINK"]
    ensures RepoEnv(repo)["CI_REPO_REMOTE"] == RepoEnv(repo)["CI_REMOTE_URL"] == RepoEnv(repo)["GITFOX_REMOTE_URL"]
      == RepoEnv(repo)["GITFOX_GIT_HTTP_URL"]
    ensures RepoEnv(repo)["CI_REPO_PRIVATE"] == RepoEnv(repo)["GITFOX_REPO_PRIVATE"] == BoolString(repo.isPrivate)
    ensures RepoEnv(repo)["GITFOX_REPO_OWNER"] == RepoEnv(repo)["GITFOX_REPO_NAMESPACE"]
  {
  }

  /** `StepArgs`. */
  function StepArgsEnv(name: string, number: int64): Env
  {
    map["GITFOX_STEP_NAME" := name, "GITFOX_STEP_NUMBER" := Itoa(number)]
  }

  /** `Step`. */
  function StepEnv(step: Step): Env
  {
    map["GITFOX_STEP_NAME" := step.name, "GITFOX_STEP_NUMBER" := Itoa(step.number)]
  }

  /** `StepName`. */
  function StepNameEnv(name: string): Env
  {
    map["GITFOX_STEP_NAME" := name]
  }

  /** `Step` is `StepArgs` of the step's name and number; `StepName` is the same without the number. */
  lemma StepMappersAgree(step: Step)
    ensures StepEnv(step) == StepArgsEnv(step.name, step.number)
    ensures StepNameEnv(step.name) == StepArgsEnv(step.name, step.number) - {"GITFOX_STEP_NUMBER"}
  {
    assert StepArgsEnv(step.name, step.number) - {"GITFOX_STEP_NUMBER"} == map["GITFOX_STEP_NAME" := step.name];
  }

  /** `Link`: `proto://host/slug/number`. */
  function LinkEnv(repo: Repo, build: Build, system: System): Env
  {
    map["GITFOX_BUILD_LINK" := system.proto + "://" + system.host + "/" + repo.slug + "/" + Itoa(build.number)]
  }

  /**
   * The link is `proto://host/slug/` followed by the build number as `fmt`
   * prints it, so the number can be read back from what follows the last `/`.
   */
  lemma LinkNumber(repo: Repo, build: Build, system: System)
    ensures LinkEnv(repo, build, system).Keys == {"GITFOX_BUILD_LINK"}
    ensures var link := LinkEnv(repo, build, system)["GITFOX_BUILD_LINK"];
      var base := system.proto + "://" + system.host + "/" + repo.slug + "/";
      HasPrefix(link, base) && SignedNumeral(link[|base|..], build.number) && '/' !in link[|base|..]
  {
    var base := system.proto + "://" + system.host + "/" + repo.slug + "/";
    var tail := Itoa(build.number);
    PrefixOfConcat(base, tail);
    assert (base + tail)[|base|..] == tail;
    ItoaSigned(build.number);
    assert forall i :: 0 <= i < |tail| ==> tail[i] != '/';
  }

  /** The link of TestLink. */
  lemma LinkExample(repo: Repo, build: Build, system: System)
    requires system.proto == "http" && system.host == "drone.company.com"
    requires repo.slug == "octocat/hello-world" && build.number == 42
    ensures LinkEnv(repo, build, system) == map["GITFOX_BUILD_LINK" := "http://drone.company.com/octocat/hello-world/42"]
  {
    ItoaFortyTwo();
    LinkHost();
    LinkPath();
  }

  lemma LinkHost()
    ensures "http" + "://" + "drone.company.com" + "/" == "http://drone.company.com/"
  {
    var s := "http" + "://";
    assert s == "http://";
    assert s + "drone.company.com" == "http://drone.company.com";
  }

  lemma LinkPath()
    ensures "http://drone.company.com/" + "octocat/hello-world" + "/" + "42"
      == "http://drone.company.com/octocat/hello-world/42"
  {
    var s := "http://drone.company.com/" + "octocat/hello-world";
    assert s == "http://drone.company.com/octocat/hello-world";
    assert s + "/" == "http://drone.company.com/octocat/hello-world/";
  }

  lemma ItoaFortyTwo()
    ensures Itoa(42) == "42"
  {
    assert NatToString(4) == "4";
    assert NatToString(42) == NatToString(4) + [DigitChar(2)];
  }

  // ----- the leftmost run of digits (regexp `\d+`, FindString) -----

  /** Position of the first digit, or `|s|` when there is none. */
  function FirstDigit(s: string): (i: nat)
    ensures i <= |s|
    ensures forall j :: 0 <= j < i ==> !IsDigit(s[j])
    ensures i < |s| ==> IsDigit(s[i])
  {
    if s == [] then 0 else if IsDigit(s[0]) then 0 else 1 + FirstDigit(s[1..])
  }

  /** The longest prefix made of digits. */
  function DigitRun(s: string): (r: string)
    ensures HasPrefix(s, r) && AllDigits(r)
    ensures |r| == |s| || !IsDigit(s[|r|])
  {
    if s == [] || !IsDigit(s[0]) then ""
    else
      var rest := DigitRun(s[1..]);
      assert ([s[0]] + rest)[1..] == rest;
      [s[0]] + rest
  }

  /**
   * `re.FindString(ref)` for `\d+`: the leftmost maximal run of digits, or
   * the empty string when the text has no digit.
   */
  function LeftmostDigits(s: string): (r: string)
    ensures AllDigits(r)
    ensures r == "" <==> forall j :: 0 <= j < |s| ==> !IsDigit(s[j])
    ensures FirstDigit(s) + |r| <= |s| && s[FirstDigit(s)..FirstDigit(s) + |r|] == r
    ensures FirstDigit(s) + |r| == |s| || !IsDigit(s[FirstDigit(s) + |r|])
  {
    var i := FirstDigit(s);
    var r := DigitRun(s[i..]);
    assert r != "" <== i < |s| by {
      if i < |s| {
        assert s[i..][0] == s[i];
      }
    }
    assert s[i..][..|r|] == s[i..i + |r|];
    assert |r| < |s[i..]| ==> s[i..][|r|] == s[i + |r|];
    r
  }

  /** Digits are searched for past a digit-free prefix. */
  lemma {:induction false} NoDigitsPrefix(p: string, s: string)
    requires forall j :: 0 <= j < |p| ==> !IsDigit(p[j])
    ensures FirstDigit(p + s) == |p| + FirstDigit(s)
  {
    if p != [] {
      assert (p + s)[0] == p[0] && !IsDigit(p[0]);
      assert (p + s)[1..] == p[1..] + s;
      assert forall j :: 0 <= j < |p[1..]| ==> p[1..][j] == p[j + 1];
      NoDigitsPrefix(p[1..], s);
    } else {
      assert p + s == s;
    }
  }

  /** The pull request number of TestBuild's ref. */
  lemma PullRequestNumberExample(ref: string)
    requires ref == "refs/pull/32/head"
    ensures LeftmostDigits(ref) == "32"
  {
    PullRequestDigitsStart(ref);
    DigitRunExample();
  }

  lemma PullRequestDigitsStart(ref: string)
    requires ref == "refs/pull/32/head"
    ensures FirstDigit(ref) == 10 && ref[10..] == "32/head"
  {
    var tail := "32/head";
    assert ref == "refs/pull/" + tail;
    NoDigitsPrefix("refs/pull/", tail);
  }

  lemma DigitRunExample()
    ensures DigitRun("32/head") == "32"
  {
    var rest := "/head";
    assert !IsDigit(rest[0]);
    assert "32/head" == ['3'] + (['2'] + rest);
    DigitRunCons('2', rest);
    DigitRunCons('3', ['2'] + rest);
  }

  lemma DigitRunCons(c: char, rest: string)
    requires IsDigit(c)
    ensures DigitRun([c] + rest) == [c] + DigitRun(rest)
  {
    assert ([c] + rest)[1..] == rest;
  }

  // ----- Netrc -----

  /** `Netrc`: the credentials when a netrc with a machine is given, nothing otherwise. */
  method NetrcEnv(netrc: Option<Netrc>) returns (env: Env)
    ensures (netrc.None? || netrc.value.machine == "") ==> env == map[]
    ensures netrc.Some? && netrc.value.machine != "" ==> env == map[
      "GITFOX_NETRC_MACHINE" := netrc.value.machine,
      "GITFOX_NETRC_USERNAME" := netrc.value.login,
      "GITFOX_NETRC_PASSWORD" := netrc.value.password,
      "GITFOX_NETRC_FILE" := NetrcLine(netrc.value)]
  {
    env := map[];
    if netrc.Some? && netrc.value.machine != "" {
      env := env["GITFOX_NETRC_MACHINE" := netrc.value.machine];
      env := env["GITFOX_NETRC_USERNAME" := netrc.value.login];
      env := env["GITFOX_NETRC_PASSWORD" := netrc.value.password];
      env := env["GITFOX_NETRC_FILE" := NetrcLine(netrc.value)];
    }
  }

  /** The one-line netrc file. */
  function NetrcLine(netrc: Netrc): (line: string)
    ensures HasPrefix(line, "machine " + netrc.machine + " login ")
  {
    var head := "machine " + netrc.machine + " login ";
    var line := head + netrc.login + " password " + netrc.password;
    PrefixOfConcat(head, netrc.login + " password " + netrc.password);
    assert line == head + (netrc.login + " password " + netrc.password);
    line
  }

  // ----- Stage -----

  const StageStatusKey: string := "GITFOX_STAGE_STATUS"
  const StageStartedKey: string := "GITFOX_STAGE_STARTED"
  const StageFinishedKey: string := "GITFOX_STAGE_FINISHED"
  const FailedStepsKey: string := "GITFOX_FAILED_STEPS"

  /** The keys that `Stage` may change after building its table. */
  const StageOverrides: set<string> := {StageStatusKey, StageStartedKey, StageFinishedKey}

  /** The fixed table `Stage` starts from. */
  function StageTable(stage: Stage): Env
  {
    map[
      "GITFOX_STAGE_KIND" := stage.kind,
      "GITFOX_STAGE_TYPE" := stage.stageType,
      "GITFOX_STAGE_NAME" := stage.name,
      "GITFOX_STAGE_NUMBER" := Itoa(stage.number),
      "GITFOX_STAGE_MACHINE" := stage.machine,
      "GITFOX_STAGE_OS" := stage.os,
      "GITFOX_STAGE_ARCH" := stage.arch,
      "GITFOX_STAGE_VARIANT" := stage.variant,
      "GITFOX_STAGE_VERSION" := Itoa(stage.version),
      StageStatusKey := "success",
      StageStartedKey := Itoa(stage.started),
      StageFinishedKey := Itoa(stage.stopped),
      "GITFOX_STAGE_DEPENDS_ON" := Join(stage.dependsOn, ","),
      "GITFOX_CARD_PATH" := "/dev/stdout"]
  }

  lemma FailedStepsKeyFresh(stage: Stage)
    ensures FailedStepsKey !in StageTable(stage)
    ensures StageOverrides <= StageTable(stage).Keys
  {
  }

  /** What `Stage` needs of its table: the overridden keys with their initial values, no failed-steps list. */
  predicate StageShape(stage: Stage, table: Env)
  {
    && StageOverrides <= table.Keys
    && table[StageStatusKey] == "success"
    && table[StageStartedKey] == Itoa(stage.started)
    && table[StageFinishedKey] == Itoa(stage.stopped)
    && FailedStepsKey !in table
  }

  lemma StageTableShape(stage: Stage)
    ensures StageShape(stage, StageTable(stage))
  {
    FailedStepsKeyFresh(stage);
  }

  lemma StageKeysDistinct()
    ensures StageStatusKey != StageStartedKey && StageStatusKey != StageFinishedKey
    ensures StageStartedKey != StageFinishedKey && FailedStepsKey !in StageOverrides
  {
  }

  /** The clock value a zero timestamp is replaced with. */
  function Backfill(field: int64, now: int64): int64
  {
    if field == 0 then now else field
  }

  /** A back-filled timestamp never shows as "0" once the clock is past the epoch. */
  lemma BackfillNonZero(field: int64, now: int64)
    requires now != 0
    ensures Itoa(Backfill(field, now)) != "0"
  {
    ItoaZero(Backfill(field, now));
  }

  /**
   * What `Stage` yields: its table, with the failure status and the failed
   * steps when the stage is failing, and the back-filled start and finish
   * times; every other table entry is kept.
   */
  ghost predicate StageEntries(stage: Stage, now: int64, env: Env)
  {
    StageOverlaid(stage, now, StageTable(stage), env)
  }

  /** The steps of `Stage` after its table literal, on a given table. */
  ghost predicate StageOverlaid(stage: Stage, now: int64, table: Env, env: Env)
  {
    && env.Keys == table.Keys + (if StageFailing(stage) then {FailedStepsKey} else {})
    && StageOverrides <= env.Keys
    && env[StageStatusKey] == (if StageFailing(stage) then "failure" else "success")
    && (FailedStepsKey in env ==> env[FailedStepsKey] == Join(FailedStepNames(stage.steps), ","))
    && env[StageStartedKey] == Itoa(Backfill(stage.started, now))
    && env[StageFinishedKey] == Itoa(Backfill(stage.stopped, now))
    && (forall k :: k in table && k !in StageOverrides ==> k in env && env[k] == table[k])
  }

  /**
   * `Stage`: the table, then the failure status with the failed steps, then
   * the back-filled start and finish times.
   */
  method StageEnv(stage: Stage, now: int64) returns (env: Env)
    ensures StageEntries(stage, now, env)
  {
    StageTableShape(stage);
    env := StageOverlay(stage, now, StageTable(stage));
  }

  /** The failure and clock steps of `Stage`, on any table of the right shape. */
  method StageOverlay(stage: Stage, now: int64, table: Env) returns (env: Env)
    requires StageShape(stage, table)
    ensures StageOverlaid(stage, now, table, env)
  {
    StageKeysDistinct();
    env := table;
    var failing := IsStageFailing(stage);
    if failing {
      env := env[StageStatusKey := "failure"];
      var names := FailedSteps(stage);
      env := env[FailedStepsKey := Join(names, ",")];
    }
    if stage.started == 0 {
      env := env[StageStartedKey := Itoa(now)];
    }
    if stage.stopped == 0 {
      env := env[StageFinishedKey := Itoa(now)];
    }
  }

  /**
   * The failed steps are listed exactly when the status is "failure", which
   * is exactly when the stage is failing; the list is then non-empty unless
   * the stage's own status failed.
   */
  lemma StageStatusConsistent(stage: Stage, now: int64, env: Env)
    requires StageEntries(stage, now, env)
    ensures FailedStepsKey in env <==> env[StageStatusKey] == "failure"
    ensures FailedStepsKey in env <==> StageFailed(stage) || FailedStepNames(stage.steps) != []
  {
    FailedStepsKeyFresh(stage);
    StageFailingIffFailedSteps(stage);
  }

  /** A stage that has not started or stopped shows the clock, which TestStage expects to be non-zero. */
  lemma StageClockBackfilled(stage: Stage, now: int64, env: Env)
    requires StageEntries(stage, now, env) && now != 0
    ensures env[StageStartedKey] != "0" && env[StageFinishedKey] != "0"
    ensures stage.started == 0 ==> env[StageStartedKey] == Itoa(now)
    ensures stage.stopped == 0 ==> env[StageFinishedKey] == Itoa(now)
  {
    BackfillNonZero(stage.started, now);
    BackfillNonZero(stage.stopped, now);
  }

  // ----- Build -----

  const BuildStatusKey: string := "GITFOX_BUILD_STATUS"
  const BuildStartedKey: string := "GITFOX_BUILD_STARTED"
  const BuildFinishedKey: string := "GITFOX_BUILD_FINISHED"
  const FailedStagesKey: string := "GITFOX_FAILED_STAGES"
  const PullRequestKey: string := "GITFOX_PULL_REQUEST"
  const PullRequestTitleKey: string := "GITFOX_PULL_REQUEST_TITLE"
  const TagKey: string := "GITFOX_TAG"

  /** The ref prefix that marks a tag build. */
  const TagPrefix: string := "refs/tags/"

  /** The keys `Build` writes after its table are pairwise distinct. */
  lemma BuildKeysDistinct()
    ensures BuildStatusKey != BuildStartedKey && BuildStatusKey != BuildFinishedKey && BuildStatusKey != FailedStagesKey
    ensures BuildStatusKey != PullRequestKey && BuildStatusKey != PullRequestTitleKey && BuildStatusKey != TagKey
    ensures BuildStartedKey != BuildFinishedKey && BuildStartedKey != FailedStagesKey && BuildStartedKey != PullRequestKey
    ensures BuildStartedKey != PullRequestTitleKey && BuildStartedKey != TagKey && BuildFinishedKey != FailedStagesKey
    ensures BuildFinishedKey != PullRequestKey && BuildFinishedKey != PullRequestTitleKey && BuildFinishedKey != TagKey
    ensures FailedStagesKey != PullRequestKey && FailedStagesKey != PullRequestTitleKey && FailedStagesKey != TagKey
    ensures PullRequestKey != PullRequestTitleKey && PullRequestKey != TagKey && PullRequestTitleKey != TagKey
  {
  }

  /** The keys of the table that `Build` may change afterwards. */
  const BuildOverrides: set<string> := {BuildStatusKey, BuildStartedKey, BuildFinishedKey}

  /** The keys `Build` may add to its table, the version keys aside. */
  const BuildExtras: set<string> := {FailedStagesKey, PullRequestKey, PullRequestTitleKey, TagKey}

  /**
   * The fixed table `Build` starts from: one map literal in the source,
   * written here as its current keys and its legacy `CI_*` aliases of drone
   * 0.8, whose key sets are disjoint.
   */
  function BuildTable(build: Build): Env
  {
    CurrentBuildTable(build) + LegacyBuildTable(build)
  }

  function CurrentBuildTable(build: Build): Env
  {
    map[
      "GITFOX_BRANCH" := build.target,
      "GITFOX_SOURCE_BRANCH" := build.source,
      "GITFOX_TARGET_BRANCH" := build.target,
      "GITFOX_COMMIT" := build.after,
      "GITFOX_COMMIT_SHA" := build.after,
      "GITFOX_COMMIT_BEFORE" := build.before,
      "GITFOX_COMMIT_AFTER" := build.after,
      "GITFOX_COMMIT_REF" := build.ref,
      "GITFOX_COMMIT_BRANCH" := build.target,
      "GITFOX_COMMIT_LINK" := build.link,
      "GITFOX_COMMIT_MESSAGE" := build.message,
      "GITFOX_COMMIT_AUTHOR" := build.author,
      "GITFOX_COMMIT_AUTHOR_EMAIL" := build.authorEmail,
      "GITFOX_COMMIT_AUTHOR_AVATAR" := build.authorAvatar,
      "GITFOX_COMMIT_AUTHOR_NAME" := build.authorName,
      "GITFOX_BUILD_NUMBER" := Itoa(build.number),
      "GITFOX_BUILD_PARENT" := Itoa(build.parent),
      "GITFOX_BUILD_EVENT" := build.event,
      "GITFOX_BUILD_ACTION" := build.action,
      BuildStatusKey := "success",
      "GITFOX_BUILD_DEBUG" := BoolString(build.debug),
      "GITFOX_BUILD_CREATED" := Itoa(build.created),
      BuildStartedKey := Itoa(build.started),
      BuildFinishedKey := Itoa(build.finished),
      "GITFOX_DEPLOY_TO" := build.deploy,
      "GITFOX_DEPLOY_ID" := Itoa(build.deployId),
      "GITFOX_BUILD_TRIGGER" := build.trigger]
  }

  function LegacyBuildTable(build: Build): Env
  {
    map[
      "CI_BUILD_NUMBER" := Itoa(build.number),
      "CI_PARENT_BUILD_NUMBER" := Itoa(build.parent),
      "CI_BUILD_CREATED" := Itoa(build.created),
      "CI_BUILD_STARTED" := Itoa(build.started),
      "CI_BUILD_FINISHED" := Itoa(build.finished),
      "CI_BUILD_STATUS" := StatusName(build.status),
      "CI_BUILD_EVENT" := build.event,
      "CI_BUILD_LINK" := build.link,
      "CI_BUILD_TARGET" := build.deploy,
      "CI_COMMIT_SHA" := build.after,
      "CI_COMMIT_REF" := build.ref,
      "CI_COMMIT_BRANCH" := build.target,
      "CI_COMMIT_MESSAGE" := build.message,
      "CI_COMMIT_AUTHOR" := build.author,
      "CI_COMMIT_AUTHOR_NAME" := build.authorName,
      "CI_COMMIT_AUTHOR_EMAIL" := build.authorEmail,
      "CI_COMMIT_AUTHOR_AVATAR" := build.authorAvatar]
  }

  /**
   * What `Build` needs of its table: the keys it overrides are there with
   * their initial values, the keys it adds are not.
   */
  predicate TableShape(build: Build, table: Env)
  {
    && BuildOverrides <= table.Keys
    && table[BuildStatusKey] == "success"
    && table[BuildStartedKey] == Itoa(build.started)
    && table[BuildFinishedKey] == Itoa(build.finished)
    && BuildExtras !! table.Keys
    && table.Keys !! VersionKeys
    && BuildExtras !! VersionKeys
  }

  /** The table holds the keys `Build` overrides, and neither the keys it adds nor any version key. */
  lemma BuildKeysApart(build: Build)
    ensures TableShape(build, BuildTable(build))
  {
    var current, legacy := CurrentBuildTable(build), LegacyBuildTable(build);
    var table := BuildTable(build);
    assert table == current + legacy;
    assert table.Keys == current.Keys + legacy.Keys;
    OverridesCurrent(build);
    NotLegacy(build);
    ExtrasNotVersionKeys();
    NotCurrent(build);
    assert forall k :: k in BuildOverrides ==> table[k] == current[k];
  }

  /** The overridden keys come from the current table. */
  lemma OverridesCurrent(build: Build)
    ensures BuildOverrides <= CurrentBuildTable(build).Keys
    ensures CurrentBuildTable(build)[BuildStatusKey] == "success"
    ensures CurrentBuildTable(build)[BuildStartedKey] == Itoa(build.started)
    ensures CurrentBuildTable(build)[BuildFinishedKey] == Itoa(build.finished)
  {
  }

  /** Every legacy key starts with `C`, every key `Build` writes later with `G`. */
  lemma NotLegacy(build: Build)
    ensures BuildOverrides !! LegacyBuildTable(build).Keys
    ensures BuildExtras !! LegacyBuildTable(build).Keys
    ensures VersionKeys !! LegacyBuildTable(build).Keys
  {
    LegacyInitials(build);
    WrittenInitials();
  }

  lemma LegacyInitials(build: Build)
    ensures forall k :: k in LegacyBuildTable(build) ==> |k| > 0 && k[0] == 'C'
  {
    LegacyKeysOf(build);
    LegacyKeyInitials();
  }

  /** The keys of the legacy aliases. */
  const LegacyKeys: set<string> := {
    "CI_BUILD_NUMBER", "CI_PARENT_BUILD_NUMBER", "CI_BUILD_CREATED", "CI_BUILD_STARTED",
    "CI_BUILD_FINISHED", "CI_BUILD_STATUS", "CI_BUILD_EVENT", "CI_BUILD_LINK", "CI_BUILD_TARGET",
    "CI_COMMIT_SHA", "CI_COMMIT_REF", "CI_COMMIT_BRANCH", "CI_COMMIT_MESSAGE", "CI_COMMIT_AUTHOR",
    "CI_COMMIT_AUTHOR_NAME", "CI_COMMIT_AUTHOR_EMAIL", "CI_COMMIT_AUTHOR_AVATAR"}

  lemma LegacyKeysOf(build: Build)
    ensures LegacyBuildTable(build).Keys <= LegacyKeys
  {
  }

  lemma LegacyKeyInitials()
    ensures forall k :: k in LegacyKeys ==> |k| > 0 && k[0] == 'C'
  {
  }

  lemma WrittenInitials()
    ensures forall k :: k in BuildOverrides + BuildExtras + VersionKeys ==> |k| > 0 && k[0] == 'G'
  {
  }

  /** The added keys differ from the version keys at their eighth character. */
  lemma ExtrasNotVersionKeys()
    ensures BuildExtras !! VersionKeys
  {
    assert forall k :: k in VersionKeys ==> |k| > 7 && k[7] == 'S';
    assert forall k :: k in BuildExtras ==> |k| > 7 && k[7] != 'S';
  }

  /** Neither the added keys nor the version keys are in the current table, key by key. */
  lemma NotCurrent(build: Build)
    ensures BuildExtras !! CurrentBuildTable(build).Keys
    ensures VersionKeys !! CurrentBuildTable(build).Keys
  {
    ExtrasNotCurrent(build);
    VersionKeysNotCurrent(build);
  }

  lemma ExtrasNotCurrent(build: Build)
    ensures BuildExtras !! CurrentBuildTable(build).Keys
  {
    FreshFailedStagesKey(build);
    FreshPullRequestKey(build);
    FreshPullRequestTitleKey(build);
    FreshTagKey(build);
    var current := CurrentBuildTable(build);
    assert forall k :: k in BuildExtras ==> k !in current;
  }

  /** The version keys read `SE` at their eighth and ninth characters, no current key does. */
  lemma VersionKeysNotCurrent(build: Build)
    ensures VersionKeys !! CurrentBuildTable(build).Keys
  {
    CurrentKeysOf(build);
    VersionKeysApartCurrentKeys();
    DisjointSubset(VersionKeys, CurrentBuildTable(build).Keys, CurrentKeys);
  }

  lemma VersionKeysApartCurrentKeys()
    ensures VersionKeys !! CurrentKeys
  {
    CurrentKeyLetters();
    assert forall k :: k in VersionKeys ==> SemverMarked(k);
    MarkedApart(VersionKeys, CurrentKeys);
  }

  /** The eighth and ninth characters of a version key. */
  predicate SemverMarked(k: string)
  {
    |k| > 8 && k[7] == 'S' && k[8] == 'E'
  }

  lemma MarkedApart(a: set<string>, c: set<string>)
    requires forall k :: k in a ==> SemverMarked(k)
    requires forall k :: k in c ==> !SemverMarked(k)
    ensures a !! c
  {
  }

  lemma DisjointSubset(a: set<string>, b: set<string>, c: set<string>)
    requires b <= c && a !! c
    ensures a !! b
  {
  }

  /** The keys of the current table. */
  const CurrentKeys: set<string> := {
    "GITFOX_BRANCH", "GITFOX_SOURCE_BRANCH", "GITFOX_TARGET_BRANCH", "GITFOX_COMMIT",
    "GITFOX_COMMIT_SHA", "GITFOX_COMMIT_BEFORE", "GITFOX_COMMIT_AFTER", "GITFOX_COMMIT_REF",
    "GITFOX_COMMIT_BRANCH", "GITFOX_COMMIT_LINK", "GITFOX_COMMIT_MESSAGE", "GITFOX_COMMIT_AUTHOR",
    "GITFOX_COMMIT_AUTHOR_EMAIL", "GITFOX_COMMIT_AUTHOR_AVATAR", "GITFOX_COMMIT_AUTHOR_NAME",
    "GITFOX_BUILD_NUMBER", "GITFOX_BUILD_PARENT", "GITFOX_BUILD_EVENT", "GITFOX_BUILD_ACTION",
    BuildStatusKey, "GITFOX_BUILD_DEBUG", "GITFOX_BUILD_CREATED", BuildStartedKey, BuildFinishedKey,
    "GITFOX_DEPLOY_TO", "GITFOX_DEPLOY_ID", "GITFOX_BUILD_TRIGGER"}

  lemma CurrentKeysOf(build: Build)
    ensures CurrentBuildTable(build).Keys <= CurrentKeys
  {
  }

  lemma CurrentKeyLetters()
    ensures forall k :: k in CurrentKeys ==> !SemverMarked(k)
  {
  }

  lemma FreshFailedStagesKey(build: Build)
    ensures FailedStagesKey !in CurrentBuildTable(build)
  {
  }

  lemma FreshPullRequestKey(build: Build)
    ensures PullRequestKey !in CurrentBuildTable(build)
  {
  }

  lemma FreshPullRequestTitleKey(build: Build)
    ensures PullRequestTitleKey !in CurrentBuildTable(build)
  {
  }

  lemma FreshTagKey(build: Build)
    ensures TagKey !in CurrentBuildTable(build)
  {
  }

  /** The entries of `env` whose keys are in `keys`. */
  function Restrict(env: Env, keys: set<string>): (r: Env)
    ensures r.Keys == env.Keys * keys
    ensures forall k :: k in r ==> r[k] == env[k]
  {
    map k | k in env.Keys * keys :: env[k]
  }

  /** The keys `Build` adds to its table, the version keys aside. */
  ghost function BuildAdded(build: Build): set<string>
  {
    OverridesAdded(build) + (if HasPrefix(build.ref, TagPrefix) then {TagKey} else {})
  }

  /** The keys added for a failing build and for a pull request. */
  ghost function OverridesAdded(build: Build): set<string>
  {
    (if BuildFailing(build) then {FailedStagesKey} else {})
    + (if build.event == EventPullRequest then {PullRequestKey, PullRequestTitleKey} else {})
  }

  /**
   * What `Build` yields on top of its table: the table's keys plus the added
   * ones, the overridden values, and for tag refs the tag with its semantic
   * version keys; no other ref brings in a version key.
   */
  ghost predicate BuildEntries(build: Build, now: int64, table: Env, env: Env)
  {
    && env.Keys - VersionKeys == table.Keys + BuildAdded(build)
    && OverrideValues(build, now, table, env)
    && TagValues(build, env)
  }

  /** For a tag ref the tag and the keys describing its version; no other ref brings in a version key. */
  ghost predicate TagValues(build: Build, env: Env)
  {
    && (HasPrefix(build.ref, TagPrefix) ==>
         && TagKey in env && env[TagKey] == TrimPrefix(build.ref, TagPrefix)
         && DescribesVersion(Restrict(env, VersionKeys), TrimPrefix(build.ref, TagPrefix)))
    && (!HasPrefix(build.ref, TagPrefix) ==> env.Keys !! VersionKeys)
  }

  /**
   * The values the failure, clock and pull request steps of `Build` leave:
   * the failure status with the failed stages, the back-filled start and
   * finish times, the pull request number and title for pull request
   * events; every other table entry is kept.
   */
  ghost predicate OverrideValues(build: Build, now: int64, table: Env, env: Env)
  {
    && BuildOverrides <= env.Keys
    && env[BuildStatusKey] == (if BuildFailing(build) then "failure" else "success")
    && (FailedStagesKey in env ==> env[FailedStagesKey] == Join(FailedStageNames(build.stages), ","))
    && env[BuildStartedKey] == Itoa(Backfill(build.started, now))
    && env[BuildFinishedKey] == Itoa(Backfill(build.finished, now))
    && (build.event == EventPullRequest ==>
         && PullRequestKey in env && env[PullRequestKey] == LeftmostDigits(build.ref)
         && PullRequestTitleKey in env && env[PullRequestTitleKey] == build.title)
    && (forall k :: k in table && k !in BuildOverrides ==> k in env && env[k] == table[k])
  }

  /** The state after the failure, clock and pull request steps of `Build`. */
  ghost predicate Overridden(build: Build, now: int64, table: Env, env: Env)
  {
    env.Keys == table.Keys + OverridesAdded(build) && OverrideValues(build, now, table, env)
  }

  /** The tag step of `Build`: for a tag ref, the tag and its version keys on top of `before`. */
  ghost predicate Tagged(build: Build, before: Env, env: Env)
  {
    && (!HasPrefix(build.ref, TagPrefix) ==> env == before)
    && (HasPrefix(build.ref, TagPrefix) ==> env.Keys - VersionKeys == before.Keys + {TagKey})
    && TagValues(build, env)
    && (forall k :: k in before ==> k in env && env[k] == before[k])
  }

  /** `Build`: its table, then the overrides and additions. */
  method BuildEnv(build: Build, now: int64) returns (env: Env)
    ensures BuildEntries(build, now, BuildTable(build), env)
  {
    BuildKeysApart(build);
    env := Overlay(build, now, BuildTable(build));
  }

  /** The steps of `Build` after its table literal, on any table of the right shape. */
  method Overlay(build: Build, now: int64, table: Env) returns (env: Env)
    requires TableShape(build, table)
    ensures BuildEntries(build, now, table, env)
  {
    var before := Overrides(build, now, table);
    env := TagEntries(build, before);
    OverlayEntries(build, now, table, before, env);
  }

  /** The failure, clock and pull request steps of `Build`. */
  method Overrides(build: Build, now: int64, table: Env) returns (env: Env)
    requires TableShape(build, table)
    ensures Overridden(build, now, table, env)
  {
    BuildKeysDistinct();
    env := FailureEntries(build, table);
    env := ClockEntries(build, now, table, env);
    env := PullRequestEntries(build, now, table, env);
  }

  /** The keys added for a failing build. */
  ghost function FailureAdded(build: Build): set<string>
  {
    if BuildFailing(build) then {FailedStagesKey} else {}
  }

  /** After the failure step: the roll-up status and, for a failing build, the failed stages. */
  ghost predicate FailureMarked(build: Build, table: Env, env: Env)
  {
    && env.Keys == table.Keys + FailureAdded(build)
    && BuildStatusKey in env
    && env[BuildStatusKey] == (if BuildFailing(build) then "failure" else "success")
    && (FailedStagesKey in env ==> env[FailedStagesKey] == Join(FailedStageNames(build.stages), ","))
    && (forall k :: k in table && k != BuildStatusKey ==> env[k] == table[k])
  }

  /** After the clock step: the start and finish times back-filled as well. */
  ghost predicate ClocksSet(build: Build, now: int64, table: Env, env: Env)
  {
    && env.Keys == table.Keys + FailureAdded(build)
    && BuildOverrides <= env.Keys
    && env[BuildStatusKey] == (if BuildFailing(build) then "failure" else "success")
    && (FailedStagesKey in env ==> env[FailedStagesKey] == Join(FailedStageNames(build.stages), ","))
    && env[BuildStartedKey] == Itoa(Backfill(build.started, now))
    && env[BuildFinishedKey] == Itoa(Backfill(build.finished, now))
    && (forall k :: k in table && k !in BuildOverrides ==> env[k] == table[k])
  }

  /** Lines 176-179 of `Build`: a failing build reports failure and lists its failed stages. */
  method FailureEntries(build: Build, table: Env) returns (env: Env)
    requires TableShape(build, table)
    ensures FailureMarked(build, table, env)
  {
    BuildKeysDistinct();
    env := table;
    var failing := IsBuildFailing(build);
    if failing {
      env := env[BuildStatusKey := "failure"];
      var names := FailedStages(build);
      env := env[FailedStagesKey := Join(names, ",")];
    }
  }

  /** Lines 180-185 of `Build`: a clock that is still zero takes the current time. */
  method ClockEntries(build: Build, now: int64, table: Env, before: Env) returns (env: Env)
    requires TableShape(build, table) && FailureMarked(build, table, before)
    ensures ClocksSet(build, now, table, env)
  {
    BuildKeysDistinct();
    env := before;
    if build.started == 0 {
      env := env[BuildStartedKey := Itoa(now)];
    }
    if build.finished == 0 {
      env := env[BuildFinishedKey := Itoa(now)];
    }
  }

  /** Lines 186-189 of `Build`: a pull request event adds the number found in the ref and the title. */
  method PullRequestEntries(build: Build, now: int64, table: Env, before: Env) returns (env: Env)
    requires TableShape(build, table) && ClocksSet(build, now, table, before)
    ensures Overridden(build, now, table, env)
  {
    BuildKeysDistinct();
    env := before;
    if build.event == EventPullRequest {
      env := env[PullRequestKey := LeftmostDigits(build.ref)];
      env := env[PullRequestTitleKey := build.title];
    }
  }

  /** A tag ref adds the tag and its semantic version keys; any other ref changes nothing. */
  method TagEntries(build: Build, env: Env) returns (out: Env)
    requires env.Keys !! VersionKeys && TagKey !in env
    ensures Tagged(build, env, out)
  {
    out := env;
    if HasPrefix(build.ref, TagPrefix) {
      var tag := TrimPrefix(build.ref, TagPrefix);
      out := out[TagKey := tag];
      out := AddVersions(out, tag);
    }
  }

  /** The overrides followed by the tag step give what `Build` promises. */
  lemma OverlayEntries(build: Build, now: int64, table: Env, before: Env, env: Env)
    requires Overridden(build, now, table, before) && Tagged(build, before, env)
    ensures BuildEntries(build, now, table, env)
  {
    if HasPrefix(build.ref, TagPrefix) {
      TaggedEntries(build, now, table, before, env);
    } else {
      assert env == before;
    }
  }

  lemma TaggedEntries(build: Build, now: int64, table: Env, before: Env, env: Env)
    requires HasPrefix(build.ref, TagPrefix)
    requires Overridden(build, now, table, before) && Tagged(build, before, env)
    ensures BuildEntries(build, now, table, env)
  {
    FailedStagesKeyApart();
    OnlyTagAdded(FailedStagesKey, before.Keys, env.Keys);
    ValuesKept(build, now, table, before, env);
    TagAdded(build);
    KeysAdded(table.Keys, OverridesAdded(build), BuildAdded(build), before.Keys, env.Keys);
  }

  lemma TagAdded(build: Build)
    requires HasPrefix(build.ref, TagPrefix)
    ensures BuildAdded(build) == OverridesAdded(build) + {TagKey}
  {
  }

  /** The failed-stages key is neither a version key nor the tag key. */
  lemma FailedStagesKeyApart()
    ensures FailedStagesKey !in VersionKeys && FailedStagesKey != TagKey
  {
    ExtrasNotVersionKeys();
  }

  /** A key that is neither the tag key nor a version key is not added by the tag step. */
  lemma OnlyTagAdded(k: string, before: set<string>, env: set<string>)
    requires env - VersionKeys == before + {TagKey}
    requires k !in VersionKeys && k != TagKey
    ensures k in env ==> k in before
  {
    if k in env {
      assert k in env - VersionKeys;
    }
  }

  /** One more added key on top of a step that added `added` to the table's keys. */
  lemma KeysAdded(table: set<string>, added: set<string>, total: set<string>, before: set<string>, env: set<string>)
    requires before == table + added && total == added + {TagKey}
    requires env - VersionKeys == before + {TagKey}
    ensures env - VersionKeys == table + total
  {
  }

  /** Later steps that keep every entry and add no failed-stages list keep the override values. */
  lemma ValuesKept(build: Build, now: int64, table: Env, before: Env, env: Env)
    requires OverrideValues(build, now, table, before)
    requires forall k :: k in before ==> k in env && env[k] == before[k]
    requires FailedStagesKey in env ==> FailedStagesKey in before
    ensures OverrideValues(build, now, table, env)
  {
  }

  /** `copyenv(versions(tag), env)` into an environment that holds no version key yet. */
  method AddVersions(env: Env, tag: string) returns (out: Env)
    requires env.Keys !! VersionKeys
    ensures out.Keys - VersionKeys == env.Keys
    ensures forall k :: k in env ==> out[k] == env[k]
    ensures DescribesVersion(Restrict(out, VersionKeys), tag)
  {
    var versions := Versions(tag);
    out := CopyEnv(versions, env);
    VersionsCopied(versions, env, out);
  }

  /** Copying version keys into a map without any leaves its entries and adds exactly the copied ones. */
  lemma VersionsCopied(versions: Env, env: Env, out: Env)
    requires versions.Keys <= VersionKeys && env.Keys !! VersionKeys
    requires out.Keys == env.Keys + versions.Keys
    requires forall k :: k in versions ==> out[k] == versions[k]
    requires forall k :: k in env && k !in versions ==> out[k] == env[k]
    ensures out.Keys - VersionKeys == env.Keys
    ensures forall k :: k in env ==> out[k] == env[k]
    ensures Restrict(out, VersionKeys) == versions
  {
    assert Restrict(out, VersionKeys).Keys == versions.Keys;
  }
  /**
   * The failed stages are listed exactly when the status is "failure", which
   * is exactly when the build is failing.
   */
  lemma BuildStatusConsistent(build: Build, now: int64, table: Env, env: Env)
    requires TableShape(build, table) && BuildEntries(build, now, table, env)
    ensures FailedStagesKey in env <==> env[BuildStatusKey] == "failure"
    ensures FailedStagesKey in env <==> IsFailed(build.status) || FailedStageNames(build.stages) != []
  {
    BuildKeysDistinct();
    BuildFailingIffFailedStages(build);
  }

  /**
   * The pull request keys are there exactly for pull request events, and the
   * tag key exactly for tag refs; no other ref brings in a version key.
   */
  lemma BuildOptionalKeys(build: Build, now: int64, table: Env, env: Env)
    requires TableShape(build, table) && BuildEntries(build, now, table, env)
    ensures PullRequestKey in env <==> build.event == EventPullRequest
    ensures PullRequestTitleKey in env <==> build.event == EventPullRequest
    ensures TagKey in env <==> HasPrefix(build.ref, TagPrefix)
    ensures forall k :: k in VersionKeys && k in env ==> HasPrefix(build.ref, TagPrefix)
  {
    var added := BuildAdded(build);
    AddedMembers(build);
    AddedKeyIn(PullRequestKey, table.Keys, added, env.Keys);
    AddedKeyIn(PullRequestTitleKey, table.Keys, added, env.Keys);
    AddedKeyIn(TagKey, table.Keys, added, env.Keys);
  }

  /** Which of the optional keys `Build` adds. */
  lemma AddedMembers(build: Build)
    ensures PullRequestKey in BuildAdded(build) <==> build.event == EventPullRequest
    ensures PullRequestTitleKey in BuildAdded(build) <==> build.event == EventPullRequest
    ensures TagKey in BuildAdded(build) <==> HasPrefix(build.ref, TagPrefix)
  {
    BuildKeysDistinct();
  }

  /** A key outside the table and the version keys is in the result exactly when it was added. */
  lemma AddedKeyIn(k: string, table: set<string>, added: set<string>, env: set<string>)
    requires env - VersionKeys == table + added
    requires k !in VersionKeys && k !in table
    ensures k in env <==> k in added
  {
    if k in env {
      assert k in env - VersionKeys;
    }
  }

  /** A build that has not started or finished shows the clock, which TestBuild expects to be non-zero. */
  lemma BuildClockBackfilled(build: Build, now: int64, table: Env, env: Env)
    requires BuildEntries(build, now, table, env) && now != 0
    ensures env[BuildStartedKey] != "0" && env[BuildFinishedKey] != "0"
    ensures build.started == 0 ==> env[BuildStartedKey] == Itoa(now)
    ensures build.finished == 0 ==> env[BuildFinishedKey] == Itoa(now)
  {
    BackfillNonZero(build.started, now);
    BackfillNonZero(build.finished, now);
  }

  /** The legacy status and clock keys of a table, with the raw values of the build. */
  predicate LegacyShape(build: Build, table: Env)
  {
    && "CI_BUILD_STATUS" in table && table["CI_BUILD_STATUS"] == StatusName(build.status)
    && "CI_BUILD_STARTED" in table && table["CI_BUILD_STARTED"] == Itoa(build.started)
    && "CI_BUILD_FINISHED" in table && table["CI_BUILD_FINISHED"] == Itoa(build.finished)
  }

  lemma LegacyInTable(build: Build)
    ensures LegacyShape(build, BuildTable(build))
  {
    var current, legacy := CurrentBuildTable(build), LegacyBuildTable(build);
    assert BuildTable(build) == current + legacy;
    LegacyInLegacyTable(build);
  }

  lemma LegacyInLegacyTable(build: Build)
    ensures LegacyShape(build, LegacyBuildTable(build))
  {
  }

  /** The legacy status and clock keys hold the raw values: no roll-up, no back-fill. */
  lemma LegacyBuildKeys(build: Build, now: int64, table: Env, env: Env)
    requires LegacyShape(build, table) && BuildEntries(build, now, table, env)
    ensures env["CI_BUILD_STATUS"] == StatusName(build.status)
    ensures env["CI_BUILD_STARTED"] == Itoa(build.started)
    ensures env["CI_BUILD_FINISHED"] == Itoa(build.finished)
  {
    LegacyNotOverridden();
  }

  lemma LegacyNotOverridden()
    ensures "CI_BUILD_STATUS" !in BuildOverrides
    ensures "CI_BUILD_STARTED" !in BuildOverrides
    ensures "CI_BUILD_FINISHED" !in BuildOverrides
  {
  }

  /** The pull request of TestBuild: number 32 from `refs/pull/32/head`, with its title. */
  lemma BuildPullRequestExample(build: Build, now: int64, table: Env, env: Env)
    requires BuildEntries(build, now, table, env)
    requires build.event == EventPullRequest && build.ref == "refs/pull/32/head"
    ensures env[PullRequestKey] == "32" && env[PullRequestTitleKey] == build.title
  {
    PullRequestNumberExample(build.ref);
  }

  /** The tag ref of TestBuild: the tag keeps its `v`, the version keys drop it. */
  lemma BuildTagExample(build: Build, now: int64, table: Env, env: Env)
    requires BuildEntries(build, now, table, env)
    requires build.ref == "refs/tags/v1.2.3"
    ensures env[TagKey] == "v1.2.3"
    ensures Restrict(env, VersionKeys) == map[
      SemverKey := "1.2.3", MajorKey := "1", MinorKey := "2", PatchKey := "3", ShortKey := "1.2.3"]
  {
    TagOfRef(build.ref);
    var tag := TrimPrefix(build.ref, TagPrefix);
    var versions := Restrict(env, VersionKeys);
    PlainExample(versions, tag);
  }

  lemma TagOfRef(ref: string)
    requires ref == "refs/tags/v1.2.3"
    ensures HasPrefix(ref, TagPrefix) && TrimPrefix(ref, TagPrefix) == "v1.2.3"
  {
    var tag := "v1.2.3";
    assert ref == TagPrefix + tag;
    PrefixOfConcat(TagPrefix, tag);
  }
}
