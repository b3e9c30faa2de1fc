# environ — a verified model

The `environ` package of the pipeline runner turns the records of a CI run
into the environment variables each pipeline step receives. The records are
the system, the repository, the build, the stage and the step, plus the
netrc credentials. The package also merges several such maps into one and
serialises a map into a sorted `KEY=VALUE` list. For a tag build, it derives
the semantic-version keys of the tag.

The model is split into modules that follow the package's structure:

- `Drone` (drone.dfy): the read-only records and the `Status` enum.
- `Text` (text.dfy): the parts of Go's `strings` and `fmt` that the package
  uses: prefixes, `Join`, and decimal printing of integers and booleans. It
  also has `DecimalValue` and `Canonical`, which read a numeral back. They
  state what printing loses and stand in for the version library's number
  parsing. It also holds the `int64` range of the records' integer fields.
- `Sorting` (sorting.dfy): `sort.Strings`. It is the lexicographic order
  on characters, compared one by one, with an insertion sort. The sorted
  result of a multiset is proved unique.
- `Rollup` (rollup.dfy): `isBuildFailing`, `isStageFailing`, `failedSteps`
  and `failedStages`. Each is a loop proved against a specification
  function.
- `Merge` (merge.dfy): `copyenv`, `Combine` and `Slice`. Each is a loop
  over the map's keys, proved against a fold (`Merged`) or the multiset of
  lines (`Entries`).
- `Semver` (semver.dfy): `versions`, with a parser for
  `MAJOR.MINOR.PATCH[-PRERELEASE][+BUILD]`. The parser follows Semantic
  Versioning 2.0.0: item 2 covers the numbers, item 9 the pre-release and
  item 10 the build metadata. It splits the text the way the version
  library does: at the first `+`, then at the first `-`, then into at most
  three dot-separated parts. It is proved sound and complete against the
  rendering `VersionString`.
- `Environ` (environ.dfy):
  - the single-literal mappers `System`, `Repo`, `Step`, `StepArgs`,
    `StepName` and `Link`, as functions;
  - `Netrc`, `Stage` and `Build` as methods that build the map and then
    overwrite or insert keys;
  - the `\d+` search that extracts the pull-request number from the ref.

`Stage` and `Build` read the wall clock. Here they take a parameter `now`
instead, which is used for both reads.

## Model

| member | source | states |
|---|---|---|
| Drone.StatusNameInjective | environ/environ.go:163 | distinct statuses have distinct status strings, so the legacy `CI_BUILD_STATUS` value identifies the status |
| Text.CanonicalRoundTrip | environ/environ.go:72 | every canonical decimal numeral is the rendering of its own value, so `fmt.Sprint` output reads back uniquely |
| Text.ItoaSigned | environ/environ.go:208 | the decimal rendering of an integer reads back as that integer: a minus sign exactly for negative values, then the canonical numeral of the magnitude; it holds only digits and `-` |
| Text.ItoaZero | environ/environ.go:88-93 | an integer renders as `"0"` exactly when it is zero |
| Text.TrimPrefix | environ/semver.go:19 | when the prefix is present, the input is the prefix followed by the result; otherwise the input comes back unchanged |
| Text.Cut | environ/environ.go:248 | the text before the first occurrence of the separator, and the rest only when the separator occurs; the parts put back together give the input |
| Text.RejoinCut | environ/semver.go:20 | cutting a separator-free head plus a rejoined rest gives both back (the inverse of `Cut`, which the parser's splits rely on) |
| Sorting.InsertSorted | environ/environ.go:250 | inserting into a sorted list keeps it sorted |
| Sorting.SortStrings | environ/environ.go:250 | the result is sorted and a permutation of the input |
| Sorting.SortedUnique | environ/environ.go:250 | two sorted permutations of the same multiset are equal, so the sorted list does not depend on map iteration order |
| Sorting.LessEqTotal | environ/environ.go:250 | the string order is total |
| Sorting.LessEqAntisymmetric | environ/environ.go:250 | strings that are ordered both ways are equal |
| Rollup.IsBuildFailing | environ/environ.go:263-277 | true exactly when the build status, or the status of some stage, is error, failing or killed |
| Rollup.IsStageFailing | environ/environ.go:280-297 | true exactly when the stage status is error, failing or killed, or some step fails without an ignored failing status |
| Rollup.FailedSteps | environ/environ.go:300-313 | returns the names of failed steps in step order, skipping failing steps whose errors are ignored |
| Rollup.FailedStages | environ/environ.go:316-326 | returns the names of the stages in error, failing or killed state, in stage order |
| Rollup.NamesWhereSelects | environ/environ.go:300-326 | the selected names are exactly the names at the increasing indices of the kept elements |
| Rollup.FailedStepNamesMembers | environ/environ.go:300-313 | a name is listed exactly when some step with that name fails and is not ignored |
| Rollup.FailedStageNamesMembers | environ/environ.go:316-326 | a name is listed exactly when some stage with that name is in error, failing or killed state |
| Rollup.IgnoredErrorsStillListed | environ/environ.go:303-309 | `errIgnore` suppresses only the failing status; an error or killed step is still listed |
| Rollup.IgnoredFailureNotListed | environ/environ.go:303-305 | a failing step with ignored errors, whose name no other step has, is not listed |
| Rollup.StageFailingIffFailedSteps | environ/environ.go:280-313 | a stage is failing exactly when its own status is failed or its failed-step list is non-empty |
| Rollup.BuildFailingIffFailedStages | environ/environ.go:263-277 | a build is failing exactly when its own status is failed or its failed-stage list is non-empty |
| Rollup.BuildRollupIgnoresSteps | environ/environ.go:263-277 | the build verdict and failed-stage list depend only on the build status and the stages' names and statuses, never on steps |
| Rollup.PassingStageNotFailing | environ/environ.go:280-313 | a running, pending or passing stage whose steps each pass or fail with ignored errors is not failing and lists no failed step |
| Rollup.FailedStepsExample | environ/environ_test.go:415-443 | the steps clone (passing), test, integration and ignored experimental (all failing) give `["test", "integration"]` |
| Rollup.FailedStagesExample | environ/environ_test.go:445-496 | blocked, error, failing, killed and passing stages give `["step_error", "step_failing", "step_killed"]` |
| Merge.CopyEnv | environ/environ.go:256-260 | the result holds every key of both maps; keys of the source take the source's value, and the other keys keep the destination's value |
| Merge.Combine | environ/environ.go:233-241 | the result's keys are the union of the inputs' keys; each key takes its value from the last input that holds it |
| Merge.MergedDomain | environ/environ.go:233-241 | the fold's key set is the union of the inputs' key sets |
| Merge.MergedLastWriter | environ/environ.go:233-241 | the fold gives each key the value of the last input that holds it |
| Merge.MergedPair | environ/environ_test.go:315-340 | with two inputs, the second wins on shared keys and the first supplies the rest |
| Merge.MergedNotCommutative | environ/environ_test.go:315-340 | swapping two inputs that disagree on `CI` changes the result |
| Merge.Slice | environ/environ.go:245-252 | the list is sorted, has one line per entry, and is a permutation of the `key=value` lines of the map |
| Merge.EntriesSize | environ/environ.go:245-252 | a map has exactly as many lines as entries |
| Merge.EntriesMembers | environ/environ.go:245-252 | a line occurs exactly when it is `k=v` for some entry `k` with value `v` |
| Merge.EntriesSplit | environ/environ.go:245-252 | when no key contains `=`, cutting a line at its first `=` recovers the key and its value |
| Merge.EntriesCollide | environ/environ.go:248 | a key that contains `=` can make two different maps serialise to the same lines |
| Semver.Parse | environ/semver.go:20 | the defining split: build metadata cut at the first `+`, the pre-release at the first `-` of the rest; its properties are `ParseSound` and `ParseComplete` |
| Semver.ParseNormal | environ/semver.go:20 | the normal version split at its first two dots, failing with the dotted-tri error when there are fewer than two; its properties are `ParseBadMajor` and `InvalidParse` |
| Semver.Validate | environ/semver.go:20 | the checks on the parts in order: pre-release, metadata, then the three numbers; its properties are `ValidateSound` and `ValidateComplete` |
| Semver.ValidateSound | environ/semver.go:20 | an accepted set of parts is well formed, and its short form, pre-release and metadata render back to the parts |
| Semver.InvalidParse | environ/semver_test.go:13-20 | `this is an invalid version` has no leading `v` and fails the dotted-tri check |
| Semver.ParseSound | environ/semver.go:20 | a successful parse gives a well-formed version whose rendering is the input |
| Semver.ParseComplete | environ/semver.go:20 | every well-formed version parses back from its rendering |
| Semver.ValidateComplete | environ/semver.go:20 | the component check accepts the renderings of every well-formed version |
| Semver.ShortRendering | environ/semver.go:36-38 | rendering with pre-release and metadata cleared gives `MAJOR.MINOR.PATCH` |
| Semver.RenderParts | environ/semver.go:26 | a well-formed rendering is the short form, then `-PRE` when there is a pre-release, then `+BUILD` when there is metadata |
| Semver.ParseBadMajor | environ/semver.go:20-24 | a dotted text whose first part is not a number is rejected for that part |
| Semver.Versions | environ/semver.go:16-40 | emits only semver keys; on a parse failure of the tag minus one leading `v`, only the error key; on success, the seven value keys as the parsed version describes them |
| Semver.VersionEntries | environ/semver.go:26-38 | the full rendering, the three decimal components, and the short rendering; the pre-release and build keys appear exactly when those parts are non-empty |
| Semver.FillEntries | environ/semver.go:26-38 | the key-by-key fill: exactly the five fixed keys, plus the pre-release and build keys exactly when those strings are non-empty, each with its given value |
| Semver.SemverIsTag | environ/semver.go:19-26 | `GITFOX_SEMVER` equals the tag minus one leading `v` |
| Semver.ShortIsPrefix | environ/semver.go:36-38 | `GITFOX_SEMVER_SHORT` is a prefix of `GITFOX_SEMVER` |
| Semver.ErrorAlone | environ/semver.go:20-24 | the error key appears exactly when parsing fails, and then it is the only key |
| Semver.LeadingVOptional | environ/semver.go:19 | a tag with one leading `v` yields the same keys as the same tag without it |
| Semver.DoubleVRejected | environ/semver.go:19-24 | only one `v` is stripped, so `vv1.2.3` yields only the error key |
| Semver.DescribedFull | environ/semver.go:26-38 | with both optional parts present, the map has exactly the seven value keys and their values |
| Semver.DescribedPlain | environ/semver.go:26-38 | with neither optional part present, the map has exactly five keys |
| Semver.CanonicalExample | environ/semver_test.go:22-38 | `v1.2.3-alpha+001` yields the seven keys with values `1.2.3-alpha+001`, `1`, `2`, `3`, `alpha`, `001` and `1.2.3` |
| Semver.PlainExample | environ/semver.go:26-38 | `v1.2.3` yields the five keys without the pre-release and build keys |
| Semver.InvalidExample | environ/semver_test.go:13-20 | `this is an invalid version` yields only the error key, with the "is not in dotted-tri format" message |
| Environ.SystemEnv | environ/environ.go:25-34 | the map literal of `System`, key for key; its properties are in `SystemEnvShape` |
| Environ.RepoEnv | environ/environ.go:38-63 | the map literal of `Repo`, key for key, with the legacy aliases; its properties are in `RepoAliases` |
| Environ.StepEnv | environ/environ.go:99-104 | the map literal of `Step`; related to `StepArgs` by `StepMappersAgree` |
| Environ.StepArgsEnv | environ/environ.go:108-113 | the map literal of `StepArgs`, the step name and the printed number |
| Environ.StepNameEnv | environ/environ.go:117-121 | the map literal of `StepName`, the step name alone; related to `StepArgs` by `StepMappersAgree` |
| Environ.LinkEnv | environ/environ.go:201-211 | the one-key map literal of `Link`; its properties are in `LinkNumber` |
| Environ.LinkNumber | environ/environ.go:201-211 | the only key is the build link; the link is `proto://host/slug/` followed by a `/`-free tail that reads back as the build number |
| Environ.SystemEnvShape | environ/environ.go:25-34 | six keys; host and hostname both carry the host; `CI` and `DRONE` are `"true"`; there is no `GITFOX` key |
| Environ.RepoAliases | environ/environ.go:38-63 | each legacy `CI_REPO*` alias carries the same value as its current key; owner and namespace agree |
| Environ.StepMappersAgree | environ/environ.go:99-121 | `Step` equals `StepArgs` on the step's name and number; `StepName` is `StepArgs` without the number key |
| Environ.LinkExample | environ/environ_test.go:285-300 | `http`, `drone.company.com`, `octocat/hello-world` and build 42 give the link `http://drone.company.com/octocat/hello-world/42` |
| Environ.LeftmostDigits | environ/environ.go:21 | the result is empty exactly when there is no digit; otherwise it is the maximal digit run that starts at the first digit |
| Environ.NoDigitsPrefix | environ/environ.go:187 | a digit-free prefix shifts the first digit by its length |
| Environ.PullRequestNumberExample | environ/environ_test.go:59-66 | the ref `refs/pull/32/head` yields the number `"32"` |
| Environ.NetrcEnv | environ/environ.go:215-229 | no credentials or an empty machine give the empty map; otherwise the four netrc keys with the machine, login, password and the netrc line |
| Environ.NetrcLine | environ/environ.go:221-226 | the netrc line starts with `machine <machine> login ` |
| Environ.StageTable | environ/environ.go:68-83 | the initial map literal of `Stage`, key for key; `StageTableShape` states what the overrides need of it |
| Environ.StageTableShape | environ/environ.go:68-83 | the stage table holds the status and clock keys with their initial values, and no failed-steps key |
| Environ.StageOverlay | environ/environ.go:84-93 | over any table of that shape: the failure status and the joined failed-step names exactly when the stage is failing, the back-filled clocks, and every other entry kept |
| Environ.StageEnv | environ/environ.go:67-95 | the stage table, with the status set to `failure` plus the joined failed-step names when the stage is failing, and zero clocks back-filled with `now`; the other keys are kept |
| Environ.StageStatusConsistent | environ/environ.go:84-87 | `GITFOX_FAILED_STEPS` is present exactly when the status is `failure`, and exactly when the stage's own status has failed or some step fails |
| Environ.StageClockBackfilled | environ/environ.go:88-93 | with a non-zero clock, neither stage time renders as `"0"`; an unset time takes the clock |
| Environ.BackfillNonZero | environ/environ.go:88-93 | back-filling with a non-zero clock never yields `"0"` |
| Environ.BuildEnv | environ/environ.go:125-197 | the build table plus its overrides: the failure status and failed stages, back-filled clocks, and the pull-request number and title; for a tag ref, also the tag key and the semver keys of the tag |
| Environ.CurrentBuildTable | environ/environ.go:126-153 | the `GITFOX_*` part of the initial map literal of `Build`, key for key |
| Environ.LegacyBuildTable | environ/environ.go:158-174 | the legacy `CI_*` part of the initial map literal of `Build`, key for key; `LegacyInLegacyTable` spot-checks it |
| Environ.Overlay | environ/environ.go:176-195 | over any table of the build table's shape: the overrides, then the tag and semver keys, as `BuildEntries` states them |
| Environ.Overrides | environ/environ.go:176-189 | the table with the failure, clock and pull-request overrides applied, and nothing else added |
| Environ.FailureEntries | environ/environ.go:176-179 | a failing build gets status `failure` and the joined failed-stage names; everything else is kept |
| Environ.ClockEntries | environ/environ.go:180-185 | an unset start or finish time takes the clock; all other entries are kept |
| Environ.PullRequestEntries | environ/environ.go:186-189 | a pull-request event adds the leftmost digit run of the ref and the title; all other entries are kept |
| Environ.TagEntries | environ/environ.go:190-193 | an unchanged map for a non-tag ref; for a tag ref, the tag key with the ref minus `refs/tags/`, and the semver keys of that tag over the kept entries |
| Environ.AddVersions | environ/environ.go:193 | copying the semver keys into the map keeps every earlier entry and adds exactly the keys of `versions(tag)` |
| Environ.VersionsCopied | environ/environ.go:193 | after the copy, restricting to the semver keys gives back exactly the copied map |
| Environ.BuildStatusConsistent | environ/environ.go:176-179 | `GITFOX_FAILED_STAGES` is present exactly when the status is `failure`, and exactly when the build's own status has failed or some stage has |
| Environ.BuildOptionalKeys | environ/environ.go:186-195 | the pull-request keys are present exactly for pull-request events; the tag key exactly for `refs/tags/` refs; semver keys only for tag refs |
| Environ.BuildClockBackfilled | environ/environ.go:180-185 | with a non-zero clock, neither build time renders as `"0"`; an unset time takes the clock |
| Environ.BuildKeysApart | environ/environ.go:126-175 | in the build table, the overridden keys are present with their initial values, and neither the keys `Build` adds nor any semver key is there yet |
| Environ.LegacyBuildKeys | environ/environ.go:161-163 | the legacy status and clock keys keep the raw values; overrides never touch them |
| Environ.LegacyInTable | environ/environ.go:158-174 | the build table holds the legacy status and clock keys with their raw values |
| Environ.BuildPullRequestExample | environ/environ_test.go:59-66 | a pull-request build on `refs/pull/32/head` gets the number `"32"` and its title |
| Environ.BuildTagExample | environ/environ.go:190-193 | a build on `refs/tags/v1.2.3` gets the tag `v1.2.3` and the five semver keys of `1.2.3` |

## Left out

- `calversions(tag)` (environ/environ.go:194) is not part of this model. Its keys are not added to a tag build's map.
- Environ.StageEnv, Environ.BuildEnv: the clock is a parameter `now`, used for both reads. The source reads the wall clock afresh each time, so its two back-filled times may differ by a tick.
- Semver.Parse: the version library is not part of this model. The parser uses the grammar of Semantic Versioning 2.0.0 with the library's split order: numbers without leading zeros, numeric pre-release identifiers without leading zeros, and no empty identifiers. It may therefore reject tags the library accepts, such as a number with a leading zero (`v2020.01.15`) or an empty suffix after `-` or `+`. For those tags the model gives only the error key, where the program may give semver keys. The error key carries only the wording of the dotted-tri error; the other error messages are wording chosen here.
- Semver.SemverIsTag: it holds for the strict grammar above. A library that accepts `01` and prints `1` would not keep `GITFOX_SEMVER` equal to the tag.
- Environ.LeftmostDigits: Go's regexp engine is replaced by a function that returns the leftmost digit run, which is what `FindString` with `\d+` returns.
- Merge.CopyEnv: it returns the updated map instead of changing the destination in place. The one destination in the source is a map local to `Build`, so no aliasing is lost.
- Merge.Combine, Merge.Slice, Merge.CopyEnv: Go's map iteration order is replaced by choosing any remaining key. The results do not depend on the order.
- Sorting.SortStrings: `sort.Strings` is modelled as an insertion sort. The sorted result of a multiset is unique, so the algorithm is not observable.
- Sorting.LessEq: Go compares strings byte by byte and its strings may hold arbitrary bytes. The model's strings are sequences of Unicode characters, so they cannot represent invalid UTF-8. For valid UTF-8, comparing characters gives the same order as comparing bytes.
- Environ.LegacyInTable: only the legacy status and clock keys of the build are followed through the overrides. The other legacy `CI_*` aliases are data copies and are not stated one by one.
- Drone: the records keep only the fields the package reads. Status is an enum, and its string form follows drone-go's constants.
- Environ.SystemEnvShape: the code emits the key `DRONE`, while the system test expects a `GITFOX` key. The model follows the code.
- Rollup.FailedStagesExample: it checks five of the test's ten stages, one for each distinct kind of verdict.
