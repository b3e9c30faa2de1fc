/**
 * The semantic-version keys of a tag (environ/semver.go). The parser reads
 * `MAJOR.MINOR.PATCH[-PRERELEASE][+BUILD]` as Semantic Versioning 2.0.0
 * defines it: item 2 for the three numbers, item 9 for the pre-release and
 * item 10 for the build metadata. It splits the text the way the version
 * library does (at the first `+`, then at the first `-`, then into at most
 * three dot-separated parts), so its first error, too few dots, is the one
 * whose message the tests pin down.
 */
module Semver {
  import opened Wrappers
  import opened Text

  const SemverKey: string := "GITFOX_SEMVER"
  const MajorKey: string := "GITFOX_SEMVER_MAJOR"
  const MinorKey: string := "GITFOX_SEMVER_MINOR"
  const PatchKey: string := "GITFOX_SEMVER_PATCH"
  const PreReleaseKey: string := "GITFOX_SEMVER_PRERELEASE"
  const BuildKey: string := "GITFOX_SEMVER_BUILD"
  const ShortKey: string := "GITFOX_SEMVER_SHORT"
  const ErrorKey: string := "GITFOX_SEMVER_ERROR"

  /** The keys of a successful parse, some of them optional. */
  const SuccessKeys: set<string> :=
    {SemverKey, MajorKey, MinorKey, PatchKey, PreReleaseKey, BuildKey, ShortKey}

  lemma ErrorKeyApart()
    ensures ErrorKey !in SuccessKeys
  {
  }

  /** The seven keys of a successful parse are pairwise distinct. */
  lemma SuccessKeysDistinct()
    ensures SemverKey != MajorKey && SemverKey != MinorKey && SemverKey != PatchKey
    ensures SemverKey != PreReleaseKey && SemverKey != BuildKey && SemverKey != ShortKey
    ensures MajorKey != MinorKey && MajorKey != PatchKey && MajorKey != PreReleaseKey
    ensures MajorKey != BuildKey && MajorKey != ShortKey
    ensures MinorKey != PatchKey && MinorKey != PreReleaseKey && MinorKey != BuildKey && MinorKey != ShortKey
    ensures PatchKey != PreReleaseKey && PatchKey != BuildKey && PatchKey != ShortKey
    ensures PreReleaseKey != BuildKey && PreReleaseKey != ShortKey && BuildKey != ShortKey
  {
  }

  /** Every key `versions` can emit. */
  const VersionKeys: set<string> :=
    {SemverKey, MajorKey, MinorKey, PatchKey, PreReleaseKey, BuildKey, ShortKey, ErrorKey}

  /** A parsed version; an empty pre-release or metadata string means the part is absent. */
  datatype Version = Version(major: nat, minor: nat, patch: nat, preRelease: string, metadata: string)

  datatype ParseError =
    | NotDottedTri(normal: string)
    | BadPreRelease(preRelease: string)
    | BadMetadata(metadata: string)
    | BadNumber(part: string)

  /** An identifier character: ASCII letter, digit or hyphen. */
  predicate IsIdentChar(c: char)
  {
    IsDigit(c) || 'a' <= c <= 'z' || 'A' <= c <= 'Z' || c == '-'
  }

  /**
   * One identifier: non-empty, identifier characters only and, in a
   * pre-release, no leading zero when it is numeric.
   */
  predicate ValidIdent(id: string, preRelease: bool)
  {
    && |id| > 0
    && IdentChars(id)
    && (preRelease && AllDigits(id) ==> Canonical(id))
  }

  predicate IdentChars(s: string)
    decreases |s|
  {
    s == [] || (IsIdentChar(s[0]) && IdentChars(s[1..]))
  }

  /** Identifier characters include neither `+` nor `.`. */
  lemma {:induction false} IdentCharsExclude(s: string)
    requires IdentChars(s)
    ensures '+' !in s && '.' !in s
    decreases |s|
  {
    if s != [] {
      IdentCharsExclude(s[1..]);
      assert s == [s[0]] + s[1..];
    }
  }

  /** Dot-separated identifiers. */
  predicate Dotted(s: string, preRelease: bool)
    decreases |s|
  {
    var (head, tail) := Cut(s, '.');
    ValidIdent(head, preRelease) && (tail.Some? ==> Dotted(tail.value, preRelease))
  }

  predicate ValidPreRelease(s: string)
  {
    Dotted(s, true)
  }

  predicate ValidMetadata(s: string)
  {
    Dotted(s, false)
  }

  /** A number of the normal version: no leading zero, and it fits the library's int64. */
  predicate ValidNumber(s: string)
  {
    Canonical(s) && DecimalValue(s) <= MaxInt64
  }

  /**
   * `semver.NewVersion`: the build metadata is cut off at the first `+`, the
   * pre-release at the first `-` of what is left, and the rest is the
   * normal version.
   */
  function Parse(s: string): Result<Version, ParseError>
  {
    var (rest, metadata) := Cut(s, '+');
    var (normal, preRelease) := Cut(rest, '-');
    ParseNormal(normal, preRelease, metadata)
  }

  /** `strings.SplitN(normal, ".", 3)`, failing when there are fewer than three parts. */
  function ParseNormal(normal: string, preRelease: Option<string>, metadata: Option<string>): Result<Version, ParseError>
  {
    var (major, afterMajor) := Cut(normal, '.');
    if afterMajor.None? then Failure(NotDottedTri(normal))
    else
      var (minor, afterMinor) := Cut(afterMajor.value, '.');
      if afterMinor.None? then Failure(NotDottedTri(normal))
      else Validate(major, minor, afterMinor.value, preRelease, metadata)
  }

  /** The checks on the parts, in the library's order: pre-release, metadata, then the numbers. */
  function Validate(major: string, minor: string, patch: string,
                    preRelease: Option<string>, metadata: Option<string>): Result<Version, ParseError>
  {
    if preRelease.Some? && !ValidPreRelease(preRelease.value) then Failure(BadPreRelease(preRelease.value))
    else if metadata.Some? && !ValidMetadata(metadata.value) then Failure(BadMetadata(metadata.value))
    else if !ValidNumber(major) then Failure(BadNumber(major))
    else if !ValidNumber(minor) then Failure(BadNumber(minor))
    else if !ValidNumber(patch) then Failure(BadNumber(patch))
    else Success(Version(DecimalValue(major), DecimalValue(minor), DecimalValue(patch),
                         preRelease.GetOr(""), metadata.GetOr("")))
  }

  /** `err.Error()`; only the dotted-tri wording is fixed by the package's tests. */
  function ErrorMessage(e: ParseError): string
  {
    match e
    case NotDottedTri(normal) => normal + " is not in dotted-tri format"
    case BadPreRelease(p) => p + " is not a valid pre-release"
    case BadMetadata(m) => m + " is not valid build metadata"
    case BadNumber(p) => p + " is not a valid version number"
  }

  /** `M.m.p`, the version without pre-release and metadata. */
  function Short(v: Version): string
  {
    Itoa(v.major) + "." + Itoa(v.minor) + "." + Itoa(v.patch)
  }

  /** An optional part: the separator and the text, or nothing when the text is empty. */
  function Part(c: char, s: string): string
  {
    if s != "" then [c] + s else ""
  }

  /** An empty string as an absent part. */
  function Present(s: string): Option<string>
  {
    if s == "" then None else Some(s)
  }

  /** `Version.String()`: `M.m.p`, then `-PRE` and `+BUILD` when present. */
  function VersionString(v: Version): string
  {
    Short(v) + Part('-', v.preRelease) + Part('+', v.metadata)
  }

  /** The versions the grammar admits. */
  predicate WellFormed(v: Version)
  {
    && v.major <= MaxInt64 && v.minor <= MaxInt64 && v.patch <= MaxInt64
    && (v.preRelease != "" ==> ValidPreRelease(v.preRelease))
    && (v.metadata != "" ==> ValidMetadata(v.metadata))
  }

  /** A valid pre-release or metadata string is non-empty and holds no `+`. */
  lemma {:induction false} NoPlus(s: string, preRelease: bool)
    requires Dotted(s, preRelease)
    ensures '+' !in s && s != ""
    decreases |s|
  {
    var (head, tail) := Cut(s, '.');
    IdentCharsExclude(head);
    if tail.Some? {
      NoPlus(tail.value, preRelease);
      assert s == head + ['.'] + tail.value;
    }
  }

  /** `Itoa` of a value small enough for the library is a valid number that reads back to it. */
  lemma ItoaValid(n: nat)
    requires n <= MaxInt64
    ensures ValidNumber(Itoa(n)) && DecimalValue(Itoa(n)) == n
    ensures '.' !in Itoa(n) && '-' !in Itoa(n) && '+' !in Itoa(n)
  {
    DigitsExclude(Itoa(n), '.');
    DigitsExclude(Itoa(n), '-');
    DigitsExclude(Itoa(n), '+');
  }

  /** Validated parts are well formed and render back to themselves. */
  lemma ValidateSound(major: string, minor: string, patch: string,
                      preRelease: Option<string>, metadata: Option<string>)
    requires Validate(major, minor, patch, preRelease, metadata).Success?
    ensures WellFormed(Validate(major, minor, patch, preRelease, metadata).value)
    ensures Short(Validate(major, minor, patch, preRelease, metadata).value) == major + "." + minor + "." + patch
    ensures Part('-', Validate(major, minor, patch, preRelease, metadata).value.preRelease) == Rejoin('-', preRelease)
    ensures Part('+', Validate(major, minor, patch, preRelease, metadata).value.metadata) == Rejoin('+', metadata)
  {
    CanonicalRoundTrip(major);
    CanonicalRoundTrip(minor);
    CanonicalRoundTrip(patch);
    if preRelease.Some? {
      NoPlus(preRelease.value, true);
    }
    if metadata.Some? {
      NoPlus(metadata.value, false);
    }
  }

  /** The rendered parts of a well-formed version pass validation and give the version back. */
  lemma ValidateComplete(v: Version)
    requires WellFormed(v)
    ensures Validate(Itoa(v.major), Itoa(v.minor), Itoa(v.patch), Present(v.preRelease), Present(v.metadata))
      == Success(v)
  {
    ItoaValid(v.major);
    ItoaValid(v.minor);
    ItoaValid(v.patch);
  }

  /** Every parsed version is well formed and renders back to exactly the parsed text. */
  lemma ParseSound(s: string)
    requires Parse(s).Success?
    ensures WellFormed(Parse(s).value)
    ensures VersionString(Parse(s).value) == s
  {
    ParseRenders(s);
    var (rest, metadata) := Cut(s, '+');
    var (normal, preRelease) := Cut(rest, '-');
    var (major, afterMajor) := Cut(normal, '.');
    var (minor, afterMinor) := Cut(afterMajor.value, '.');
    ValidateSound(major, minor, afterMinor.value, preRelease, metadata);
  }

  /** A parsed version renders back to exactly the parsed text. */
  lemma ParseRenders(s: string)
    requires Parse(s).Success?
    ensures VersionString(Parse(s).value) == s
  {
    var (rest, metadata) := Cut(s, '+');
    var (normal, preRelease) := Cut(rest, '-');
    CutRejoin(s, '+');
    CutRejoin(rest, '-');
    var (major, afterMajor) := Cut(normal, '.');
    var (minor, afterMinor) := Cut(afterMajor.value, '.');
    var patch := afterMinor.value;
    DottedTriple(major, minor, patch);
    ValidateSound(major, minor, patch, preRelease, metadata);
  }

  /** Without pre-release and metadata a version renders as its short form. */
  lemma ShortRendering(v: Version)
    ensures VersionString(v.(preRelease := "", metadata := "")) == Short(v)
  {
    assert Part('-', "") == [] && Part('+', "") == [];
    assert Short(v) + [] + [] == Short(v);
  }

  /** A well-formed version renders as cut points: no `+` before the metadata, no `-` in `M.m.p`. */
  lemma RenderParts(v: Version)
    requires WellFormed(v)
    ensures VersionString(v) == Short(v) + Rejoin('-', Present(v.preRelease)) + Rejoin('+', Present(v.metadata))
    ensures '+' !in Short(v) + Rejoin('-', Present(v.preRelease))
    ensures '-' !in Short(v)
  {
    ItoaValid(v.major);
    ItoaValid(v.minor);
    ItoaValid(v.patch);
    if v.preRelease != "" {
      NoPlus(v.preRelease, true);
    }
  }

  /** Every well-formed version is read back from its own rendering. */
  lemma ParseComplete(v: Version)
    requires WellFormed(v)
    ensures Parse(VersionString(v)) == Success(v)
  {
    var maj, min, pat := Itoa(v.major), Itoa(v.minor), Itoa(v.patch);
    ItoaValid(v.major);
    ItoaValid(v.minor);
    var pre, meta := Present(v.preRelease), Present(v.metadata);
    RenderParts(v);
    RejoinCut(Short(v) + Rejoin('-', pre), '+', meta);
    RejoinCut(Short(v), '-', pre);
    DottedTriple(maj, min, pat);
    CutAt(maj, '.', min + ['.'] + pat);
    CutAt(min, '.', pat);
    ValidateComplete(v);
  }

  /** The keys of a successfully parsed version `v`. */
  predicate Describes(env: map<string, string>, v: Version)
  {
    && env.Keys == {SemverKey, MajorKey, MinorKey, PatchKey, ShortKey}
         + (if v.preRelease != "" then {PreReleaseKey} else {})
         + (if v.metadata != "" then {BuildKey} else {})
    && env[SemverKey] == VersionString(v)
    && env[MajorKey] == Itoa(v.major)
    && env[MinorKey] == Itoa(v.minor)
    && env[PatchKey] == Itoa(v.patch)
    && (v.preRelease != "" ==> env[PreReleaseKey] == v.preRelease)
    && (v.metadata != "" ==> env[BuildKey] == v.metadata)
    && env[ShortKey] == Short(v)
  }

  /**
   * What `versions` yields for a tag: on a parse failure only the error key;
   * otherwise the version (which is the tag without its `v`), its three
   * numbers in decimal, the pre-release and build metadata when present, and
   * the short `M.m.p` form.
   */
  ghost predicate DescribesVersion(env: map<string, string>, tag: string)
  {
    var s := TrimPrefix(tag, "v");
    match Parse(s)
    case Failure(e) => env == map[ErrorKey := ErrorMessage(e)]
    case Success(v) => Describes(env, v)
  }

  /** `versions`: the error alone when the tag does not parse, otherwise the version's keys. */
  method Versions(tag: string) returns (env: map<string, string>)
    ensures env.Keys <= VersionKeys
    ensures DescribesVersion(env, tag)
  {
    var s := TrimPrefix(tag, "v");
    var parsed := Parse(s);
    if parsed.Failure? {
      env := map[ErrorKey := ErrorMessage(parsed.error)];
      return;
    }
    env := VersionEntries(parsed.value);
  }

  /**
   * The success path of `versions`: fills the map key by key, then clears
   * the pre-release and metadata of its copy of the version to render the
   * short form.
   */
  method VersionEntries(v: Version) returns (env: map<string, string>)
    ensures env.Keys <= SuccessKeys
    ensures Describes(env, v)
  {
    var version := v;
    var full := VersionString(version);
    var major, minor, patch := Itoa(version.major), Itoa(version.minor), Itoa(version.patch);
    var preRelease, metadata := version.preRelease, version.metadata;
    version := version.(metadata := "", preRelease := "");
    ShortRendering(v);
    env := FillEntries(full, major, minor, patch, preRelease, metadata, VersionString(version));
  }

  /**
   * The assignments of `versions`, key by key: the pre-release and build
   * metadata keys only when those parts are non-empty.
   */
  method FillEntries(full: string, major: string, minor: string, patch: string,
                     preRelease: string, metadata: string, short: string) returns (env: map<string, string>)
    ensures env.Keys == {SemverKey, MajorKey, MinorKey, PatchKey, ShortKey}
      + (if preRelease != "" then {PreReleaseKey} else {})
      + (if metadata != "" then {BuildKey} else {})
    ensures env[SemverKey] == full && env[MajorKey] == major
    ensures env[MinorKey] == minor && env[PatchKey] == patch
    ensures preRelease != "" ==> env[PreReleaseKey] == preRelease
    ensures metadata != "" ==> env[BuildKey] == metadata
    ensures env[ShortKey] == short
  {
    SuccessKeysDistinct();
    env := map[];
    env := env[SemverKey := full];
    env := env[MajorKey := major];
    env := env[MinorKey := minor];
    env := env[PatchKey := patch];
    if preRelease != "" {
      env := env[PreReleaseKey := preRelease];
    }
    if metadata != "" {
      env := env[BuildKey := metadata];
    }
    env := env[ShortKey := short];
  }

  /** The full version key holds the tag without its leading `v`. */
  lemma SemverIsTag(env: map<string, string>, tag: string)
    requires DescribesVersion(env, tag) && SemverKey in env
    ensures env[SemverKey] == TrimPrefix(tag, "v")
  {
    ErrorAlone(env, tag);
    ParseRenders(TrimPrefix(tag, "v"));
  }

  /** The short form is a prefix of the full version. */
  lemma ShortIsPrefix(env: map<string, string>, tag: string)
    requires DescribesVersion(env, tag) && ShortKey in env
    ensures HasPrefix(env[SemverKey], env[ShortKey])
  {
    var s := TrimPrefix(tag, "v");
    ErrorAlone(env, tag);
    var v := Parse(s).value;
    ConcatAssoc(Short(v), Part('-', v.preRelease), Part('+', v.metadata));
    PrefixOfConcat(Short(v), Part('-', v.preRelease) + Part('+', v.metadata));
  }

  /** The error key appears exactly on a parse failure, and then alone. */
  lemma ErrorAlone(env: map<string, string>, tag: string)
    requires DescribesVersion(env, tag)
    ensures ErrorKey in env <==> Parse(TrimPrefix(tag, "v")).Failure?
    ensures ErrorKey in env ==> env.Keys == {ErrorKey}
  {
    var parsed := Parse(TrimPrefix(tag, "v"));
    if parsed.Success? {
      DescribesNoError(env, parsed.value);
    }
  }

  /** A described version has no error key. */
  lemma DescribesNoError(env: map<string, string>, v: Version)
    requires Describes(env, v)
    ensures ErrorKey !in env
  {
    ErrorKeyApart();
    assert env.Keys <= SuccessKeys;
  }

  /** A leading `v` makes no difference: `v1.2.3` and `1.2.3` give the same keys. */
  lemma LeadingVOptional(s: string)
    requires !HasPrefix(s, "v")
    ensures forall env :: DescribesVersion(env, "v" + s) <==> DescribesVersion(env, s)
  {
    PrefixOfConcat("v", s);
    assert TrimPrefix("v" + s, "v") == s == TrimPrefix(s, "v");
  }

  /** With both optional parts present, the described map holds exactly seven entries. */
  lemma DescribedFull(env: map<string, string>, v: Version)
    requires Describes(env, v)
    requires v.preRelease != "" && v.metadata != ""
    ensures env == map[
      SemverKey := VersionString(v), MajorKey := Itoa(v.major), MinorKey := Itoa(v.minor),
      PatchKey := Itoa(v.patch), ShortKey := Short(v), PreReleaseKey := v.preRelease,
      BuildKey := v.metadata]
  {
  }

  /** A text whose first dotted part is not a number is rejected with that part. */
  lemma ParseBadMajor(t: string, major: string, rest: string)
    requires '+' !in t && '-' !in t && '.' !in major && '.' in rest
    requires t == major + ['.'] + rest && !ValidNumber(major)
    ensures Parse(t) == Failure(BadNumber(major))
  {
    CutAt(major, '.', rest);
  }

  /** Only one `v` is stripped: `vv1.2.3` is a parse error. */
  lemma DoubleVRejected(env: map<string, string>, tag: string)
    requires tag == "vv1.2.3"
    requires DescribesVersion(env, tag)
    ensures env.Keys == {ErrorKey}
  {
    DoubleVParse(tag);
    ErrorAlone(env, tag);
  }

  lemma DoubleVParse(tag: string)
    requires tag == "vv1.2.3"
    ensures Parse(TrimPrefix(tag, "v")) == Failure(BadNumber("v1"))
  {
    var t := "v1.2.3";
    assert tag == "v" + t;
    PrefixOfConcat("v", t);
    assert !IsDigit("v1"[0]);
    ParseBadMajor(t, "v1", "2.3");
  }

  /** The identifiers of the canonical example are valid. */
  lemma CanonicalWellFormed(v: Version)
    requires v == Version(1, 2, 3, "alpha", "001")
    ensures WellFormed(v)
  {
    assert Cut(v.preRelease, '.') == ("alpha", None);
    assert Cut(v.metadata, '.') == ("001", None);
    assert !AllDigits(v.preRelease) by { assert !IsDigit(v.preRelease[0]); }
  }

  /** The canonical example renders as the tag without its `v`. */
  lemma CanonicalRendering(v: Version)
    requires v == Version(1, 2, 3, "alpha", "001")
    ensures Short(v) == "1.2.3"
    ensures VersionString(v) == "1.2.3-alpha+001"
  {
    assert Itoa(1) == "1" && Itoa(2) == "2" && Itoa(3) == "3";
  }

  /** The tag of TestSemver gives exactly the seven keys the test expects. */
  lemma CanonicalExample(env: map<string, string>, tag: string)
    requires tag == "v1.2.3-alpha+001"
    requires DescribesVersion(env, tag)
    ensures env == map[
      SemverKey := "1.2.3-alpha+001", MajorKey := "1", MinorKey := "2", PatchKey := "3",
      ShortKey := "1.2.3", PreReleaseKey := "alpha", BuildKey := "001"]
  {
    var v := Version(1, 2, 3, "alpha", "001");
    var s := "1.2.3-alpha+001";
    assert tag == "v" + s;
    PrefixOfConcat("v", s);
    CanonicalWellFormed(v);
    CanonicalRendering(v);
    ParseComplete(v);
    DescribedFull(env, v);
    assert Itoa(1) == "1" && Itoa(2) == "2" && Itoa(3) == "3";
  }

  /** The tag of TestBuild's tag ref gives the five keys of a plain version. */
  lemma PlainExample(env: map<string, string>, tag: string)
    requires tag == "v1.2.3"
    requires DescribesVersion(env, tag)
    ensures env == map[
      SemverKey := "1.2.3", MajorKey := "1", MinorKey := "2", PatchKey := "3", ShortKey := "1.2.3"]
  {
    var v := Version(1, 2, 3, "", "");
    var s := "1.2.3";
    assert tag == "v" + s;
    PrefixOfConcat("v", s);
    PlainRendering(v);
    ParseComplete(v);
    DescribedPlain(env, v);
  }

  lemma PlainRendering(v: Version)
    requires v == Version(1, 2, 3, "", "")
    ensures WellFormed(v)
    ensures Short(v) == "1.2.3" && VersionString(v) == "1.2.3"
  {
    assert Itoa(1) == "1" && Itoa(2) == "2" && Itoa(3) == "3";
  }

  /** Without pre-release and metadata the map has five keys. */
  lemma DescribedPlain(env: map<string, string>, v: Version)
    requires Describes(env, v) && v.preRelease == "" && v.metadata == ""
    ensures env == map[
      SemverKey := VersionString(v), MajorKey := Itoa(v.major), MinorKey := Itoa(v.minor),
      PatchKey := Itoa(v.patch), ShortKey := Short(v)]
  {
  }

  lemma InvalidParse()
    ensures !HasPrefix("this is an invalid version", "v")
    ensures Parse("this is an invalid version") == Failure(NotDottedTri("this is an invalid version"))
  {
    var s := "this is an invalid version";
    assert s[..1][0] == 't';
    assert '+' !in s && '-' !in s && '.' !in s;
  }

  /** The tag of TestInvalidSemver gives the dotted-tri error and nothing else. */
  lemma InvalidExample(env: map<string, string>, tag: string)
    requires tag == "this is an invalid version"
    requires DescribesVersion(env, tag)
    ensures env == map[ErrorKey := tag + " is not in dotted-tri format"]
  {
    InvalidParse();
  }
}
