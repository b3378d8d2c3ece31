/** The package version as the script reads it (`VERSION`, split on `.` and
    each part read with `parseInt`), the `v<major>.<minor>.<patch>` tags it
    writes, and the version bumps of Semantic Versioning 2.0.0 items 6 to 8,
    which is also what `npm version major|minor|patch` applies to a version
    without a pre-release part. */
module Versions {
  import opened Wrappers
  import opened Strings

  datatype Version = Version(major: nat, minor: nat, patch: nat)

  datatype ReleaseType = Major | Minor | Patch

  /** `digits.digits.digits`: the shape of VERSION the script relies on. */
  predicate WellFormed(raw: string) {
    var parts := Split(raw, {'.'});
    |parts| == 3 && forall k :: 0 <= k < 3 ==> |parts[k]| >= 1 && AllDigits(parts[k])
  }

  /** VERSION_MAJOR, VERSION_MINOR and VERSION_PATCH. */
  function Parse(raw: string): Version
    requires WellFormed(raw)
  {
    var parts := Split(raw, {'.'});
    Version(Value(parts[0]), Value(parts[1]), Value(parts[2]))
  }

  /** The dotted decimal form `M.N.P`. */
  function Render(v: Version): string {
    Decimal(v.major) + "." + Decimal(v.minor) + "." + Decimal(v.patch)
  }

  /** The tag form `vM.N.P`. */
  function Tag(v: Version): string {
    "v" + Render(v)
  }

  /** The version a tag `v<VERSION>` names, if it has that shape. */
  function ParseTag(t: string): (r: Option<Version>)
  {
    if |t| >= 1 && t[0] == 'v' && WellFormed(t[1..]) then Some(Parse(t[1..])) else None
  }

  /** Reading a rendered version gives the version back. */
  lemma ParseRender(v: Version)
    ensures WellFormed(Render(v)) && Parse(Render(v)) == v
  {
    var parts := [Decimal(v.major), Decimal(v.minor), Decimal(v.patch)];
    assert Join(parts[2..], '.') == Decimal(v.patch);
    assert Join(parts[1..], '.') == Decimal(v.minor) + "." + Decimal(v.patch);
    assert Join(parts, '.') == Render(v);
    SplitJoin(parts, '.', {'.'});
    ValueOfDecimal(v.major);
    ValueOfDecimal(v.minor);
    ValueOfDecimal(v.patch);
  }

  /** Rendering a parsed VERSION gives back the string itself when none of its
      parts has a leading zero (`01.2.3` is read as 1.2.3 and rendered `1.2.3`). */
  lemma RenderParse(raw: string)
    requires WellFormed(raw)
    requires forall k :: 0 <= k < 3 ==> Canonical(Split(raw, {'.'})[k])
    ensures Render(Parse(raw)) == raw
  {
    var parts := Split(raw, {'.'});
    JoinSplit(raw, '.');
    DecimalOfValue(parts[0]);
    DecimalOfValue(parts[1]);
    DecimalOfValue(parts[2]);
    assert Join(parts[2..], '.') == parts[2];
    assert Join(parts[1..], '.') == parts[1] + "." + parts[2];
  }

  /** Reading a tag gives back the version it was made from. */
  lemma ParseTagOfTag(v: Version)
    ensures ParseTag(Tag(v)) == Some(v)
  {
    ParseRender(v);
    assert Tag(v)[1..] == Render(v);
  }

  /** `"v" + VERSION` names the version VERSION is read as. */
  lemma ParseTagOfRaw(raw: string)
    requires WellFormed(raw)
    ensures ParseTag("v" + raw) == Some(Parse(raw))
  {
    assert ("v" + raw)[1..] == raw;
  }

  /** Semantic Versioning items 6 to 8, and `npm version <kind>`: increment one
      part and reset the parts to its right. */
  function Bump(kind: ReleaseType, v: Version): Version {
    match kind
    case Major => Version(v.major + 1, 0, 0)
    case Minor => Version(v.major, v.minor + 1, 0)
    case Patch => Version(v.major, v.minor, v.patch + 1)
  }

  /** Precedence of release versions (Semantic Versioning item 11). */
  predicate Less(a: Version, b: Version) {
    a.major < b.major
    || (a.major == b.major && a.minor < b.minor)
    || (a.major == b.major && a.minor == b.minor && a.patch < b.patch)
  }

  /** Every bump moves to a version of higher precedence. */
  lemma BumpIncreases(kind: ReleaseType, v: Version)
    ensures Less(v, Bump(kind, v))
  {
  }
}
