/** The release plans built by `majorRelease`, `minorRelease` and
    `patchRelease` (release.js:75-148): the `release`, `workingOn` and `branch`
    strings, and the ordered list of shell commands. Each command is a value of
    `Command`; `Text` gives the exact string the script hands to the shell. */
module Plans {
  import opened Wrappers
  import opened Strings
  import opened Versions

  datatype Command =
    | CreateReleaseBranch(release: string)        // git checkout -b release-<release>
    | ChangelogWithLine(line: string, release: string) // major: heading for the line, then the release
    | ChangelogEntry(release: string)             // minor and patch: the release heading
    | Install                                     // npm install
    | Test                                        // npm test
    | Coverage                                    // npm run coverage
    | Docs                                        // npm run docs
    | CommitRelease(release: string)              // git commit -a -m "release <release>"
    | Checkout(branch: string)                    // git checkout <branch>
    | MergeRelease(release: string)               // git merge release-<release>
    | TagRelease(release: string)                 // git tag <release>
    | CreateBranch(branch: string)                // git branch <branch>
    | BumpVersion(kind: ReleaseType)              // npm --no-git-tag-version version <kind>
    | CommitWorkingOn(workingOn: string)          // git commit -a -m "working on <workingOn>"

  function KindName(kind: ReleaseType): string {
    match kind
    case Major => "major"
    case Minor => "minor"
    case Patch => "patch"
  }

  /** The command line as the script writes it; `\n` inside the `sed` scripts
      is a newline character and `${changes}` is left for the shell. */
  function Text(c: Command): string {
    match c
    case CreateReleaseBranch(r) => "git checkout -b release-" + r
    case ChangelogWithLine(b, r) =>
      "changes=`changelog-maker`; sed -i \"4i # " + (b + "\n\n## " + r + "\n${changes}\n\" CHANGES.md")
    case ChangelogEntry(r) => "changes=`changelog-maker`; sed -i \"6i ## " + (r + "\n${changes}\n\" CHANGES.md")
    case Install => "npm install"
    case Test => "npm test"
    case Coverage => "npm run coverage"
    case Docs => "npm run docs"
    case CommitRelease(r) => "git commit -a -m \"release " + (r + "\"")
    case Checkout(b) => "git checkout " + b
    case MergeRelease(r) => "git merge release-" + r
    case TagRelease(r) => "git tag " + r
    case CreateBranch(b) => "git branch " + b
    case BumpVersion(k) => "npm --no-git-tag-version version " + KindName(k)
    case CommitWorkingOn(w) => "git commit -a -m \"working on " + (w + "\"")
  }

  /** The list handed to `executeBatch`. */
  function Texts(cmds: seq<Command>): (texts: seq<string>)
    ensures |texts| == |cmds|
    ensures forall i :: 0 <= i < |cmds| ==> texts[i] == Text(cmds[i])
  {
    seq(|cmds|, i requires 0 <= i < |cmds| => Text(cmds[i]))
  }

  /** The module globals after a plan function has run, and its command list. */
  datatype Plan = Plan(release: string, workingOn: string, branch: string, commands: seq<Command>)

  /** `"v" + VERSION_MAJOR + ".x"`. */
  function MajorLineName(major: nat): string {
    "v" + Decimal(major) + ".x"
  }

  /** The list `majorRelease` hands to `executeBatch` (release.js:81-97). */
  function MajorCommands(release: string, workingOn: string, branch: string): seq<Command> {
    [ CreateReleaseBranch(release),
      ChangelogWithLine(branch, release),
      Install,
      CommitRelease(release),
      Checkout("master"),
      MergeRelease(release),
      TagRelease(release),
      CreateBranch(branch),
      BumpVersion(Major),
      CommitWorkingOn(workingOn) ]
  }

  /** The list `minorRelease` hands to `executeBatch` (release.js:106-122),
      with its two minor bumps. */
  function MinorCommandsAsWritten(release: string, workingOn: string, branch: string): seq<Command> {
    [ CreateReleaseBranch(release),
      BumpVersion(Minor),
      ChangelogEntry(release),
      Install,
      Test,
      Coverage,
      Docs,
      CommitRelease(release),
      Checkout(branch),
      MergeRelease(release),
      TagRelease(release),
      BumpVersion(Minor),
      CommitWorkingOn(workingOn) ]
  }

  /** The minor list with its second bump corrected to a patch bump, so that the
      package is at the version the working commit names. Only
      `CorrectedCommands` uses it. */
  function MinorCommands(release: string, workingOn: string, branch: string): seq<Command> {
    [ CreateReleaseBranch(release),
      BumpVersion(Minor),
      ChangelogEntry(release),
      Install,
      Test,
      Coverage,
      Docs,
      CommitRelease(release),
      Checkout(branch),
      MergeRelease(release),
      TagRelease(release),
      BumpVersion(Patch),
      CommitWorkingOn(workingOn) ]
  }

  /** The list `patchRelease` hands to `executeBatch` (release.js:131-146). */
  function PatchCommands(release: string, workingOn: string, branch: string): seq<Command> {
    [ CreateReleaseBranch(release),
      ChangelogEntry(release),
      Install,
      Test,
      Coverage,
      Docs,
      CommitRelease(release),
      Checkout(branch),
      MergeRelease(release),
      TagRelease(release),
      BumpVersion(Patch),
      CommitWorkingOn(workingOn) ]
  }

  /** The list the script builds for each release type. */
  function Commands(kind: ReleaseType, release: string, workingOn: string, branch: string): seq<Command> {
    match kind
    case Major => MajorCommands(release, workingOn, branch)
    case Minor => MinorCommandsAsWritten(release, workingOn, branch)
    case Patch => PatchCommands(release, workingOn, branch)
  }

  /** The same with the minor list corrected. */
  function CorrectedCommands(kind: ReleaseType, release: string, workingOn: string, branch: string): seq<Command> {
    if kind == Minor then MinorCommands(release, workingOn, branch) else Commands(kind, release, workingOn, branch)
  }

  /** The version strings `majorRelease`, `minorRelease` and `patchRelease`
      assign to `release` (release.js:77, 103, 128): the raw VERSION for major
      and patch releases, the rebuilt next minor for a minor release. */
  function ReleaseName(kind: ReleaseType, raw: string): string
    requires WellFormed(raw)
  {
    var v := Parse(raw);
    if kind == Minor then "v" + Decimal(v.major) + "." + Decimal(v.minor + 1) + ".0" else "v" + raw
  }

  /** The strings they assign to `workingOn` (release.js:78, 104, 129). */
  function WorkingOnName(kind: ReleaseType, raw: string): string
    requires WellFormed(raw)
  {
    var v := Parse(raw);
    match kind
    case Major => "v" + Decimal(v.major + 1) + ".0.0"
    case Minor => "v" + Decimal(v.major) + "." + Decimal(v.minor + 1) + ".1"
    case Patch => "v" + Decimal(v.major) + "." + Decimal(v.minor) + "." + Decimal(v.patch + 1)
  }

  /** `branch` when the list is built: `majorRelease` reassigns it to
      `v<M>.x` (release.js:79); the others keep the branch the script found. */
  function BranchName(kind: ReleaseType, raw: string, branch: string): string
    requires WellFormed(raw)
  {
    if kind == Major then MajorLineName(Parse(raw).major) else branch
  }

  /** What `majorRelease`, `minorRelease` and `patchRelease` compute before
      they call `executeBatch`. */
  function PlanFor(kind: ReleaseType, raw: string, branch: string): Plan
    requires WellFormed(raw)
  {
    var release := ReleaseName(kind, raw);
    var workingOn := WorkingOnName(kind, raw);
    var b := BranchName(kind, raw, branch);
    Plan(release, workingOn, b, Commands(kind, release, workingOn, b))
  }

  /** The same plan with the minor list corrected. */
  function CorrectedPlanFor(kind: ReleaseType, raw: string, branch: string): Plan
    requires WellFormed(raw)
  {
    var p := PlanFor(kind, raw, branch);
    p.(commands := CorrectedCommands(kind, p.release, p.workingOn, p.branch))
  }

  // ---------------------------------------------------------------------------
  // The versions a plan names

  /** The version a release is cut at. */
  function ReleaseVersion(kind: ReleaseType, v: Version): Version {
    if kind == Minor then Bump(Minor, v) else v
  }

  /** The version development continues under afterwards. */
  function WorkingVersion(kind: ReleaseType, v: Version): Version {
    match kind
    case Major => Bump(Major, v)
    case Minor => Bump(Patch, Bump(Minor, v))
    case Patch => Bump(Patch, v)
  }

  lemma MajorVersions(raw: string)
    requires WellFormed(raw)
    ensures ParseTag(ReleaseName(Major, raw)) == Some(Parse(raw))
    ensures ParseTag(WorkingOnName(Major, raw)) == Some(Bump(Major, Parse(raw)))
  {
    ParseTagOfRaw(raw);
    var v := Parse(raw);
    assert WorkingOnName(Major, raw) == Tag(Bump(Major, v));
    ParseTagOfTag(Bump(Major, v));
  }

  lemma MinorVersions(raw: string)
    requires WellFormed(raw)
    ensures ParseTag(ReleaseName(Minor, raw)) == Some(Bump(Minor, Parse(raw)))
    ensures ParseTag(WorkingOnName(Minor, raw)) == Some(Bump(Patch, Bump(Minor, Parse(raw))))
  {
    var v := Parse(raw);
    assert ReleaseName(Minor, raw) == Tag(Bump(Minor, v));
    ParseTagOfTag(Bump(Minor, v));
    assert WorkingOnName(Minor, raw) == Tag(Bump(Patch, Bump(Minor, v)));
    ParseTagOfTag(Bump(Patch, Bump(Minor, v)));
  }

  lemma PatchVersions(raw: string)
    requires WellFormed(raw)
    ensures ParseTag(ReleaseName(Patch, raw)) == Some(Parse(raw))
    ensures ParseTag(WorkingOnName(Patch, raw)) == Some(Bump(Patch, Parse(raw)))
  {
    ParseTagOfRaw(raw);
    var v := Parse(raw);
    assert WorkingOnName(Patch, raw) == Tag(Bump(Patch, v));
    ParseTagOfTag(Bump(Patch, v));
  }

  /** The release and working strings of every plan are the tags of the
      versions the release type calls for; the working version comes after the
      release, and no release is cut below the current version. */
  lemma PlanVersions(kind: ReleaseType, raw: string)
    requires WellFormed(raw)
    ensures ParseTag(ReleaseName(kind, raw)) == Some(ReleaseVersion(kind, Parse(raw)))
    ensures ParseTag(WorkingOnName(kind, raw)) == Some(WorkingVersion(kind, Parse(raw)))
    ensures Less(ReleaseVersion(kind, Parse(raw)), WorkingVersion(kind, Parse(raw)))
    ensures !Less(ReleaseVersion(kind, Parse(raw)), Parse(raw))
  {
    match kind
    case Major => MajorVersions(raw);
    case Minor => MinorVersions(raw);
    case Patch => PatchVersions(raw);
  }

  // ---------------------------------------------------------------------------
  // The shape every plan has

  /** A list opens the release branch first and makes the working commit last;
      somewhere between, it commits the release, checks out the target branch,
      merges the release branch into it and tags the merge, in that order and
      with nothing in between. */
  predicate Bracketed(c: seq<Command>, release: string, workingOn: string, target: string) {
    |c| >= 6
    && c[0] == CreateReleaseBranch(release)
    && c[|c| - 1] == CommitWorkingOn(workingOn)
    && exists m :: 2 <= m < |c| - 1 && MergesAt(c, m, release, target)
  }

  /** Command `m` merges the release branch, right after the release commit and
      the checkout of the target, and the tag follows at once. */
  predicate MergesAt(c: seq<Command>, m: int, release: string, target: string) {
    2 <= m < |c| - 1
    && c[m - 2] == CommitRelease(release)
    && c[m - 1] == Checkout(target)
    && c[m] == MergeRelease(release)
    && c[m + 1] == TagRelease(release)
  }

  /** The major list has the common shape, merges into `master`, bumps the
      major part just before the working commit, and has 10 commands. */
  lemma MajorShape(release: string, workingOn: string, branch: string)
    ensures Bracketed(MajorCommands(release, workingOn, branch), release, workingOn, "master")
    ensures |MajorCommands(release, workingOn, branch)| == 10
    ensures MajorCommands(release, workingOn, branch)[8] == BumpVersion(Major)
  {
    var c := MajorCommands(release, workingOn, branch);
    assert MergesAt(c, 5, release, "master");
  }

  /** The corrected minor list has the common shape, merges back into the
      branch it started from, bumps the patch part just before the working
      commit, and has 13 commands. */
  lemma MinorShape(release: string, workingOn: string, branch: string)
    ensures Bracketed(MinorCommands(release, workingOn, branch), release, workingOn, branch)
    ensures |MinorCommands(release, workingOn, branch)| == 13
    ensures MinorCommands(release, workingOn, branch)[11] == BumpVersion(Patch)
  {
    var c := MinorCommands(release, workingOn, branch);
    assert MergesAt(c, 9, release, branch);
  }

  /** The minor list as written has the same shape and length; it differs only
      in its next-to-last command. */
  lemma MinorAsWrittenShape(release: string, workingOn: string, branch: string)
    ensures Bracketed(MinorCommandsAsWritten(release, workingOn, branch), release, workingOn, branch)
    ensures |MinorCommandsAsWritten(release, workingOn, branch)| == 13
    ensures forall i :: 0 <= i < 13 && i != 11 ==>
              MinorCommandsAsWritten(release, workingOn, branch)[i] == MinorCommands(release, workingOn, branch)[i]
  {
    var c := MinorCommandsAsWritten(release, workingOn, branch);
    assert MergesAt(c, 9, release, branch);
  }

  /** The patch list has the common shape, merges back into the branch it
      started from, bumps the patch part just before the working commit, and has
      12 commands. */
  lemma PatchShape(release: string, workingOn: string, branch: string)
    ensures Bracketed(PatchCommands(release, workingOn, branch), release, workingOn, branch)
    ensures |PatchCommands(release, workingOn, branch)| == 12
    ensures PatchCommands(release, workingOn, branch)[10] == BumpVersion(Patch)
  {
    var c := PatchCommands(release, workingOn, branch);
    assert MergesAt(c, 8, release, branch);
  }

  /** A major release tags the current version, then opens `v<M>.x`, the branch
      its own changelog heading names, right after the tag and nowhere else. */
  lemma MajorPlanOpensLine(raw: string, branch: string)
    requires WellFormed(raw)
    ensures var p := PlanFor(Major, raw, branch);
            p.branch == MajorLineName(Parse(raw).major)
            && p.commands[1] == ChangelogWithLine(p.branch, p.release)
            && p.commands[4] == Checkout("master")
            && p.commands[6] == TagRelease(p.release)
            && p.commands[7] == CreateBranch(p.branch)
            && forall i :: 0 <= i < |p.commands| && p.commands[i].CreateBranch? ==> i == 7
  {
  }

  /** As written, the minor list runs `npm --no-git-tag-version version minor`
      exactly twice: second and next to last. */
  lemma MinorAsWrittenBumpsTwice(release: string, workingOn: string, branch: string)
    ensures var c := MinorCommandsAsWritten(release, workingOn, branch);
            |c| == 13 && forall i :: 0 <= i < 13 ==> (c[i] == BumpVersion(Minor) <==> i == 1 || i == 11)
  {
  }

  // ---------------------------------------------------------------------------
  // What the commits record

  /** The package version after `c` runs, when it was `pv` before: only
      `npm version` changes it. */
  function After(c: Command, pv: Version): Version {
    if c.BumpVersion? then Bump(c.kind, pv) else pv
  }

  /** A commit records the version it names, if the package is at `pv`. */
  predicate Records(c: Command, pv: Version) {
    match c
    case CommitRelease(r) => ParseTag(r) == Some(pv)
    case CommitWorkingOn(w) => ParseTag(w) == Some(pv)
    case _ => true
  }

  /** From command `i` on, started with the package at `pv`, every commit's
      message names the package version it commits. */
  predicate CommitsMatchPackage(cmds: seq<Command>, i: nat, pv: Version)
    decreases |cmds| - i
  {
    i >= |cmds| || (Records(cmds[i], pv) && CommitsMatchPackage(cmds, i + 1, After(cmds[i], pv)))
  }

  /** The package version at the end of the list. */
  function FinalVersion(cmds: seq<Command>, i: nat, pv: Version): Version
    decreases |cmds| - i
  {
    if i >= |cmds| then pv else FinalVersion(cmds, i + 1, After(cmds[i], pv))
  }

  /** A stretch of commands that bumps nothing and whose commits all name
      `pv` changes neither whether the commits match nor where the package
      ends up. */
  lemma {:induction false} Steady(cmds: seq<Command>, i: nat, j: nat, pv: Version)
    requires i <= j <= |cmds|
    requires forall k :: i <= k < j ==> !cmds[k].BumpVersion? && Records(cmds[k], pv)
    ensures CommitsMatchPackage(cmds, i, pv) == CommitsMatchPackage(cmds, j, pv)
    ensures FinalVersion(cmds, i, pv) == FinalVersion(cmds, j, pv)
    decreases j - i
  {
    if i < j {
      Steady(cmds, i + 1, j, pv);
    }
  }

  /** Whatever strings the major list is built from, if they name the current
      and the next major version, every commit names the package version at
      that point, and the list leaves the package at the next major. */
  lemma MajorMatchesPackage(release: string, workingOn: string, branch: string, v: Version)
    requires ParseTag(release) == Some(v)
    requires ParseTag(workingOn) == Some(Bump(Major, v))
    ensures CommitsMatchPackage(MajorCommands(release, workingOn, branch), 0, v)
    ensures FinalVersion(MajorCommands(release, workingOn, branch), 0, v) == Bump(Major, v)
  {
    var c := MajorCommands(release, workingOn, branch);
    var w := Bump(Major, v);
    assert FinalVersion(c, 10, w) == w && FinalVersion(c, 9, w) == w;
    assert After(c[8], v) == w;
    assert FinalVersion(c, 8, v) == FinalVersion(c, 9, After(c[8], v));
    assert CommitsMatchPackage(c, 8, v) && FinalVersion(c, 8, v) == w;
    Steady(c, 0, 8, v);
  }

  /** The same for the corrected minor list: the first bump makes the package
      the release version, the final patch bump the working version. */
  lemma MinorMatchesPackage(release: string, workingOn: string, branch: string, v: Version)
    requires ParseTag(release) == Some(Bump(Minor, v))
    requires ParseTag(workingOn) == Some(Bump(Patch, Bump(Minor, v)))
    ensures CommitsMatchPackage(MinorCommands(release, workingOn, branch), 0, v)
    ensures FinalVersion(MinorCommands(release, workingOn, branch), 0, v) == Bump(Patch, Bump(Minor, v))
  {
    var c := MinorCommands(release, workingOn, branch);
    var r := Bump(Minor, v);
    var w := Bump(Patch, r);
    assert FinalVersion(c, 13, w) == w && FinalVersion(c, 12, w) == w;
    assert After(c[11], r) == w;
    assert FinalVersion(c, 11, r) == FinalVersion(c, 12, After(c[11], r));
    assert CommitsMatchPackage(c, 11, r) && FinalVersion(c, 11, r) == w;
    Steady(c, 2, 11, r);
    assert FinalVersion(c, 0, v) == FinalVersion(c, 1, v) == FinalVersion(c, 2, r);
    assert CommitsMatchPackage(c, 0, v) == CommitsMatchPackage(c, 2, r);
    assert CommitsMatchPackage(c, 0, v) && FinalVersion(c, 0, v) == w;
  }

  /** The same for the patch list. */
  lemma PatchMatchesPackage(release: string, workingOn: string, branch: string, v: Version)
    requires ParseTag(release) == Some(v)
    requires ParseTag(workingOn) == Some(Bump(Patch, v))
    ensures CommitsMatchPackage(PatchCommands(release, workingOn, branch), 0, v)
    ensures FinalVersion(PatchCommands(release, workingOn, branch), 0, v) == Bump(Patch, v)
  {
    var c := PatchCommands(release, workingOn, branch);
    var w := Bump(Patch, v);
    assert FinalVersion(c, 12, w) == w && FinalVersion(c, 11, w) == w;
    assert After(c[10], v) == w;
    assert FinalVersion(c, 10, v) == FinalVersion(c, 11, After(c[10], v));
    assert CommitsMatchPackage(c, 10, v) && FinalVersion(c, 10, v) == w;
    Steady(c, 0, 10, v);
  }

  /** Every corrected plan: every commit names the version the package is at,
      and the plan leaves the package at the working version. */
  lemma PlanCommitsMatchPackage(kind: ReleaseType, raw: string, branch: string)
    requires WellFormed(raw)
    ensures CommitsMatchPackage(CorrectedPlanFor(kind, raw, branch).commands, 0, Parse(raw))
    ensures FinalVersion(CorrectedPlanFor(kind, raw, branch).commands, 0, Parse(raw)) == WorkingVersion(kind, Parse(raw))
  {
    var p := PlanFor(kind, raw, branch);
    PlanVersions(kind, raw);
    match kind
    case Major => MajorMatchesPackage(p.release, p.workingOn, p.branch, Parse(raw));
    case Minor => MinorMatchesPackage(p.release, p.workingOn, p.branch, Parse(raw));
    case Patch => PatchMatchesPackage(p.release, p.workingOn, p.branch, Parse(raw));
  }

  /** The minor list as written commits "working on vM.(N+1).1" while its second
      minor bump has moved the package to M.(N+2).0. */
  lemma MinorAsWrittenMisnamesWorkingVersion(release: string, workingOn: string, branch: string, v: Version)
    requires ParseTag(release) == Some(ReleaseVersion(Minor, v))
    requires ParseTag(workingOn) == Some(WorkingVersion(Minor, v))
    ensures !CommitsMatchPackage(MinorCommandsAsWritten(release, workingOn, branch), 0, v)
    ensures FinalVersion(MinorCommandsAsWritten(release, workingOn, branch), 0, v) == Version(v.major, v.minor + 2, 0)
  {
    var c := MinorCommandsAsWritten(release, workingOn, branch);
    var r := Bump(Minor, v);
    var w := Bump(Minor, r);
    assert WorkingVersion(Minor, v) != w;
    assert FinalVersion(c, 13, w) == w && FinalVersion(c, 12, w) == w;
    assert After(c[11], r) == w;
    assert FinalVersion(c, 11, r) == FinalVersion(c, 12, After(c[11], r));
    assert !CommitsMatchPackage(c, 11, r) && FinalVersion(c, 11, r) == w;
    Steady(c, 2, 11, r);
    assert FinalVersion(c, 0, v) == FinalVersion(c, 1, v) == FinalVersion(c, 2, r);
    assert CommitsMatchPackage(c, 0, v) == CommitsMatchPackage(c, 2, r);
    assert !CommitsMatchPackage(c, 0, v) && FinalVersion(c, 0, v) == w;
  }

  /** The plans as the script builds them: the commits match the package
      version exactly for major and patch releases; for every VERSION, the
      minor plan has a commit that names a version the package is not at. */
  lemma AsWrittenCommitsMatchPackage(kind: ReleaseType, raw: string, branch: string)
    requires WellFormed(raw)
    ensures CommitsMatchPackage(PlanFor(kind, raw, branch).commands, 0, Parse(raw)) <==> kind != Minor
  {
    var p := PlanFor(kind, raw, branch);
    PlanVersions(kind, raw);
    if kind == Minor {
      MinorAsWrittenMisnamesWorkingVersion(p.release, p.workingOn, p.branch, Parse(raw));
    } else {
      PlanCommitsMatchPackage(kind, raw, branch);
      assert CorrectedPlanFor(kind, raw, branch) == p;
    }
  }

  // ---------------------------------------------------------------------------
  // The strings the script hands to the shell

  /** Every command that is not an `npm` call starts with `git` or
      `changes=`. */
  lemma NotNpmText(c: Command)
    requires !(c.Install? || c.Test? || c.Coverage? || c.Docs? || c.BumpVersion?)
    ensures Text(c)[0] != 'n'
  {
    match c
    case CreateReleaseBranch(r) => assert Text(c)[0] == 'g';
    case ChangelogWithLine(b, r) => assert Text(c)[0] == 'c';
    case ChangelogEntry(r) => assert Text(c)[0] == 'c';
    case CommitRelease(r) => assert Text(c)[0] == 'g';
    case Checkout(b) => assert Text(c)[0] == 'g';
    case MergeRelease(r) => assert Text(c)[0] == 'g';
    case TagRelease(r) => assert Text(c)[0] == 'g';
    case CreateBranch(b) => assert Text(c)[0] == 'g';
    case CommitWorkingOn(w) => assert Text(c)[0] == 'g';
  }

  /** A command renders to the text of `npm --no-git-tag-version version <kind>`
      exactly when it is that bump. */
  lemma BumpTextOnly(c: Command, kind: ReleaseType)
    ensures Text(c) == Text(BumpVersion(kind)) <==> c == BumpVersion(kind)
  {
    var t := Text(BumpVersion(kind));
    var n := |"npm --no-git-tag-version version "|;
    assert |t| == n + 5 && t[0] == 'n';
    if c.BumpVersion? && c.kind != kind {
      assert Text(c)[n] != t[n] || Text(c)[n + 1] != t[n + 1];
    } else if c.Install? || c.Test? || c.Coverage? || c.Docs? {
      assert |Text(c)| < n;
    } else if !c.BumpVersion? {
      NotNpmText(c);
    }
  }

  /** The string list the script prints or runs holds a bump's text exactly
      where the command list holds that bump. */
  lemma BumpTexts(cmds: seq<Command>, kind: ReleaseType)
    ensures forall i :: 0 <= i < |cmds| ==>
              (Texts(cmds)[i] == Text(BumpVersion(kind)) <==> cmds[i] == BumpVersion(kind))
  {
    forall i | 0 <= i < |cmds|
      ensures Texts(cmds)[i] == Text(BumpVersion(kind)) <==> cmds[i] == BumpVersion(kind)
    {
      BumpTextOnly(cmds[i], kind);
    }
  }

  /** The minor release as the script prints or runs it:
      `npm --no-git-tag-version version minor` is command 1 and command 11,
      and no other; the corrected list has the patch bump as command 11. */
  lemma MinorTextsBumpTwice(raw: string, branch: string)
    requires WellFormed(raw)
    ensures var t := Texts(PlanFor(Minor, raw, branch).commands);
            |t| == 13
            && forall i :: 0 <= i < 13 ==> (t[i] == "npm --no-git-tag-version version minor" <==> i == 1 || i == 11)
    ensures var t := Texts(CorrectedPlanFor(Minor, raw, branch).commands);
            |t| == 13 && t[11] == "npm --no-git-tag-version version patch"
  {
    var p := PlanFor(Minor, raw, branch);
    MinorAsWrittenBumpsTwice(p.release, p.workingOn, p.branch);
    BumpTexts(p.commands, Minor);
    assert Text(BumpVersion(Minor)) == "npm --no-git-tag-version version minor";
    var q := CorrectedPlanFor(Minor, raw, branch);
    assert q.commands == MinorCommands(p.release, p.workingOn, p.branch);
    assert q.commands[11] == BumpVersion(Patch);
  }
}
