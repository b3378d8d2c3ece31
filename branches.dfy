/** What the script reads from `git branch` (release.js:8 and 38) and the
    major-line branch rule `/v[0-9].x/` (release.js:9). */
module Branches {
  import opened Wrappers
  import opened Strings

  /** The characters at which the multiline `^` and `$` anchor and which `.`
      does not match. */
  const LineTerminators: set<char> := {'\n', '\r', '\U{2028}', '\U{2029}'}

  /** The lines of a listing, as the multiline regex sees them. */
  function Lines(listing: string): (lines: seq<string>)
    ensures |lines| >= 1
    ensures forall k :: 0 <= k < |lines| ==> Free(lines[k], LineTerminators)
  {
    Split(listing, LineTerminators)
  }

  /** A line that `/^\* (.)+$/m` matches: `* ` and at least one more character. */
  predicate IsCurrentLine(line: string) {
    |line| >= 3 && line[0] == '*' && line[1] == ' '
  }

  /** The index of the first current-branch line at or after `from`. */
  function FirstCurrent(lines: seq<string>, from: nat): (r: Option<nat>)
    ensures r.Some? ==> from <= r.value < |lines| && IsCurrentLine(lines[r.value])
    ensures r.Some? ==> forall j :: from <= j < r.value ==> !IsCurrentLine(lines[j])
    ensures r.None? ==> forall j :: from <= j < |lines| ==> !IsCurrentLine(lines[j])
    decreases |lines| - from
  {
    if from >= |lines| then None
    else if IsCurrentLine(lines[from]) then Some(from)
    else FirstCurrent(lines, from + 1)
  }

  /** The first space-separated word of `s`: the longest prefix without a
      space, ended by the first space or by the end of `s`. */
  function FirstWord(s: string): (w: string)
    ensures Free(w, {' '})
    ensures |w| <= |s| && w == s[..|w|]
    ensures |w| < |s| ==> s[|w|] == ' '
  {
    SplitFirst(s, {' '});
    Split(s, {' '})[0]
  }

  /** The second piece of `line.split(' ')` for a line that starts with `* `
      is the first word after the marker. */
  lemma SecondPiece(line: string)
    requires |line| >= 2 && line[0] == '*' && line[1] == ' '
    ensures |Split(line, {' '})| >= 2 && Split(line, {' '})[1] == FirstWord(line[2..])
  {
    assert line == "*" + [' '] + line[2..];
    SplitAt("*", ' ', line[2..], {' '});
  }

  /** `gitBranchOutput.match(currentBranchPattern)[0].split(' ')[1]`, with
      `None` where `match` finds nothing and the script dies on `null[0]`.
      The branch is the word after `* ` on the first line marked current. */
  function CurrentBranch(listing: string): (r: Option<string>)
    ensures r.Some? <==> exists i :: 0 <= i < |Lines(listing)| && IsCurrentLine(Lines(listing)[i])
    ensures r.Some? ==> exists i :: 0 <= i < |Lines(listing)| && IsCurrentLine(Lines(listing)[i])
                                  && (forall j :: 0 <= j < i ==> !IsCurrentLine(Lines(listing)[j]))
                                  && r.value == FirstWord(Lines(listing)[i][2..])
    ensures r.Some? ==> Free(r.value, {' '}) && Free(r.value, LineTerminators)
  {
    var lines := Lines(listing);
    match FirstCurrent(lines, 0)
    case None => None
    case Some(i) =>
      SecondPiece(lines[i]);
      var w := Split(lines[i], {' '})[1];
      assert forall k :: 0 <= k < |w| ==> w[k] in lines[i][2..] && w[k] in lines[i];
      Some(w)
  }

  // ---------------------------------------------------------------------------
  // The listing `git branch` prints

  /** One line of `git branch`: `* ` before the checked-out branch, two spaces
      before the others. */
  function ListingLine(name: string, current: bool): string {
    (if current then "* " else "  ") + name
  }

  function ListingLines(names: seq<string>, cur: nat): (lines: seq<string>)
    ensures |lines| == |names|
  {
    seq(|names|, i requires 0 <= i < |names| => ListingLine(names[i], i == cur))
  }

  /** The whole output, one line per branch, each ended by a newline. */
  function Listing(names: seq<string>, cur: nat): string {
    Join(ListingLines(names, cur) + [""], '\n')
  }

  /** A branch name `git branch` can print on one line as one word. */
  predicate PlainName(name: string) {
    |name| >= 1 && Free(name, {' '}) && Free(name, LineTerminators)
  }

  /** Reading the listing of a set of branches gives back the checked-out one. */
  lemma CurrentBranchOfListing(names: seq<string>, cur: nat)
    requires cur < |names|
    requires forall k :: 0 <= k < |names| ==> PlainName(names[k])
    ensures CurrentBranch(Listing(names, cur)) == Some(names[cur])
  {
    var lines := ListingLines(names, cur) + [""];
    forall k | 0 <= k < |lines|
      ensures Free(lines[k], LineTerminators)
    {
      if k < |names| {
        FreeConcat(if k == cur then "* " else "  ", names[k], LineTerminators);
      }
    }
    SplitJoin(lines, '\n', LineTerminators);
    assert Lines(Listing(names, cur)) == lines;
    assert IsCurrentLine(lines[cur]);
    assert forall j :: 0 <= j < |lines| && j != cur ==> !IsCurrentLine(lines[j]);
    var line := lines[cur];
    assert line[2..] == names[cur];
    SplitFree(names[cur], {' '});
  }

  // ---------------------------------------------------------------------------
  // The major-line branch rule

  /** `v[0-9].x` matches at position `i` of `s`. */
  predicate MajorLineAt(s: string, i: nat)
    requires i + 4 <= |s|
  {
    s[i] == 'v' && IsDigit(s[i + 1]) && s[i + 2] !in LineTerminators && s[i + 3] == 'x'
  }

  /** `majorBranchPattern.test(branch)`: the unanchored pattern matches
      somewhere in the branch name. */
  function ContainsMajorLine(s: string): (r: bool)
    ensures r <==> exists i: nat :: i + 4 <= |s| && MajorLineAt(s, i)
    decreases |s|
  {
    if |s| < 4 then false
    else if MajorLineAt(s, 0) then true
    else
      var r := ContainsMajorLine(s[1..]);
      assert forall i: nat :: 1 <= i && i + 4 <= |s| ==> (MajorLineAt(s, i) <==> MajorLineAt(s[1..], i - 1));
      assert r ==> exists i: nat :: i + 4 <= |s| && MajorLineAt(s, i) by {
        if r {
          var i: nat :| i + 4 <= |s[1..]| && MajorLineAt(s[1..], i);
          assert MajorLineAt(s, i + 1);
        }
      }
      r
  }

  /** The branch `v<M>.x` that a major release creates passes the rule exactly
      when M has a single digit: from `v10.x` on, minor and patch releases are
      refused on the branches this tool itself creates. */
  lemma MajorLineBranchAccepted(m: nat)
    ensures ContainsMajorLine("v" + Decimal(m) + ".x") <==> m < 10
  {
    var d := Decimal(m);
    var s := "v" + d + ".x";
    if m < 10 {
      assert MajorLineAt(s, 0);
    } else {
      assert |d| >= 2;
      forall i: nat | i + 4 <= |s|
        ensures !MajorLineAt(s, i)
      {
        if i == 0 {
          assert s[3] == (if |d| == 2 then '.' else d[2]);
        } else {
          assert s[i] == (if i <= |d| then d[i - 1] else if i == |d| + 1 then '.' else 'x');
        }
      }
    }
  }

  /** A name without a `v` never passes the rule (`master`, `feature-x`). */
  lemma WithoutVRefused(s: string)
    requires 'v' !in s
    ensures !ContainsMajorLine(s)
  {
    forall i: nat | i + 4 <= |s|
      ensures !MajorLineAt(s, i)
    {
      assert s[i] in s;
    }
  }

  /** The unanchored pattern and its wildcard `.` let `v2-x` and `feat-v3.x`
      through as well as `v2.x`. */
  lemma MajorLineAccepts()
    ensures ContainsMajorLine("v2.x") && ContainsMajorLine("v2-x") && ContainsMajorLine("feat-v3.x")
  {
    assert MajorLineAt("v2.x", 0);
    assert MajorLineAt("v2-x", 0);
    assert MajorLineAt("feat-v3.x", 5);
  }

  /** `master` and `feature-x` are refused, and so is `v10.x`: only one digit
      may follow the `v`. */
  lemma MajorLineRefuses()
    ensures !ContainsMajorLine("master") && !ContainsMajorLine("feature-x") && !ContainsMajorLine("v10.x")
  {
    WithoutVRefused("master");
    WithoutVRefused("feature-x");
    MajorLineBranchAccepted(10);
    assert Decimal(10) == "10";
    assert "v" + Decimal(10) + ".x" == "v10.x";
  }
}
