# release-helper in Dafny

A model of `release.js`, a Node script that cuts a release of an npm package.
It reads the package version and the current git branch. It checks the branch
against the requested release type (`major`, `minor`, `patch`, or none,
meaning `patch`) and builds the list of shell commands for that type. Then it
either prints the list (`--output-only`) or runs it command by command,
stopping at the first failure.

Modules, one per concern of the script:

- `Wrappers`: `Option`.
- `Strings`: `String.prototype.split` on separator characters and its inverse `Join`, decimal rendering (`String(n)`), and digit reading (`parseInt` on digit strings), with round-trip lemmas.
- `Versions`: VERSION read as `M.N.P`, the `vM.N.P` tags, and the bumps `npm version major|minor|patch` applies (Semantic Versioning 2.0.0, items 6 to 8). Released versions are ordered by item 11.
- `Branches`: the current branch read from the `git branch` listing with `/^\* (.)+$/gm` and `split(' ')[1]`, and the major-line rule `/v[0-9].x/`.
- `Plans`: the three release plans. Each plan is the `release`, `workingOn` and `branch` strings plus a list of typed commands. `Text` renders a command to the exact string the script builds. Lemmas cover the names and versions of each plan, the order of its commands, and what each commit records.
- `Batch`: `executeBatch`, as a method with a loop, proved against `FirstFailure` and `LiveLog`.
- `Orchestrator`: the `switch` in the `git branch` callback (`Decide`), its effects (`Respond`), and one whole run of the script (`Run`).

The script's surroundings become parameters:

- the package version string;
- `argv[2]` and `argv[3]`;
- the output of `git branch`, or `None` if it failed;
- the shell, as a total function `run(k, command)` giving the exit status and standard output of the k-th command of the batch. A command that appears twice (the two `npm version` calls of the minor plan) may answer differently each time.

`Run` returns the lines logged to the console, the commands handed to the shell and the exit status.

The exit status is the one the code produces, even where the tool's documented intent (every validation failure exits non-zero) differs:

- An unknown release type is logged through `logError`, but the `default` case never calls `process.exit`. The process therefore exits 0.
- An exception exits with 1. Two things throw one: a listing with no current-branch line (`null[0]`), and a failing command (`execSync`).

## Model

| member | source | states |
|---|---|---|
| Versions.Parse | release.js:20-24 | VERSION_MAJOR, VERSION_MINOR and VERSION_PATCH: the three `.`-separated parts read as numbers; `ParseRender` and `RenderParse` make it the inverse of `Render` |
| Strings.Split | release.js:20 | `split` gives at least one piece; no piece holds a separator; every character of a piece comes from the input |
| Strings.SplitJoin | release.js:20 | splitting a join of separator-free pieces gives the pieces back |
| Strings.JoinSplit | release.js:20 | joining the pieces of a split with the same separator gives the string back |
| Strings.SplitAt | release.js:38 | the text before the first separator is the first piece, and the rest splits independently |
| Strings.Decimal | release.js:78 | `String(n)` is a canonical numeral (no leading zero) with no `.` and no space |
| Strings.ValueOfDecimal | release.js:22-24 | `parseInt` of `String(n)` is `n` |
| Strings.DecimalOfValue | release.js:22-24 | `String` of `parseInt(s)` is `s` for a canonical numeral `s` |
| Versions.ParseRender | release.js:19-24 | splitting `M.N.P` on `.` and reading each part gives the version back |
| Versions.RenderParse | release.js:19-24 | a VERSION without leading zeros is rebuilt exactly from its three parts |
| Versions.ParseTagOfTag | release.js:77-78 | the tag `vM.N.P` names version M.N.P |
| Versions.ParseTagOfRaw | release.js:128 | `"v" + VERSION` names the version VERSION is read as |
| Versions.BumpIncreases | release.js:144 | each `npm version` bump moves to a version of higher precedence |
| Branches.Lines | release.js:8 | the lines the multiline anchors see hold no line terminator |
| Branches.IsCurrentLine | release.js:8 | a line `^\* (.)+$` matches on its own: `* ` and at least one more character; `FirstCurrent` and `CurrentBranch` state where it is used |
| Branches.FirstCurrent | release.js:38 | the first line matching `^\* (.)+$`, or none; no earlier line matches |
| Strings.SplitFirst | release.js:38 | the first piece of a split is the longest prefix of the string without a separator |
| Branches.FirstWord | release.js:38 | the first space-separated word is the prefix of the string up to its first space, or all of it if there is none, and holds no space |
| Branches.SecondPiece | release.js:38 | piece 1 of `line.split(' ')` for a `* ` line is the first word after the marker |
| Branches.CurrentBranch | release.js:38 | a branch is found iff some line is marked current; it is the first word after `* ` on the first such line, with no space or line terminator |
| Branches.CurrentBranchOfListing | release.js:38 | reading the listing `git branch` prints for a set of one-word branch names gives back the checked-out name |
| Branches.ContainsMajorLine | release.js:50 | the unanchored test holds iff some position has `v`, a digit, any non-terminator character (one Unicode scalar value) and `x` |
| Branches.MajorLineBranchAccepted | release.js:9 | `v<M>.x` passes the rule iff M < 10 |
| Branches.WithoutVRefused | release.js:9 | a name without `v` never passes |
| Branches.MajorLineAccepts | release.js:9 | `v2.x`, `v2-x` and `feat-v3.x` pass |
| Branches.MajorLineRefuses | release.js:9 | `master`, `feature-x` and `v10.x` are refused |
| Plans.Text | release.js:82-145 | the command string the script writes for each kind of command; `BumpTextOnly` shows the `npm ... version <kind>` string comes from that bump alone |
| Plans.MajorCommands | release.js:81-97 | the list `majorRelease` builds; its shape and version effects are stated by `MajorShape`, `MajorPlanOpensLine` and `MajorMatchesPackage` |
| Plans.MinorCommandsAsWritten | release.js:106-122 | the list `minorRelease` builds; its properties are stated by `MinorAsWrittenShape`, `MinorAsWrittenBumpsTwice` and `MinorAsWrittenMisnamesWorkingVersion` |
| Plans.PatchCommands | release.js:131-146 | the list `patchRelease` builds; its properties are stated by `PatchShape` and `PatchMatchesPackage` |
| Plans.ReleaseName | release.js:77-128 | the `release` string of each plan; `PlanVersions` states the version it names |
| Plans.WorkingOnName | release.js:78-129 | the `workingOn` string of each plan; `PlanVersions` states the version it names |
| Plans.BranchName | release.js:79 | `branch` becomes `v<M>.x` for a major release and stays the current branch otherwise; `MajorPlanOpensLine` states its use |
| Plans.Commands | release.js:40-64 | the list the `switch` hands to `executeBatch` for each type through `majorRelease`, `minorRelease` and `patchRelease`, the minor one as written; `DecideGate` and `PlanFor` carry it to the run |
| Plans.PlanFor | release.js:75-148 | the plan the script builds for each type, with the minor list as written; `PlanVersions`, the shape lemmas and `AsWrittenCommitsMatchPackage` state its properties |
| Plans.BumpTextOnly | release.js:95 | a command's string equals `npm --no-git-tag-version version <kind>` iff the command is that bump |
| Plans.BumpTexts | release.js:150-151 | the string list handed to `executeBatch` holds a bump's string exactly where the command list holds that bump |
| Plans.MinorTextsBumpTwice | release.js:106-122 | in the strings the script prints or runs for a minor release, `npm --no-git-tag-version version minor` is command 1 and command 11 and no other; the corrected plan has `... version patch` as command 11 |
| Plans.Steady | release.js:81-146 | a stretch of commands that bumps nothing and whose commits name the package version changes neither what the commits record nor the final version |
| Plans.MajorVersions | release.js:77-78 | the major release names the current version; the working name is the next major |
| Plans.MinorVersions | release.js:103-104 | the minor release names the next minor; the working name is its first patch |
| Plans.PatchVersions | release.js:128-129 | the patch release names the current version; the working name is the next patch |
| Plans.PlanVersions | release.js:75-148 | every plan's release and working strings are tags of the versions its type calls for; the working version comes after the release; no release is below the current version |
| Plans.MajorShape | release.js:81-97 | 10 commands: open the release branch first, make the working commit last, commit, check out `master`, merge and tag in a row, and bump the major just before the last |
| Plans.MinorShape | release.js:106-122 | the corrected minor list (`CorrectedPlanFor`): 13 commands of the same shape, merged back into the branch it started on, with a patch bump second to last |
| Plans.MinorAsWrittenShape | release.js:106-122 | the minor list as written has the same shape and length and differs from the corrected one only at index 11 |
| Plans.PatchShape | release.js:131-146 | 12 commands of the same shape, merged back into the starting branch, with a patch bump second to last |
| Plans.MajorPlanOpensLine | release.js:79-92 | a major plan reassigns `branch` to `v<M>.x`; its changelog heading names that line; it creates that branch right after the tag, and no other branch |
| Plans.MinorAsWrittenBumpsTwice | release.js:106-122 | as written, the minor list runs `npm version minor` exactly at positions 1 and 11 |
| Plans.MajorMatchesPackage | release.js:81-97 | each commit of the major list names the package version it commits; the list leaves the package at the next major |
| Plans.MinorMatchesPackage | release.js:106-122 | the same for the corrected minor list |
| Plans.PatchMatchesPackage | release.js:131-146 | the same for the patch list |
| Plans.PlanCommitsMatchPackage | release.js:75-148 | in every corrected plan (`CorrectedPlanFor`), each commit names the version the package is at, and the plan ends at the working version |
| Plans.AsWrittenCommitsMatchPackage | release.js:75-148 | in the plans as the script builds them, every commit names the package version exactly for major and patch releases; the minor plan misnames it for every VERSION |
| Plans.MinorAsWrittenMisnamesWorkingVersion | release.js:104-121 | as written, the minor list ends with the package at M.(N+2).0, and its working commit names a version the package is not at |
| Batch.BuildingLine | release.js:155 | the line logged before each command in live mode; `ExecuteBatch` and `LiveLog` state where it is logged |
| Batch.CompletionLine | release.js:162 | the completion line; `ExecuteBatch` states when it is logged |
| Batch.FirstFailure | release.js:151-158 | the first command whose run fails; every earlier one succeeded; if none, all succeed |
| Batch.LiveLog | release.js:155-158 | in live mode each command logs the building line, then its output |
| Batch.ExecuteBatch | release.js:150-163 | output-only: logs every command and then the completion line, and runs nothing. Live: runs commands in order up to and including the first failure, logging no completion line if one fails; if none fails, runs all and logs the completion line last |
| Batch.FirstFailureIs | release.js:151-158 | a failing command whose predecessors all succeeded is the first failure |
| Orchestrator.ReleaseTypeOf | release.js:40-66 | `major`, `minor` and `patch` select their own type; a missing argument selects `patch`; any other string selects none |
| Orchestrator.BranchAllowed | release.js:42-59 | `master` for a major release, a branch containing a major line for the others; `DecideGate` states that a release goes ahead exactly when it holds |
| Orchestrator.RefusalMessage | release.js:43-60 | the message of each case's refusal; `DecideGate` states that a refusal carries it |
| Orchestrator.InvalidTypeMessage | release.js:67 | the `default` case's message, with the double space after the first sentence; `DecideGate` states that an unknown type gets it |
| Orchestrator.Decide | release.js:38-70 | the outcome of the `git branch` callback: a crash, a refusal, an invalid type, or the plan for the type; `DecideGate` states it |
| Orchestrator.Header | release.js:15-17 | the `--output-only` line logged first in output-only mode; `Respond` and `Run` state where it goes |
| Orchestrator.ErrorLine | release.js:28-30 | the `logError` line; `Respond` states when it is logged |
| Orchestrator.DecideGate | release.js:38-70 | no current-branch line means a crash. Major goes ahead iff the branch is `master`; minor, patch and the default type go ahead iff the branch contains a major line, each with the plan the script builds for it (the minor list as written). An unknown type gets the invalid-type message; a refusal carries the message of its case |
| Orchestrator.Respond | release.js:40-70 | a crash exits 1 and a refusal exits 1 after its error line; an invalid type exits 0 after its error line; a plan goes to `executeBatch` and exits 1 iff a command fails |
| Orchestrator.Run | release.js:11-72 | a failed `git branch` exits 1 with nothing run; otherwise the run reports exactly the decision the callback reaches |

## Left out

- `executeCommand` (release.js:165-190) is not modelled. Its effects are a parameter: the `git branch` output, or `None` when it closes with a non-zero code. Also not modelled: its stream handling, its `executing command:` and `stderr:` log lines, the echo of each data chunk, and the error `console.error` prints.
- The external tools are not modelled: git, npm, `changelog-maker`, `sed`. Their effects on the repository and on `package.json` are abstracted. A command's exit status and standard output are given by `run`, and `Plans.After` is the only effect on the package version.
- `require('./package')` (release.js:19) is not modelled. The version string is an input.
- `Versions.Parse`: VERSION must be `digits.digits.digits` (`WellFormed`). Not modelled: `parseInt` on other text (`NaN`, prefixes, signs), and numbers beyond 2^53, where JavaScript's floating-point numbers lose precision.
- `Batch.LiveLog`: `execSync` returns a Buffer, and `console.log` prints it in Node's `<Buffer …>` form. The model logs standard output as a string.
- `Batch.ExecuteBatch`: where `execSync` throws, the failing command's standard error is not modelled.
- `Orchestrator.Run`: `SCRIPT_NAME` is a parameter, not derived from `argv[1]`.
- The unused `async`, `fs` and `REMOTE_REPO` (release.js:1-6) are not modelled. Nor are the commented-out `npm test`, `git push` and `npm publish` lines.
- Branches.ContainsMajorLine: a Dafny `char` is a Unicode scalar value, but a JavaScript string is a sequence of UTF-16 code units, and `.` without the `u` flag matches one code unit. For a branch name with a character outside the Basic Multilingual Plane between the digit and the `x` (for example `v2😀x`), the model's test holds while the script's test fails. Names in the Basic Multilingual Plane are read the same in both. The line split, the current-line test and `split(' ')` are unaffected, because the characters they look for are all in that plane.
- The `g` flag on both regular expressions is not modelled. Both are used once per run, so `lastIndex` starts at 0.

## Findings

| source | as written | input that shows it | evidently intended | confidence | as-written member | corrected member |
|---|---|---|---|---|---|---|
| release.js:120 | the minor plan's second-to-last command is `npm --no-git-tag-version version minor`, a second minor bump | VERSION `1.2.3` and release type `minor` make the commit `working on v1.3.1`, but the package is then at `1.4.0` | `npm --no-git-tag-version version patch`, which takes the package from `1.3.0` to `1.3.1`, the version the commit names | not executed | Plans.MinorAsWrittenMisnamesWorkingVersion | Plans.PlanCommitsMatchPackage |

The script's run (`Plans.PlanFor`, `Orchestrator.Decide`, `Orchestrator.Run`) uses the minor list as written, `Plans.MinorCommandsAsWritten`. The corrected plan is `Plans.CorrectedPlanFor`, built on `Plans.MinorCommands`.

A related property, proved but not a finding: a major release from version 10 or later creates `v10.x`, `v11.x` and so on. The rule `/v[0-9].x/` then refuses minor and patch releases on those branches (`Branches.MajorLineBranchAccepted`).
