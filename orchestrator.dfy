/** The script's top level (release.js:11-72): read the arguments, find the
    current branch in the `git branch` listing, check it against the release
    type, build the plan and hand it to `executeBatch`. */
module Orchestrator {
  import opened Wrappers
  import opened Versions
  import opened Branches
  import opened Plans
  import opened Batch

  /** The release type the `switch (RELEASE_TYPE)` selects: `major`, `minor`,
      `patch`, or `patch` again for a missing argument (`case undefined`). Any
      other string, the empty one included, selects none. */
  function ReleaseTypeOf(arg: Option<string>): (r: Option<ReleaseType>)
    ensures forall k :: r == Some(k) <==> (arg == Some(KindName(k)) || (k == Patch && arg == None))
    ensures r.None? ==> arg.Some?
  {
    if arg == Some("major") then Some(Major)
    else if arg == Some("minor") then Some(Minor)
    else if arg == None || arg == Some("patch") then Some(Patch)
    else None
  }

  /** The branch rule of each case (release.js:42, 50, 59). */
  predicate BranchAllowed(kind: ReleaseType, branch: string) {
    if kind == Major then branch == "master" else ContainsMajorLine(branch)
  }

  function RefusalMessage(kind: ReleaseType): string {
    match kind
    case Major => "Major releases must be cut from master!"
    case Minor => "Minor releases must be cut from a major-version branch!"
    case Patch => "Patch releases must be cut from a major-version branch!"
  }

  /** The message of the `default` case (release.js:67). */
  function InvalidTypeMessage(arg: string): string {
    "Invalid release type \"" + arg + "\".  Must be \"major\", \"minor\", or \"patch\" (default)"
  }

  /** `logError` (release.js:28-30). */
  function ErrorLine(scriptName: string, message: string): string {
    scriptName + ": Error: " + message
  }

  /** What the `git branch` callback decides. */
  datatype Decision =
    | Crash                        // no current-branch line: `null[0]` throws
    | Refused(message: string)     // the branch rule fails: logError and process.exit(1)
    | InvalidType(message: string) // the default case: logError, and no exit call
    | Proceed(plan: Plan)          // the plan handed to executeBatch

  /** The callback of `executeCommand('git branch', ...)` (release.js:38-70). */
  function Decide(arg: Option<string>, raw: string, listing: string): Decision
    requires WellFormed(raw)
  {
    match CurrentBranch(listing)
    case None => Crash
    case Some(branch) =>
      match ReleaseTypeOf(arg)
      case None => InvalidType(InvalidTypeMessage(arg.value))
      case Some(kind) =>
        if BranchAllowed(kind, branch) then Proceed(PlanFor(kind, raw, branch))
        else Refused(RefusalMessage(kind))
  }

  /** The validation gate: the script dies when the listing marks no branch;
      otherwise a major release goes ahead exactly from `master`, a minor,
      patch or default release exactly from a branch containing `v`, a digit,
      any character and `x`, and then with the plan of its type; any other
      release type is refused with the invalid-type message. */
  lemma DecideGate(arg: Option<string>, raw: string, listing: string)
    requires WellFormed(raw)
    ensures Decide(arg, raw, listing) == Crash <==> CurrentBranch(listing).None?
    ensures CurrentBranch(listing).Some? ==>
              var b := CurrentBranch(listing).value;
              var d := Decide(arg, raw, listing);
              (arg == Some("major") ==> (d.Proceed? <==> b == "master"))
              && (arg == None || arg == Some("minor") || arg == Some("patch") ==> (d.Proceed? <==> ContainsMajorLine(b)))
              && (d.Proceed? ==> d.plan == PlanFor(ReleaseTypeOf(arg).value, raw, b))
              && (d.InvalidType? <==> ReleaseTypeOf(arg).None?)
              && (d.InvalidType? ==> d.message == InvalidTypeMessage(arg.value))
              && (d.Refused? ==> d.message == RefusalMessage(ReleaseTypeOf(arg).value))
  {
    if CurrentBranch(listing).Some? {
      assert KindName(Major) == "major" && KindName(Minor) == "minor" && KindName(Patch) == "patch";
    }
  }

  /** The lines logged before the branch is known (release.js:15-17). */
  function Header(flag: Option<string>): seq<string> {
    if flag == Some("--output-only") then ["--output-only"] else []
  }

  /** What the script logs, hands to the shell and exits with, once the
      callback has reached decision `d`. In output-only mode the plan is
      printed and nothing is run; in live mode the batch stops at the first
      failing command and the process then exits 1. */
  ghost predicate Reports(scriptName: string, d: Decision, flag: Option<string>, run: (nat, string) -> Response,
                          log: seq<string>, ran: seq<string>, exitCode: int)
  {
    match d
    case Crash => log == Header(flag) && ran == [] && exitCode == 1
    case Refused(m) => log == Header(flag) + [ErrorLine(scriptName, m)] && ran == [] && exitCode == 1
    case InvalidType(m) => log == Header(flag) + [ErrorLine(scriptName, m)] && ran == [] && exitCode == 0
    case Proceed(p) =>
      var texts := Texts(p.commands);
      if flag == Some("--output-only") then
        log == Header(flag) + texts + [CompletionLine(p.release)] && ran == [] && exitCode == 0
      else match FirstFailure(texts, run, 0)
        case None =>
          log == LiveLog(texts, p.release, run, |texts|) + [CompletionLine(p.release)]
          && ran == texts && exitCode == 0
        case Some(k) =>
          log == LiveLog(texts, p.release, run, k) + [BuildingLine(p.release)]
          && ran == texts[..k + 1] && exitCode == 1
  }

  /** The effects of the `switch` once the decision is made (release.js:40-70),
      and of `executeBatch` for the plan it selects. */
  method Respond(scriptName: string, d: Decision, flag: Option<string>, run: (nat, string) -> Response)
    returns (log: seq<string>, ran: seq<string>, exitCode: int)
    ensures Reports(scriptName, d, flag, run, log, ran, exitCode)
  {
    var outputOnly := flag == Some("--output-only");
    log, ran := Header(flag), [];
    match d
    case Crash =>
      exitCode := 1;
    case Refused(m) =>
      log := log + [ErrorLine(scriptName, m)];
      exitCode := 1;
    case InvalidType(m) =>
      log := log + [ErrorLine(scriptName, m)];
      exitCode := 0;
    case Proceed(p) =>
      var batchLog, completed;
      batchLog, ran, completed := ExecuteBatch(Texts(p.commands), p.release, outputOnly, run);
      log := log + batchLog;
      // A command that fails throws out of the callback: Node exits with status 1.
      exitCode := if completed then 0 else 1;
  }

  /** One run of the script, with `argv[2]`, `argv[3]`, the package version,
      the output of `git branch` (`None` if it exits non-zero) and the shell.
      It returns what it logs to the console, the commands it hands to the
      shell and the process exit status. */
  method Run(scriptName: string, arg: Option<string>, flag: Option<string>, raw: string,
             listing: Option<string>, run: (nat, string) -> Response)
    returns (log: seq<string>, ran: seq<string>, exitCode: int)
    requires WellFormed(raw)
    ensures listing.None? ==> log == Header(flag) && ran == [] && exitCode == 1
    ensures listing.Some? ==> Reports(scriptName, Decide(arg, raw, listing.value), flag, run, log, ran, exitCode)
  {
    if listing.None? {
      // `git branch` failed: the error goes to standard error and the process exits 1.
      return Header(flag), [], 1;
    }
    log, ran, exitCode := Respond(scriptName, Decide(arg, raw, listing.value), flag, run);
  }
}
