/** `executeBatch` (release.js:150-163): print the plan, or run it command by
    command, stopping at the first command that fails. The shell is a
    parameter: `run(k, command)` is what the shell answers to the k-th command
    of the batch (counting from 0), so a command that is repeated may answer
    differently each time. */
module Batch {
  import opened Wrappers

  /** What `child_process.execSync` gets back: the exit status and the
      captured standard output. */
  datatype Response = Response(status: int, stdout: string)

  /** `execSync` returns only for a zero exit status and throws otherwise. */
  predicate Succeeds(r: Response) {
    r.status == 0
  }

  function BuildingLine(release: string): string {
    "Building release " + release
  }

  /** `console.log('release %s build complete.', release)`. */
  function CompletionLine(release: string): string {
    "release " + release + " build complete."
  }

  /** The first command at or after `from` whose run fails, if any. */
  function FirstFailure(cmds: seq<string>, run: (nat, string) -> Response, from: nat): (r: Option<nat>)
    ensures r.Some? ==> from <= r.value < |cmds| && !Succeeds(run(r.value, cmds[r.value]))
    ensures r.Some? ==> forall j :: from <= j < r.value ==> Succeeds(run(j, cmds[j]))
    ensures r.None? ==> forall j :: from <= j < |cmds| ==> Succeeds(run(j, cmds[j]))
    decreases |cmds| - from
  {
    if from >= |cmds| then None
    else if !Succeeds(run(from, cmds[from])) then Some(from)
    else FirstFailure(cmds, run, from + 1)
  }

  /** What live mode logs for the first `n` commands when all of them succeed:
      the building line, then the command's output, for each in turn. */
  function LiveLog(cmds: seq<string>, release: string, run: (nat, string) -> Response, n: nat): (log: seq<string>)
    requires n <= |cmds|
    ensures |log| == 2 * n
    ensures forall j :: 0 <= j < n ==> log[2 * j] == BuildingLine(release) && log[2 * j + 1] == run(j, cmds[j]).stdout
    decreases n
  {
    if n == 0 then []
    else
      var prefix := LiveLog(cmds, release, run, n - 1);
      assert forall j :: 0 <= j < n - 1 ==> (prefix + [BuildingLine(release), run(n - 1, cmds[n - 1]).stdout])[2 * j] == prefix[2 * j];
      prefix + [BuildingLine(release), run(n - 1, cmds[n - 1]).stdout]
  }

  /** Runs the batch. In output-only mode it logs every command, in order, then
      the completion line, and runs nothing. In live mode it runs the commands
      in order: if command k is the first to fail, exactly k + 1 commands have
      run, the log ends with the building line of the failing command, and no
      completion line is logged; if none fails, all have run and the completion
      line comes last. `ran` is the sequence of commands handed to the shell. */
  method ExecuteBatch(cmds: seq<string>, release: string, outputOnly: bool, run: (nat, string) -> Response)
    returns (log: seq<string>, ran: seq<string>, completed: bool)
    ensures outputOnly ==> log == cmds + [CompletionLine(release)] && ran == [] && completed
    ensures !outputOnly ==> match FirstFailure(cmds, run, 0)
              case None =>
                ran == cmds && completed
                && log == LiveLog(cmds, release, run, |cmds|) + [CompletionLine(release)]
              case Some(k) =>
                ran == cmds[..k + 1] && !completed
                && log == LiveLog(cmds, release, run, k) + [BuildingLine(release)]
  {
    log, ran := [], [];
    if outputOnly {
      for i := 0 to |cmds|
        invariant log == cmds[..i]
      {
        log := log + [cmds[i]];
      }
      assert cmds[..|cmds|] == cmds;
    } else {
      var i := 0;
      while i < |cmds|
        invariant i <= |cmds|
        invariant ran == cmds[..i]
        invariant log == LiveLog(cmds, release, run, i)
        invariant forall j :: 0 <= j < i ==> Succeeds(run(j, cmds[j]))
      {
        log := log + [BuildingLine(release)];
        var response := run(i, cmds[i]);
        ran := ran + [cmds[i]];
        if !Succeeds(response) {
          // execSync throws: the rest of the batch and the completion line are skipped.
          assert FirstFailure(cmds, run, 0) == Some(i) by {
            FirstFailureIs(cmds, run, 0, i);
          }
          return log, ran, false;
        }
        log := log + [response.stdout];
        i := i + 1;
      }
      assert cmds[..|cmds|] == cmds;
      assert FirstFailure(cmds, run, 0) == None;
    }
    log := log + [CompletionLine(release)];
    completed := true;
  }

  /** The first failure is the failing command all of whose predecessors
      succeeded. */
  lemma {:induction false} FirstFailureIs(cmds: seq<string>, run: (nat, string) -> Response, from: nat, k: nat)
    requires from <= k < |cmds| && !Succeeds(run(k, cmds[k]))
    requires forall j :: from <= j < k ==> Succeeds(run(j, cmds[j]))
    ensures FirstFailure(cmds, run, from) == Some(k)
    decreases k - from
  {
    if from < k {
      FirstFailureIs(cmds, run, from + 1, k);
    }
  }
}
