/**
 * Running the command list: one command after another through the shell,
 * stopping at the first one that fails. What each command does is outside
 * the model; its outcome is given, one per command, and the run is judged
 * only by those outcomes.
 */
module Runner {
  import opened Util
  import opened Errors

  /** The outcome of handing one command to the shell. */
  datatype Outcome =
    | Completed(returnCode: int, stdout: string, stderr: string)  // the shell ran it
    | NotStarted(missingProgram: bool, detail: string)            // the process module threw

  predicate Succeeded(o: Outcome)
  {
    o.Completed? && o.returnCode == 0
  }

  /** The failure a non-successful outcome reports. */
  function FailureOf(o: Outcome): Failure
    requires !Succeeded(o)
  {
    match o
    case Completed(code, _, err) => ExitedNonZero(code, err)
    case NotStarted(missing, detail) => SpawnFailed(missing, detail)
  }

  /** The index of the first failing outcome among the first `n`, or `n`
      when all of them succeeded. */
  function FirstFailure(outcomes: seq<Outcome>, n: nat): (k: nat)
    requires n <= |outcomes|
    ensures k <= n && (k < n ==> !Succeeded(outcomes[k]))
    decreases n
  {
    if n == 0 then 0
    else
      var k := FirstFailure(outcomes, n - 1);
      if k < n - 1 || !Succeeded(outcomes[n - 1]) then k else n
  }

  /** `FirstFailure` finds the first failure: everything before it
      succeeded, and it failed unless it is `n`. */
  lemma {:induction false} FirstFailureIsFirst(outcomes: seq<Outcome>, n: nat)
    requires n <= |outcomes|
    ensures var k := FirstFailure(outcomes, n);
      && (forall j :: 0 <= j < k ==> Succeeded(outcomes[j]))
      && (k < n ==> !Succeeded(outcomes[k]))
    decreases n
  {
    if n > 0 {
      FirstFailureIsFirst(outcomes, n - 1);
    }
  }

  /** What the runner prints for the first `n` commands when all of them
      succeed: each command's announcement, then its standard output and
      standard error. */
  function RunLog(cmds: seq<string>, outcomes: seq<Outcome>, n: nat): seq<string>
    requires n <= |cmds| <= |outcomes|
    requires forall j :: 0 <= j < n ==> Succeeded(outcomes[j])
    decreases n
  {
    if n == 0 then []
    else
      var o := outcomes[n - 1];
      assert Succeeded(o);
      RunLog(cmds, outcomes, n - 1) + ["Running " + cmds[n - 1], o.stdout, o.stderr]
  }

  /** What the runner prints for `cmds`: the entries of every command up to
      the first failure, then the failing command's announcement. */
  function Transcript(cmds: seq<string>, outcomes: seq<Outcome>): seq<string>
    requires |cmds| <= |outcomes|
  {
    var k := FirstFailure(outcomes, |cmds|);
    FirstFailureIsFirst(outcomes, |cmds|);
    RunLog(cmds, outcomes, k) + (if k < |cmds| then ["Running " + cmds[k]] else [])
  }

  /** The error the runner raises for `cmds`: the one for the first
      failure, if any. */
  function RunError(outcomes: seq<Outcome>, n: nat): Option<Raised>
    requires n <= |outcomes|
  {
    var k := FirstFailure(outcomes, n);
    if k < n then Some(HandleException(FailureOf(outcomes[k]))) else None
  }

  /** Each command is announced, handed to the shell with outcome
      `outcomes[i]`, and on success its output is echoed; the first failure
      ends the run with the error `HandleException` raises for it. */
  method RunCommands(cmds: seq<string>, outcomes: seq<Outcome>) returns (log: seq<string>, error: Option<Raised>)
    requires |cmds| <= |outcomes|
    ensures var k := FirstFailure(outcomes, |cmds|);
      && (error.None? <==> k == |cmds|)
      && (error.Some? ==> error.value == HandleException(FailureOf(outcomes[k])))
      && (forall j :: 0 <= j < k ==> Succeeded(outcomes[j]))
      && log == RunLog(cmds, outcomes, k) + (if k < |cmds| then ["Running " + cmds[k]] else [])
    ensures log == Transcript(cmds, outcomes) && error == RunError(outcomes, |cmds|)
  {
    log := [];
    var i := 0;
    while i < |cmds|
      invariant 0 <= i <= |cmds| && FirstFailure(outcomes, i) == i
      invariant forall j :: 0 <= j < i ==> Succeeded(outcomes[j])
      invariant log == RunLog(cmds, outcomes, i)
    {
      FirstFailureIsFirst(outcomes, i);
      log := log + ["Running " + cmds[i]];
      var o := outcomes[i];
      if !Succeeded(o) {
        error := Some(HandleException(FailureOf(o)));
        FirstFailureUpTo(outcomes, i + 1, |cmds|);
        return;
      }
      log := log + [o.stdout, o.stderr];
      i := i + 1;
    }
    error := None;
  }

  /** Once a failure is found among the first `m` outcomes, looking further
      finds the same one. */
  lemma {:induction false} FirstFailureUpTo(outcomes: seq<Outcome>, m: nat, n: nat)
    requires m <= n <= |outcomes| && FirstFailure(outcomes, m) < m
    ensures FirstFailure(outcomes, n) == FirstFailure(outcomes, m)
    decreases n
  {
    if n > m {
      FirstFailureUpTo(outcomes, m, n - 1);
    }
  }

  /** The run completes exactly when every command succeeds, and a failure
      at command `k` leaves the commands after it unstarted: the log
      announces exactly the commands up to `k`. */
  lemma RunStopsAtFailure(cmds: seq<string>, outcomes: seq<Outcome>, k: nat)
    requires |cmds| <= |outcomes| && k < |cmds|
    requires forall j :: 0 <= j < k ==> Succeeded(outcomes[j])
    requires !Succeeded(outcomes[k])
    ensures FirstFailure(outcomes, |cmds|) == k
    ensures |RunLog(cmds, outcomes, k)| == 3 * k
  {
    FirstFailureAt(outcomes, k);
    FirstFailureUpTo(outcomes, k + 1, |cmds|);
    RunLogLength(cmds, outcomes, k);
  }

  /** With everything before `k` succeeding and `k` failing, the first
      failure among the first `k + 1` outcomes is `k`. */
  lemma {:induction false} FirstFailureAt(outcomes: seq<Outcome>, k: nat)
    requires k < |outcomes|
    requires forall j :: 0 <= j < k ==> Succeeded(outcomes[j])
    ensures FirstFailure(outcomes, k) == k
    ensures !Succeeded(outcomes[k]) ==> FirstFailure(outcomes, k + 1) == k
    decreases k
  {
    if k > 0 {
      FirstFailureAt(outcomes, k - 1);
    }
  }

  /** Three printed entries per successful command. */
  lemma {:induction false} RunLogLength(cmds: seq<string>, outcomes: seq<Outcome>, n: nat)
    requires n <= |cmds| <= |outcomes|
    requires forall j :: 0 <= j < n ==> Succeeded(outcomes[j])
    ensures |RunLog(cmds, outcomes, n)| == 3 * n
    decreases n
  {
    if n > 0 {
      RunLogLength(cmds, outcomes, n - 1);
    }
  }

  /** The runner raises nothing exactly when every command succeeds, and
      then it prints three entries per command. */
  lemma CleanRun(cmds: seq<string>, outcomes: seq<Outcome>)
    requires |cmds| <= |outcomes|
    ensures RunError(outcomes, |cmds|).None? <==> forall j :: 0 <= j < |cmds| ==> Succeeded(outcomes[j])
    ensures RunError(outcomes, |cmds|).None? ==> |Transcript(cmds, outcomes)| == 3 * |cmds|
  {
    FirstFailureIsFirst(outcomes, |cmds|);
    RunLogLength(cmds, outcomes, FirstFailure(outcomes, |cmds|));
  }
}
