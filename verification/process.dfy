/** External processes as the dev tool sees them (cmd/cmd.go, cmd/installed.go).

    Launching a process is abstracted to an event `Exec(exe, args)` recorded in a
    trace; how the process ends is an oracle `Runner` supplied by the caller. Go's
    `error` result of `exec.Cmd.Run` becomes `Err`: `Nil`, or the failed call with
    the status that made it fail.
 */
module Process {

  /** One launch of an executable with an argument vector (argv[0] excluded). */
  datatype Exec = Exec(exe: string, args: seq<string>)

  /** How a launched process ended, as far as the parent can observe it. */
  datatype Status = Exited(code: int) | StartFailed

  /** The environment: what happens when a given call is launched. */
  type Runner = Exec -> Status

  /** Go's `error` returned by a run: nil, or the call that failed and why. */
  datatype Err = Nil | Failed(call: Exec, status: Status)

  /** The observable effect of running some commands: launches in order, then the error returned. */
  datatype Run = Run(trace: seq<Exec>, err: Err)

  /** `exec.Cmd.Run` returns nil exactly when the process started and exited with status 0. */
  predicate Succeeds(s: Status) {
    s == Exited(0)
  }

  /** RunWithAttachedOutput: launch one process, wait for it, report its error. */
  function Attached(runner: Runner, call: Exec): (r: Run)
    ensures r.trace == [call]
    ensures r.err == Nil <==> Succeeds(runner(call))
    ensures r.err != Nil ==> r.err == Failed(call, runner(call))
  {
    var status := runner(call);
    Run([call], if status == Exited(0) then Nil else Failed(call, status))
  }

  /** Runs `calls` one after another and returns the first error; no call after a failing one is launched. */
  function Sequence(runner: Runner, calls: seq<Exec>): (r: Run)
    ensures |r.trace| <= |calls| && r.trace == calls[..|r.trace|]
    ensures forall k :: 0 <= k < |r.trace| - 1 ==> Succeeds(runner(r.trace[k]))
    ensures r.err == Nil ==> r.trace == calls
    ensures r.err == Nil ==> forall k :: 0 <= k < |calls| ==> Succeeds(runner(calls[k]))
    ensures r.err != Nil ==>
              && |r.trace| > 0
              && !Succeeds(runner(r.trace[|r.trace| - 1]))
              && r.err == Failed(r.trace[|r.trace| - 1], runner(r.trace[|r.trace| - 1]))
    decreases |calls|
  {
    if |calls| == 0 then Run([], Nil)
    else
      var head := Attached(runner, calls[0]);
      if head.err != Nil then head
      else
        var rest := Sequence(runner, calls[1..]);
        Run([calls[0]] + rest.trace, rest.err)
  }

  /** The k-th call is launched exactly when every call before it succeeded. */
  lemma SequenceReaches(runner: Runner, calls: seq<Exec>, k: nat)
    requires k < |calls|
    ensures k < |Sequence(runner, calls).trace| <==> forall j :: 0 <= j < k ==> Succeeds(runner(calls[j]))
  {
    var r := Sequence(runner, calls);
    if k < |r.trace| {
      assert forall j :: 0 <= j < k ==> r.trace[j] == calls[j];
    } else if r.err != Nil {
      assert r.trace[|r.trace| - 1] == calls[|r.trace| - 1];
    }
  }

  /** Pairwise distinct calls. */
  predicate DistinctCalls(calls: seq<Exec>) {
    forall i, j :: 0 <= i < j < |calls| ==> calls[i] != calls[j]
  }

  /** In a prefix of distinct calls, the k-th call occurs exactly when the prefix reaches index k. */
  lemma InDistinctPrefix(calls: seq<Exec>, t: seq<Exec>, k: nat)
    requires k < |calls| && DistinctCalls(calls)
    requires |t| <= |calls| && t == calls[..|t|]
    ensures calls[k] in t <==> k < |t|
  {
    if calls[k] in t {
      var i :| 0 <= i < |t| && t[i] == calls[k];
      assert calls[i] == calls[k];
    }
    if k < |t| {
      assert t[k] == calls[k];
    }
  }

  /** With distinct calls, a call appears in the trace exactly when every call planned before it succeeded. */
  lemma SequenceLaunchesIff(runner: Runner, calls: seq<Exec>, k: nat)
    requires k < |calls|
    requires DistinctCalls(calls)
    ensures calls[k] in Sequence(runner, calls).trace <==> forall j :: 0 <= j < k ==> Succeeds(runner(calls[j]))
  {
    SequenceReaches(runner, calls, k);
    InDistinctPrefix(calls, Sequence(runner, calls).trace, k);
  }

  /** With distinct calls, the sequence succeeds exactly when its last call was launched and succeeded. */
  lemma SequenceSucceedsIffLast(runner: Runner, calls: seq<Exec>)
    requires |calls| > 0 && DistinctCalls(calls)
    ensures Sequence(runner, calls).err == Nil
            <==> calls[|calls| - 1] in Sequence(runner, calls).trace && Succeeds(runner(calls[|calls| - 1]))
  {
    var r := Sequence(runner, calls);
    InDistinctPrefix(calls, r.trace, |calls| - 1);
    if r.err != Nil && calls[|calls| - 1] in r.trace {
      assert r.trace == calls;
    }
  }

  /** The search-path probe used by cmd.Installed: `which -s <name>`. */
  function ProbeCall(name: string): Exec {
    Exec("which", ["-s", name])
  }

  /** cmd.Installed: only a probe that ran and exited non-zero answers "not installed";
      a probe that could not even start falls through to "installed". */
  function Installed(runner: Runner, name: string): (b: bool)
    ensures !b <==> runner(ProbeCall(name)).Exited? && runner(ProbeCall(name)).code != 0
    ensures runner(ProbeCall(name)) == StartFailed ==> b
  {
    match runner(ProbeCall(name))
    case StartFailed => true
    case Exited(code) => code == 0
  }
}
