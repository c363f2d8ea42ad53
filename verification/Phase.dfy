// internal/provider/unit.go: container states from systemd sub-states, and the pod phase.

module Phase {
  import opened Strings

  // The three pointers of the API object: nothing in the type keeps two from being set.
  datatype ContainerState = ContainerState(waiting: Option<string>, running: bool, terminated: Option<int>)

  datatype PodPhase = Pending | Running | Succeeded | Failed | Unknown

  // int32(x)
  function ToInt32(x: int): int {
    (x + 0x8000_0000) % 0x1_0000_0000 - 0x8000_0000
  }

  const NO_STATE := ContainerState(None, false, None)

  // containerState: the switch over the unit's sub-state, its fallthroughs followed.
  function StateOf(subState: string, execMainStatus: int, execMainExitTimestamp: int): ContainerState {
    if HasPrefix(subState, "stop") || subState == "failed" || subState == "exited" then
      NO_STATE.(terminated := Some(ToInt32(execMainStatus)))
    else if subState == "dead" then
      if execMainExitTimestamp > 0 then NO_STATE.(terminated := Some(ToInt32(execMainStatus)))
      else NO_STATE.(waiting := Some(subState))
    else if HasPrefix(subState, "start") || subState == "condition" then
      NO_STATE.(waiting := Some(subState))
    else if subState == "running" || subState == "auto-restart" || subState == "reload" then
      NO_STATE.(running := true)
    else NO_STATE
  }

  // At most one arm is set.
  predicate OneArm(s: ContainerState) {
    && (s.waiting.Some? ==> !s.running && s.terminated.None?)
    && (s.running ==> s.terminated.None?)
  }

  lemma StateHasOneArm(subState: string, execMainStatus: int, execMainExitTimestamp: int)
    ensures OneArm(StateOf(subState, execMainStatus, execMainExitTimestamp))
    ensures StateOf(subState, execMainStatus, execMainExitTimestamp).terminated.Some? ==>
      -0x8000_0000 <= StateOf(subState, execMainStatus, execMainExitTimestamp).terminated.value < 0x8000_0000
  {
  }

  // ---- What the sub-states mean.

  predicate Runs(subState: string) {
    subState in ["running", "auto-restart", "reload"]
  }

  // A dead unit ended if it ever ran, which shows in the time its process exited, and waits otherwise.
  predicate HasEnded(subState: string, execMainExitTimestamp: int) {
    || "stop" <= subState
    || subState in ["failed", "exited"]
    || (subState == "dead" && execMainExitTimestamp > 0)
  }

  predicate Waits(subState: string, execMainExitTimestamp: int) {
    || "start" <= subState
    || subState == "condition"
    || (subState == "dead" && execMainExitTimestamp <= 0)
  }

  // code is x in 32 bits.
  predicate In32(code: int, x: int) {
    -0x8000_0000 <= code < 0x8000_0000 && (x - code) % 0x1_0000_0000 == 0
  }

  lemma SubStatesApart(subState: string, execMainExitTimestamp: int)
    ensures !(Runs(subState) && HasEnded(subState, execMainExitTimestamp))
    ensures !(Runs(subState) && Waits(subState, execMainExitTimestamp))
    ensures !(HasEnded(subState, execMainExitTimestamp) && Waits(subState, execMainExitTimestamp))
  {
    if "stop" <= subState {
      assert subState[2] == 'o' && subState[0] == 's';
    }
    if "start" <= subState {
      assert subState[2] == 'a' && subState[0] == 's';
    }
  }

  lemma ToInt32Fits(x: int)
    ensures In32(ToInt32(x), x)
  {
  }

  lemma StateMeans(subState: string, execMainStatus: int, execMainExitTimestamp: int)
    ensures
      var s := StateOf(subState, execMainStatus, execMainExitTimestamp);
      && (s.running <==> Runs(subState))
      && (s.terminated.Some? <==> HasEnded(subState, execMainExitTimestamp))
      && (s.terminated.Some? ==> In32(s.terminated.value, execMainStatus))
      && s.waiting == if Waits(subState, execMainExitTimestamp) then Some(subState) else None
  {
    SubStatesApart(subState, execMainExitTimestamp);
    ToInt32Fits(execMainStatus);
  }

  // The sum of a measure over the containers.
  function Total(f: ContainerState -> int, xs: seq<ContainerState>): int {
    if xs == [] then 0 else Total(f, xs[..|xs| - 1]) + f(xs[|xs| - 1])
  }

  function IsWaiting(s: ContainerState): int { if s.waiting.Some? then 1 else 0 }
  function IsRunning(s: ContainerState): int { if s.running then 1 else 0 }
  function IsTerminated(s: ContainerState): int { if s.terminated.Some? then 1 else 0 }
  function ExitCode(s: ContainerState): int { if s.terminated.Some? then s.terminated.value else 0 }

  // What the counters of toPhase amount to.
  function PhaseOf(status: seq<ContainerState>): PodPhase {
    if Total(IsWaiting, status) > 0 then Pending
    else if Total(IsRunning, status) == |status| then Running
    else if Total(IsTerminated, status) == |status| then
      if ToInt32(Total(ExitCode, status)) == 0 then Succeeded else Failed
    else Unknown
  }

  lemma {:induction false} TotalPrefix(f: ContainerState -> int, xs: seq<ContainerState>, k: nat)
    requires k <= |xs| && forall s :: f(s) >= 0
    ensures 0 <= Total(f, xs[..k]) <= Total(f, xs)
    decreases |xs| - k
  {
    if k < |xs| {
      TotalPrefix(f, xs, k + 1);
      assert xs[..k + 1][..k] == xs[..k];
      TotalNonNegative(f, xs[..k]);
    } else {
      assert xs[..k] == xs;
      TotalNonNegative(f, xs);
    }
  }

  lemma {:induction false} TotalNonNegative(f: ContainerState -> int, xs: seq<ContainerState>)
    requires forall s :: f(s) >= 0
    ensures Total(f, xs) >= 0
  {
    if xs != [] {
      TotalNonNegative(f, xs[..|xs| - 1]);
    }
  }

  method ToPhase(status: seq<ContainerState>) returns (phase: PodPhase)
    ensures phase == PhaseOf(status)
  {
    var running, terminated, exitcode := 0, 0, 0;
    for i := 0 to |status|
      invariant Total(IsWaiting, status[..i]) == 0
      invariant running == Total(IsRunning, status[..i])
      invariant terminated == Total(IsTerminated, status[..i])
      invariant exitcode == ToInt32(Total(ExitCode, status[..i]))
    {
      var s := status[i];
      assert status[..i + 1][..i] == status[..i];
      if s.waiting.Some? {
        TotalPrefix(IsWaiting, status, i + 1);
        return Pending;
      }
      if s.running {
        running := running + 1;
      }
      if s.terminated.Some? {
        terminated := terminated + 1;
        exitcode := ToInt32(exitcode + s.terminated.value);
      }
    }
    assert status[..|status|] == status;
    if running == |status| {
      return Running;
    }
    if terminated == |status| {
      if exitcode == 0 {
        return Succeeded;
      }
      return Failed;
    }
    return Unknown;
  }

  // ---- The phase does not depend on the order of the containers.

  lemma {:induction false} TotalRemove(f: ContainerState -> int, xs: seq<ContainerState>, i: nat)
    requires i < |xs|
    ensures Total(f, xs) == Total(f, xs[..i] + xs[i + 1..]) + f(xs[i])
  {
    var k := |xs| - 1;
    if i == k {
      assert xs[..i] + xs[i + 1..] == xs[..k];
    } else {
      TotalRemove(f, xs[..k], i);
      var less := xs[..i] + xs[i + 1..];
      assert less[..|less| - 1] == xs[..k][..i] + xs[..k][i + 1..] && less[|less| - 1] == xs[k];
    }
  }

  lemma TotalFirst(f: ContainerState -> int, xs: seq<ContainerState>)
    requires xs != []
    ensures Total(f, xs) == Total(f, xs[1..]) + f(xs[0])
  {
    TotalRemove(f, xs, 0);
    assert xs[..0] + xs[1..] == xs[1..];
  }

  lemma MultisetRemove<T>(xs: seq<T>, i: nat)
    requires i < |xs|
    ensures multiset(xs[..i] + xs[i + 1..]) == multiset(xs) - multiset{xs[i]}
  {
    assert xs == xs[..i] + [xs[i]] + xs[i + 1..];
  }

  lemma Place<T>(ys: seq<T>, x: T) returns (i: nat)
    requires x in multiset(ys)
    ensures i < |ys| && ys[i] == x
  {
    i :| 0 <= i < |ys| && ys[i] == x;
  }

  // The first of xs found among ys, and the rest of both.
  lemma FirstAmong<T>(xs: seq<T>, ys: seq<T>) returns (i: nat)
    requires multiset(xs) == multiset(ys) && xs != []
    ensures i < |ys| && ys[i] == xs[0] && multiset(xs[1..]) == multiset(ys[..i] + ys[i + 1..])
  {
    FirstRemove(xs);
    i := Place(ys, xs[0]);
    MultisetRemove(ys, i);
  }

  lemma FirstRemove<T>(xs: seq<T>)
    requires xs != []
    ensures xs[0] in multiset(xs) && multiset(xs[1..]) == multiset(xs) - multiset{xs[0]}
  {
    assert xs == [xs[0]] + xs[1..];
  }

  lemma NoneAmong<T>(ys: seq<T>)
    requires multiset(ys) == multiset{}
    ensures ys == []
  {
    assert |multiset(ys)| == |ys|;
  }

  lemma {:induction false} TotalPermutes(f: ContainerState -> int, xs: seq<ContainerState>, ys: seq<ContainerState>)
    requires multiset(xs) == multiset(ys)
    ensures |xs| == |ys| && Total(f, xs) == Total(f, ys)
    decreases |xs|
  {
    if xs == [] {
      NoneAmong(ys);
    } else {
      var i := FirstAmong(xs, ys);
      TotalPermutes(f, xs[1..], ys[..i] + ys[i + 1..]);
      TotalFirst(f, xs);
      TotalRemove(f, ys, i);
    }
  }

  lemma PhaseOrderFree(xs: seq<ContainerState>, ys: seq<ContainerState>)
    requires multiset(xs) == multiset(ys)
    ensures PhaseOf(xs) == PhaseOf(ys)
  {
    TotalPermutes(IsWaiting, xs, ys);
    TotalPermutes(IsRunning, xs, ys);
    TotalPermutes(IsTerminated, xs, ys);
    TotalPermutes(ExitCode, xs, ys);
  }

  // ---- What each phase means.

  lemma {:induction false} TotalOfFlag(f: ContainerState -> int, xs: seq<ContainerState>)
    requires forall s :: f(s) == 0 || f(s) == 1
    ensures 0 <= Total(f, xs) <= |xs|
    ensures Total(f, xs) == 0 <==> forall i :: 0 <= i < |xs| ==> f(xs[i]) == 0
    ensures Total(f, xs) == |xs| <==> forall i :: 0 <= i < |xs| ==> f(xs[i]) == 1
  {
    if xs != [] {
      TotalOfFlag(f, xs[..|xs| - 1]);
    }
  }

  lemma {:induction false} ExitTotalZero(xs: seq<ContainerState>)
    requires forall i :: 0 <= i < |xs| ==> 0 <= ExitCode(xs[i]) <= 255
    ensures 0 <= Total(ExitCode, xs) <= 255 * |xs|
    ensures Total(ExitCode, xs) == 0 <==> forall i :: 0 <= i < |xs| ==> ExitCode(xs[i]) == 0
  {
    if xs != [] {
      ExitTotalZero(xs[..|xs| - 1]);
    }
  }

  predicate AllRun(xs: seq<ContainerState>) {
    forall i :: 0 <= i < |xs| ==> xs[i].running
  }

  predicate AllDone(xs: seq<ContainerState>) {
    forall i :: 0 <= i < |xs| ==> xs[i].terminated.Some?
  }

  predicate SomeWaits(xs: seq<ContainerState>) {
    exists i :: 0 <= i < |xs| && xs[i].waiting.Some?
  }

  lemma PhaseMeans(xs: seq<ContainerState>)
    requires forall i :: 0 <= i < |xs| ==> OneArm(xs[i])
    ensures PhaseOf(xs) == Pending <==> SomeWaits(xs)
    ensures PhaseOf(xs) == Running <==> AllRun(xs)
    ensures PhaseOf(xs) == Succeeded || PhaseOf(xs) == Failed <==> xs != [] && AllDone(xs)
    ensures PhaseOf(xs) == Succeeded <==> xs != [] && AllDone(xs) && Total(ExitCode, xs) % 0x1_0000_0000 == 0
  {
    TotalOfFlag(IsWaiting, xs);
    TotalOfFlag(IsRunning, xs);
    TotalOfFlag(IsTerminated, xs);
    assert AllRun(xs) <==> Total(IsRunning, xs) == |xs|;
    assert AllDone(xs) <==> Total(IsTerminated, xs) == |xs|;
    if SomeWaits(xs) {
      var i :| 0 <= i < |xs| && xs[i].waiting.Some?;
      assert IsWaiting(xs[i]) != 0 && OneArm(xs[i]);
    }
    if AllDone(xs) && xs != [] {
      assert OneArm(xs[0]);
      assert forall i :: 0 <= i < |xs| ==> OneArm(xs[i]) && xs[i].terminated.Some? && xs[i].waiting.None?;
    }
  }

  // With the exit codes a process can have, and not absurdly many containers, success is success of all.
  lemma SucceededMeansAllZero(xs: seq<ContainerState>)
    requires forall i :: 0 <= i < |xs| ==> OneArm(xs[i]) && 0 <= ExitCode(xs[i]) <= 255
    requires 255 * |xs| < 0x8000_0000
    ensures PhaseOf(xs) == Succeeded
      <==> xs != [] && forall i :: 0 <= i < |xs| ==> xs[i].terminated == Some(0)
  {
    PhaseMeans(xs);
    ExitTotalZero(xs);
    if PhaseOf(xs) == Succeeded {
      assert forall i :: 0 <= i < |xs| ==> xs[i].terminated.Some? && ExitCode(xs[i]) == 0;
    }
    if xs != [] && forall i :: 0 <= i < |xs| ==> xs[i].terminated == Some(0) {
      assert forall i :: 0 <= i < |xs| ==> ExitCode(xs[i]) == 0;
      assert AllDone(xs);
    }
  }

  function Copies(code: int, n: nat): seq<ContainerState> {
    seq(n, _ => NO_STATE.(terminated := Some(code)))
  }

  lemma {:induction false} TotalOfCopies(code: int, n: nat)
    ensures Total(ExitCode, Copies(code, n)) == n * code
  {
    if n > 0 {
      TotalOfCopies(code, n - 1);
      assert Copies(code, n)[..n - 1] == Copies(code, n - 1);
    }
  }

  // With more containers failures can cancel: the codes are summed in 32 bits, not compared one by one.
  lemma FailuresCanCancel(code: int, n: nat)
    requires n > 0 && 0 <= code <= 255
    ensures PhaseOf(Copies(code, n)) == Succeeded <==> n * code % 0x1_0000_0000 == 0
    ensures PhaseOf(Copies(64, 0x400_0000)) == Succeeded
  {
    TotalOfCopies(code, n);
    PhaseMeans(Copies(code, n));
    TotalOfCopies(64, 0x400_0000);
    PhaseMeans(Copies(64, 0x400_0000));
  }
}
