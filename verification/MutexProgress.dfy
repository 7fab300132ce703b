/**
 What the mutex lets its threads do: a thread is delayed by nothing but the latch, and from every reachable
 state everybody who waits can get the lock.
 */
module MutexProgress {
  import opened MutexSystem
  import opened MutexProof

  ghost function Last(run: seq<State>): State
    requires |run| > 0
  {
    run[|run| - 1]
  }

  lemma Act(run: seq<State>, e: Event) returns (run': seq<State>)
    requires |run| > 0 && IsRun(run) && Enabled(Last(run), e)
    ensures |run'| > 0 && IsRun(run') && run <= run' && Last(run') == Apply(Last(run), e)
  {
    hide Apply, Enabled, Init;
    run' := run + [Apply(Last(run), e)];
    forall k | 0 <= k < |run'| - 1 ensures Next(run'[k], run'[k + 1]) {
      if k < |run| - 1 { assert Next(run[k], run[k + 1]); }
    }
  }

  // ---- how much a thread has left to do ----

  /** An upper bound on the steps of an operation when the latch is free. */
  function Left(queue: nat, pc: Pc): nat {
    match pc
    case Idle => 0
    case TrySharedSwap(_) => 1
    case Store(_) => 1
    case Place(_, _) => 2
    case Grant(_, _) => 2 * queue + 3
    case Notify(_, _) => 2 * queue + 4
    case LatchSwap(_, _) => 2 * queue + 5
    case Latching(_) => 2 * queue + 6
    case UnlockSwap(_, _) => 2 * queue + 7
    case UnlockLoad(_) => 2 * queue + 8
  }

  /** Every step of a thread brings it nearer to the end of its operation, unless it finds the latch taken or
      loses it to somebody else, or the exchange fails for no reason. */
  lemma OnlyTheLatchDelays(st: State, t: nat, spurious: bool)
    requires Enabled(st, Step(t, spurious))
    ensures var st', pc := Apply(st, Step(t, spurious)), st.pcs[t];
            || Left(|st'.queue|, st'.pcs[t]) < Left(|st.queue|, pc)
            || (pc.Latching? && Latched(st.word) && st' == st)
            || (pc.LatchSwap? && (spurious || st.word != pc.l) && st' == At(st, t, Latching(pc.op)))
  {
    hide Latched, HasNextExcl, HasNextShared, HasExcl, WithoutNext, Allow, Fast;
  }

  // ---- a thread finishes ----

  /** The requests that have had the lock and given it back. */
  ghost function Released(st: State): set<nat> { st.granted - st.exclusives - st.sharers }

  /** Thread `t` has moved on: nobody else has, nothing has been given up or forgotten. */
  ghost predicate Kept(st: State, st': State, t: nat) {
    && |st'.pcs| == |st.pcs| && st'.dead == st.dead && st.kinds <= st'.kinds && Released(st) <= Released(st')
    && forall u :: 0 <= u < |st.pcs| && u != t ==> st'.pcs[u] == st.pcs[u]
  }

  /** The thread is not going to bring a new request. */
  predicate Leaving(pc: Pc) {
    match pc
    case Latching(op) => op.Release?
    case LatchSwap(op, _) => op.Release?
    case Notify(op, _) => op.Release?
    case Grant(op, _) => op.Release?
    case Place(_, _) => false
    case TrySharedSwap(_) => false
    case _ => true
  }

  ghost predicate Given(st: State, t: nat, r: nat)
    requires t < |st.pcs|
  {
    Releasing(st.pcs[t], r) || r in Released(st)
  }

  /** What thread `t` was giving back it gives back, and it brings a request only if it was going to. */
  ghost predicate Follows(st: State, st': State, t: nat)
    requires t < |st.pcs| == |st'.pcs|
  {
    && (Leaving(st.pcs[t]) ==> Leaving(st'.pcs[t]) && st'.kinds == st.kinds)
    && forall r :: Given(st, t, r) ==> Given(st', t, r)
  }

  lemma StepFrame(st: State, t: nat)
    requires t < |st.pcs| && WellSized(st) && StepEnabled(st, t)
    ensures var st' := StepOf(st, t, false);
            && |st'.pcs| == |st.pcs| && st'.dead == st.dead && st.kinds <= st'.kinds
            && (forall u :: 0 <= u < |st.pcs| && u != t ==> st'.pcs[u] == st.pcs[u])
            && (Leaving(st.pcs[t]) ==> Leaving(st'.pcs[t]) && st'.kinds == st.kinds)
  {
    hide Latched, HasNextExcl, HasNextShared, HasExcl, WithoutNext, Allow, Fast, NextBits, Owner, Amount;
  }

  /** Whoever gets the lock has not had it before. */
  lemma StepReleases(st: State, t: nat)
    requires Inv(st) && t < |st.pcs| && WellSized(st) && StepEnabled(st, t)
    ensures Released(st) <= Released(StepOf(st, t, false))
  {
    hide Latched, HasNextExcl, HasNextShared, HasExcl, WithoutNext, Allow, Fast, WordOk, PcsOk, OwnersOk, NextBits, Amount;
    if st.pcs[t].Grant? { assert st.queue[0] in st.queue; }
  }

  lemma StepGives(st: State, t: nat, r: nat)
    requires Inv(st) && t < |st.pcs| && WellSized(st) && StepEnabled(st, t) && Releasing(st.pcs[t], r)
    ensures t < |StepOf(st, t, false).pcs| && Given(StepOf(st, t, false), t, r)
  {
    hide Latched, HasNextExcl, HasNextShared, HasExcl, WithoutNext, Allow, Fast, WordOk, QueueOk, NextBits, Amount;
    assert PcOk(st, st.pcs[t]);
  }

  lemma StepKeeps(st: State, t: nat)
    requires Inv(st) && t < |st.pcs| && WellSized(st) && StepEnabled(st, t)
    ensures Kept(st, StepOf(st, t, false), t) && Follows(st, StepOf(st, t, false), t)
  {
    hide Inv, StepOf, WellSized, StepEnabled, Leaving, Releasing, Released;
    StepFrame(st, t);
    StepReleases(st, t);
    forall r | Given(st, t, r) ensures Given(StepOf(st, t, false), t, r) {
      if Releasing(st.pcs[t], r) { StepGives(st, t, r); }
    }
  }

  lemma KeptTrans(a: State, b: State, c: State, t: nat)
    requires t < |a.pcs| && Kept(a, b, t) && Kept(b, c, t) && Follows(a, b, t) && Follows(b, c, t)
    ensures Kept(a, c, t) && Follows(a, c, t)
  {
    hide Leaving, Given, Released;
  }

  /** Nobody else is inside. */
  ghost predicate Alone(st: State, t: nat) {
    t < |st.pcs| && (Latched(st.word) ==> InSection(st.pcs[t]))
  }

  lemma StillAlone(st: State, st': State, t: nat)
    requires Inv(st) && Inv(st') && Alone(st, t) && |st'.pcs| == |st.pcs|
    requires forall u :: 0 <= u < |st.pcs| && u != t ==> st'.pcs[u] == st.pcs[u]
    ensures Alone(st', t)
  {
    hide OwnersOk, QueueOk, PcOk;
  }

  /** `Left`, with what a stale copy of the word costs. */
  function Ahead(st: State, t: nat): nat
    requires t < |st.pcs|
  {
    if st.pcs[t].LatchSwap? && st.pcs[t].l != st.word then 2 * |st.queue| + 7 else Left(|st.queue|, st.pcs[t])
  }

  lemma Nearer(st: State, t: nat)
    requires Enabled(st, Step(t, false)) && Alone(st, t)
    ensures t < |Apply(st, Step(t, false)).pcs| && Ahead(Apply(st, Step(t, false)), t) < Ahead(st, t)
  {
    hide Latched, HasNextExcl, HasNextShared, HasExcl, WithoutNext, Allow, Fast;
  }

  lemma StepAlone(st: State, t: nat)
    requires Inv(st) && Alone(st, t) && st.pcs[t] != Idle
    ensures Enabled(st, Step(t, false))
    ensures var st' := Apply(st, Step(t, false));
            |st'.pcs| == |st.pcs| && Kept(st, st', t) && Follows(st, st', t) && Alone(st', t) && Ahead(st', t) < Ahead(st, t)
  {
    hide Inv, StepOf, Latched, StepEnabled, WellSized, Ahead, Follows, InSection;
    NeverStuck(st, t);
    StepKeeps(st, t);
    Nearer(st, t);
    NextInv(st, Step(t, false));
    StillAlone(st, Apply(st, Step(t, false)), t);
  }

  lemma OneStep(run: seq<State>, t: nat) returns (run': seq<State>)
    requires |run| > 0 && IsRun(run) && t < |Last(run).pcs| && Alone(Last(run), t) && Last(run).pcs[t] != Idle
    ensures |run'| > 0 && IsRun(run') && run <= run' && |Last(run').pcs| == |Last(run).pcs| && Alone(Last(run'), t)
    ensures Kept(Last(run), Last(run'), t) && Follows(Last(run), Last(run'), t) && Ahead(Last(run'), t) < Ahead(Last(run), t)
  {
    RunInv(run, |run| - 1);
    hide IsRun, Inv, Apply, Enabled, Alone, Kept, Follows, Ahead;
    StepAlone(Last(run), t);
    run' := Act(run, Step(t, false));
  }

  lemma IdleKept(st: State, t: nat)
    requires Alone(st, t) && st.pcs[t] == Idle
    ensures Kept(st, st, t) && Follows(st, st, t) && !Latched(st.word)
  {
    hide Latched;
  }

  lemma {:induction false} Finish(run: seq<State>, t: nat) returns (run': seq<State>)
    requires |run| > 0 && IsRun(run) && t < |Last(run).pcs| && Alone(Last(run), t)
    ensures |run'| > 0 && IsRun(run') && run <= run' && |Last(run').pcs| == |Last(run).pcs| && Kept(Last(run), Last(run'), t)
    ensures Last(run').pcs[t] == Idle && !Latched(Last(run').word) && Follows(Last(run), Last(run'), t)
    decreases Ahead(Last(run), t)
  {
    hide IsRun, Latched, Kept, Follows, Ahead, Alone, Inv;
    if Last(run).pcs[t] == Idle {
      run' := run;
      IdleKept(Last(run), t);
    } else {
      var run1 := OneStep(run, t);
      run' := Finish(run1, t);
      KeptTrans(Last(run), Last(run1), Last(run'), t);
    }
  }

  // ---- everybody gets the lock ----

  ghost predicate AllIdle(st: State) { forall t :: 0 <= t < |st.pcs| ==> st.pcs[t] == Idle }

  ghost predicate Since(st: State, st': State) {
    |st'.pcs| == |st.pcs| && st'.dead == st.dead && st.kinds <= st'.kinds && Released(st) <= Released(st')
  }

  lemma {:induction false} FinishFrom(run: seq<State>, j: nat) returns (run': seq<State>)
    requires |run| > 0 && IsRun(run) && j <= |Last(run).pcs| && !Latched(Last(run).word)
    requires forall t :: 0 <= t < j ==> Last(run).pcs[t] == Idle
    ensures |run'| > 0 && IsRun(run') && run <= run' && Since(Last(run), Last(run'))
    ensures AllIdle(Last(run')) && !Latched(Last(run').word)
    decreases |Last(run).pcs| - j
  {
    hide IsRun, Latched, Released;
    if j == |Last(run).pcs| {
      run' := run;
    } else {
      var run1 := Finish(run, j);
      run' := FinishFrom(run1, j + 1);
    }
  }

  /** All threads end what they are doing. */
  lemma AllFinish(run: seq<State>) returns (run': seq<State>)
    requires |run| > 0 && IsRun(run)
    ensures |run'| > 0 && IsRun(run') && run <= run' && Since(Last(run), Last(run'))
    ensures AllIdle(Last(run')) && !Latched(Last(run').word)
  {
    RunInv(run, |run| - 1);
    hide IsRun, Latched, Released, OwnersOk, QueueOk, PcsOk;
    run' := run;
    if Latched(Last(run).word) {
      var t :| 0 <= t < |Last(run).pcs| && InSection(Last(run).pcs[t]);
      run' := Finish(run, t);
    }
    run' := FinishFrom(run', 0);
  }

  lemma BelowCount(s: set<nat>, n: nat)
    requires forall r :: r in s ==> r < n
    ensures |s| <= n
  {
    if n == 0 {
      assert s == {};
    } else {
      BelowCount(s - {n - 1}, n - 1);
    }
  }

  lemma MoreReleased(st: State, st': State, r: nat)
    requires Inv(st') && Released(st) <= Released(st') && r in Released(st') && r !in Released(st)
    ensures |Released(st)| < |Released(st')| <= |st'.kinds|
  {
    hide OwnersOk, WordOk, PcsOk;
    var before, after := Released(st), Released(st');
    assert forall q :: q in after ==> q < |st'.kinds|;
    hide Released;
    BelowCount(after, |st'.kinds|);
    BelowCount(before, |st'.kinds|);
    assert after == before + (after - before);
    assert r in after - before;
  }

  /** Nobody has the lock and nobody wants it. */
  ghost predicate Over(st: State) {
    && st.word == 0 && st.queue == [] && st.exclusives == {} && st.sharers == {} && AllIdle(st)
    && forall r :: 0 <= r < |st.kinds| ==> r in st.granted || r in st.dead
  }

  lemma NoOwners(st: State)
    requires Inv(st) && AllIdle(st) && !Latched(st.word) && st.exclusives + st.sharers == {}
    ensures Over(st)
  {
    assert st.exclusives == {} && st.sharers == {};
    assert Held(st) == 0;
    hide Held, PcsOk, OwnersOk;
    assert st.queue == [];
    forall r | 0 <= r < |st.kinds| ensures r in st.granted || r in st.dead {
      assert Accounted(st.granted, st.queue, st.dead, r);
    }
  }

  /** A thread gives back what somebody has. */
  lemma GiveBack(run: seq<State>, r: nat) returns (run': seq<State>)
    requires |run| > 0 && IsRun(run) && AllIdle(Last(run)) && !Latched(Last(run).word) && |Last(run).pcs| > 0
    requires Owner(Last(run), r)
    ensures |run'| > 0 && IsRun(run') && run <= run' && Since(Last(run), Last(run'))
    ensures AllIdle(Last(run')) && !Latched(Last(run').word) && Last(run').kinds == Last(run).kinds
    ensures r in Released(Last(run'))
  {
    SizesNow(run);
    hide IsRun, Latched;
    run' := Act(run, StartUnlock(0, r));
    assert Given(Last(run'), 0, r);
    run' := Finish(run', 0);
  }

  lemma SizesNow(run: seq<State>)
    requires |run| > 0 && IsRun(run)
    ensures WellSized(Last(run)) && Inv(Last(run))
  {
    RunInv(run, |run| - 1);
    var st := Last(run);
    forall i | 0 <= i < |st.queue| ensures st.queue[i] < |st.kinds| { assert st.queue[i] in st.queue; }
  }

  lemma {:induction false} AllGiveBack(run: seq<State>) returns (run': seq<State>)
    requires |run| > 0 && IsRun(run) && AllIdle(Last(run)) && !Latched(Last(run).word) && |Last(run).pcs| > 0
    ensures |run'| > 0 && IsRun(run') && run <= run' && Since(Last(run), Last(run')) && Over(Last(run'))
    ensures Last(run').kinds == Last(run).kinds
    decreases |Last(run).kinds| - |Released(Last(run))|
  {
    hide IsRun, Latched, Inv, Over;
    var st := Last(run);
    SizesNow(run);
    if st.exclusives + st.sharers == {} {
      run' := run;
      NoOwners(st);
    } else {
      var r :| r in st.exclusives + st.sharers;
      var run1 := GiveBack(run, r);
      SizesNow(run1);
      MoreReleased(st, Last(run1), r);
      run' := AllGiveBack(run1);
    }
  }

  /** From every reachable state, with any threads anywhere in their operations, everybody can be served: when
      the threads end what they are doing and what is locked is unlocked, every request that has not been
      given up has had the lock, and the mutex is as it was at the start. */
  lemma EveryoneServed(run: seq<State>) returns (run': seq<State>)
    requires |run| > 0 && IsRun(run) && |Last(run).pcs| > 0
    ensures |run'| > 0 && IsRun(run') && run <= run' && Over(Last(run'))
    ensures Last(run).kinds <= Last(run').kinds && Last(run').dead == Last(run).dead
    ensures forall r :: 0 <= r < |Last(run).kinds| && r !in Last(run).dead ==> r in Last(run').granted
  {
    hide IsRun, Latched;
    run' := AllFinish(run);
    run' := AllGiveBack(run');
  }
}
