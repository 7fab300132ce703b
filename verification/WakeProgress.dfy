/**
 What the hand-over system can do: from every reachable state it can come to rest with everything imported
 and the driver blocked, and a driver that nobody hands anything never spins.
 */
module WakeProgress {
  import opened WakeSystem

  ghost function Last(run: seq<State>): State
    requires |run| > 0
  {
    run[|run| - 1]
  }

  lemma Longer(run: seq<State>, e: Event)
    requires IsRun(run) && Enabled(Last(run), e)
    ensures IsRun(run + [Apply(Last(run), e)]) && Last(run + [Apply(Last(run), e)]) == Apply(Last(run), e)
  {
    hide Apply, Enabled, Init;
    var run' := run + [Apply(Last(run), e)];
    forall k | 0 <= k < |run'| - 1 ensures Next(run'[k], run'[k + 1]) {
      if k < |run| - 1 { assert Next(run[k], run[k + 1]); }
    }
  }

  // ---- nobody hands anything over ----

  /** A step that is no hand-over and no choice of a zero timeout. */
  ghost predicate IdleNext(st: State, st': State) {
    exists e :: Enabled(st, e) && st' == Apply(st, e) && !e.Hand? && e != Choose(true)
  }

  ghost predicate IsIdleRun(run: seq<State>) {
    |run| > 0 && Init(run[0]) && forall k :: 0 <= k < |run| - 1 ==> IdleNext(run[k], run[k + 1])
  }

  ghost predicate Untouched(st: State) {
    && !st.locked && !st.nonempty && st.migrate == [] && !st.signal && st.asap == [] && st.log == []
    && (st.driver == Looking || st.driver == Working || st.driver == Returned || st.driver == Draining
        || st.driver in {Publishing(false), Rechecking(false), Blocked(false)})
    && forall p :: 0 <= p < |st.producers| ==> st.producers[p] == Idle
  }

  /** Then the driver always blocks with its full timeout, and no signal is ever sent. */
  lemma {:induction false} IdleDriverBlocks(run: seq<State>, k: nat)
    requires IsIdleRun(run) && k < |run|
    ensures Untouched(run[k])
    ensures run[k].driver.Blocked? ==> !run[k].driver.zero && !run[k].signal
  {
    if k > 0 {
      IdleDriverBlocks(run, k - 1);
      assert IdleNext(run[k - 1], run[k - 1 + 1]);
    }
  }

  // ---- when the driver sleeps ----

  /** A descriptor to signal on is published exactly from before the second look until the driver is back,
      and the driver does not sleep on work. */
  ghost predicate Sensible(st: State) {
    && (st.wakefd <==> st.driver.Rechecking? || st.driver.Blocked? || st.driver.Returned?)
    && (st.driver in {Publishing(false), Rechecking(false), Blocked(false)} ==> st.asap == [])
  }

  lemma SensibleStep(st: State, e: Event)
    requires Sensible(st) && Enabled(st, e)
    ensures Sensible(Apply(st, e))
  {
  }

  lemma {:induction false} SleepsIdle(run: seq<State>, k: nat)
    requires IsRun(run) && k < |run|
    ensures run[k].wakefd <==> run[k].driver.Rechecking? || run[k].driver.Blocked? || run[k].driver.Returned?
    ensures run[k].driver.Blocked? && !run[k].driver.zero ==> run[k].asap == []
    ensures Sensible(run[k])
  {
    if k > 0 {
      SleepsIdle(run, k - 1);
      assert Next(run[k - 1], run[k - 1 + 1]);
      var e :| Enabled(run[k - 1], e) && run[k] == Apply(run[k - 1], e);
      SensibleStep(run[k - 1], e);
      hide Apply, Enabled;
    }
  }

  /** When the driver goes to sleep, or to work without looking at the list, nobody has put anything on the
      list or has the lock to do so. */
  lemma NothingOverlooked(run: seq<State>, k: nat)
    requires IsRun(run) && k < |run| - 1
    requires || (run[k].driver.Rechecking? && run[k + 1].driver == Blocked(false))
             || (run[k].driver == Looking && run[k + 1].driver == Working)
    ensures run[k].migrate == [] && run[k].imported == run[k].log
    ensures forall p :: 0 <= p < |run[k].producers| ==> !Holding(run[k].producers[p])
  {
    RunInv(run, k);
    assert Next(run[k], run[k + 1]);
    var e :| Enabled(run[k], e) && run[k + 1] == Apply(run[k], e);
    ZeroWord(run[k], e);
  }

  lemma ZeroWord(st: State, e: Event)
    requires Enabled(st, e)
    requires || (st.driver.Rechecking? && Apply(st, e).driver == Blocked(false))
             || (st.driver == Looking && Apply(st, e).driver == Working)
    ensures !st.locked && !st.nonempty
  {
  }

  /** A signal is only taken away by a driver that is back from the kernel, and one that the kernel has not
      reported yet may stay for the next time. */
  lemma SignalKept(run: seq<State>, k: nat)
    requires IsRun(run) && k < |run| - 1
    ensures run[k].signal && !run[k + 1].signal ==> run[k].driver == Draining
    ensures run[k].driver == Draining ==> Next(run[k], run[k].(driver := Looking))
  {
    assert Next(run[k], run[k + 1]);
    if run[k].driver == Draining {
      assert Enabled(run[k], Drain(false)) && Apply(run[k], Drain(false)) == run[k].(driver := Looking);
    }
  }

  // ---- everything comes to rest ----

  /** Somebody has the lock when it is taken. */
  ghost predicate Held(st: State) {
    st.locked ==> DriverHolds(st.driver) || exists p :: 0 <= p < |st.producers| && Holding(st.producers[p])
  }

  lemma HeldStep(st: State, e: Event)
    requires LockOk(st) && Held(st) && Enabled(st, e)
    ensures Held(Apply(st, e))
  {
    var st' := Apply(st, e);
    if st'.locked {
      if e.Step? && st.producers[e.p].Locking? && !st.locked {
        assert Holding(st'.producers[e.p]);
      } else if p :| 0 <= p < |st.producers| && Holding(st.producers[p]) {
        if (e.Step? || e.Hand?) && e.p == p {
          assert Holding(st'.producers[p]);
        } else {
          assert st'.producers[p] == st.producers[p];
        }
      }
    }
  }

  lemma {:induction false} RunHeld(run: seq<State>, k: nat)
    requires IsRun(run) && k < |run|
    ensures Held(run[k])
  {
    if k > 0 {
      RunHeld(run, k - 1);
      RunInv(run, k - 1);
      assert Next(run[k - 1], run[k - 1 + 1]);
      var e :| Enabled(run[k - 1], e) && run[k] == Apply(run[k - 1], e);
      HeldStep(run[k - 1], e);
      hide Held, LockOk, LogOk, WakeOk, Apply, Enabled;
    }
  }

  lemma NowInv(run: seq<State>)
    requires IsRun(run)
    ensures Inv(Last(run)) && Held(Last(run))
  {
    RunInv(run, |run| - 1);
    RunHeld(run, |run| - 1);
  }

  /** The driver gives up the lock if it has it. */
  lemma DriverFrees(run: seq<State>) returns (run': seq<State>)
    requires |run| > 0 && IsRun(run)
    ensures |run'| > 0 && IsRun(run') && run <= run' && !DriverHolds(Last(run').driver)
    ensures |Last(run').producers| == |Last(run).producers|
  {
    hide IsRun;
    run' := run;
    if Last(run').driver.Swapping? {
      Longer(run', Drive);
      run' := run' + [Apply(Last(run'), Drive)];
    }
    if Last(run').driver.Releasing? {
      Longer(run', Drive);
      run' := run' + [Apply(Last(run'), Drive)];
    }
  }

  ghost predicate Others(st: State, st': State, p: nat) {
    && |st'.producers| == |st.producers| && st'.driver == st.driver
    && forall q :: 0 <= q < |st.producers| && q != p ==> st'.producers[q] == st.producers[q]
  }

  /** A producer that has put its handle on the list finishes. */
  lemma Finishes(run: seq<State>, p: nat) returns (run': seq<State>)
    requires |run| > 0 && IsRun(run) && p < |Last(run).producers|
    requires Last(run).producers[p].Unlocking? || Last(run).producers[p].Waking? || Last(run).producers[p].Signalling?
             || Last(run).producers[p] == Idle
    requires Last(run).producers[p].Unlocking? || !Last(run).locked
    ensures |run'| > 0 && IsRun(run') && run <= run' && Others(Last(run), Last(run'), p)
    ensures Last(run').producers[p] == Idle && !Last(run').locked
  {
    hide IsRun, Held;
    run' := run;
    if Last(run').producers[p].Unlocking? {
      Longer(run', Step(p));
      run' := run' + [Apply(Last(run'), Step(p))];
    }
    if Last(run').producers[p].Waking? {
      Longer(run', Step(p));
      run' := run' + [Apply(Last(run'), Step(p))];
    }
    if Last(run').producers[p].Signalling? {
      Longer(run', Step(p));
      run' := run' + [Apply(Last(run'), Step(p))];
    }
  }

  /** A producer that has the lock, or finds it free, goes through. */
  lemma GoesThrough(run: seq<State>, p: nat) returns (run': seq<State>)
    requires |run| > 0 && IsRun(run) && p < |Last(run).producers|
    requires Holding(Last(run).producers[p]) || !Last(run).locked
    ensures |run'| > 0 && IsRun(run') && run <= run' && Others(Last(run), Last(run'), p)
    ensures Last(run').producers[p] == Idle && !Last(run').locked
  {
    hide IsRun;
    run' := run;
    if Last(run').producers[p].Locking? {
      Longer(run', Step(p));
      run' := run' + [Apply(Last(run'), Step(p))];
    }
    if Last(run').producers[p].Pushing? {
      Longer(run', Step(p));
      run' := run' + [Apply(Last(run'), Step(p))];
    }
    run' := Finishes(run', p);
  }

  ghost predicate AllIdle(st: State) { forall p :: 0 <= p < |st.producers| ==> st.producers[p] == Idle }

  lemma {:induction false} AllGoThrough(run: seq<State>, j: nat) returns (run': seq<State>)
    requires |run| > 0 && IsRun(run) && j <= |Last(run).producers| && !Last(run).locked
    requires forall p :: 0 <= p < j ==> Last(run).producers[p] == Idle
    ensures |run'| > 0 && IsRun(run') && run <= run' && AllIdle(Last(run')) && !Last(run').locked
    ensures Last(run').driver == Last(run).driver
    decreases |Last(run).producers| - j
  {
    hide IsRun;
    if j == |Last(run).producers| {
      run' := run;
    } else {
      run' := GoesThrough(run, j);
      run' := AllGoThrough(run', j + 1);
    }
  }

  /** All hand-overs are completed. */
  lemma ProducersRest(run: seq<State>) returns (run': seq<State>)
    requires |run| > 0 && IsRun(run)
    ensures |run'| > 0 && IsRun(run') && run <= run' && AllIdle(Last(run')) && !Last(run').locked
  {
    run' := DriverFrees(run);
    NowInv(run');
    hide IsRun, Inv;
    if Last(run').locked {
      var p :| 0 <= p < |Last(run').producers| && Holding(Last(run').producers[p]);
      run' := GoesThrough(run', p);
    }
    run' := AllGoThrough(run', 0);
  }

  function Rank(d: Driver): nat {
    match d
    case Publishing(_) => 11
    case Rechecking(_) => 10
    case Blocked(_) => 9
    case Returned => 8
    case Draining => 7
    case Looking => 6
    case Importing => 5
    case Swapping => 4
    case Releasing(_) => 3
    case Storing(_) => 2
    case Working => 1
  }

  function Onward(d: Driver): Event {
    match d
    case Blocked(_) => Return
    case Draining => Drain(true)
    case _ => Drive
  }

  lemma OnwardStep(st: State)
    requires AllIdle(st) && (st.locked ==> DriverHolds(st.driver)) && st.driver != Working
    ensures Enabled(st, Onward(st.driver))
    ensures var st' := Apply(st, Onward(st.driver));
            && AllIdle(st') && (st'.locked ==> DriverHolds(st'.driver)) && Rank(st'.driver) < Rank(st.driver)
            && (if st.driver == Draining then !st'.signal else st'.signal == st.signal)
            && (Rank(st.driver) >= 8 ==> Rank(st'.driver) >= 7)
            && (Rank(st.driver) >= 4 && Rank(st'.driver) < 3 ==> !st'.nonempty)
            && (if st.driver.Releasing? then !st'.nonempty else st'.nonempty == st.nonempty)
  {
  }

  /** With nobody else about, the driver goes on to its work; a signal is drained and the list imported on
      the way. */
  lemma {:induction false} ToWork(run: seq<State>) returns (run': seq<State>)
    requires |run| > 0 && IsRun(run) && AllIdle(Last(run)) && (Last(run).locked ==> DriverHolds(Last(run).driver))
    ensures |run'| > 0 && IsRun(run') && run <= run' && AllIdle(Last(run')) && Last(run').driver == Working
    ensures !Last(run').locked
    ensures Rank(Last(run).driver) >= 7 || !Last(run).signal ==> !Last(run').signal
    ensures Rank(Last(run).driver) >= 3 || !Last(run).nonempty ==> !Last(run').nonempty
    decreases Rank(Last(run).driver)
  {
    hide IsRun, AllIdle, Apply, Enabled, Onward;
    var st := Last(run);
    if st.driver == Working {
      run' := run;
    } else {
      OnwardStep(st);
      Longer(run, Onward(st.driver));
      run' := ToWork(run + [Apply(st, Onward(st.driver))]);
    }
  }

  ghost predicate AtRest(st: State) {
    && st.driver == Blocked(false) && !st.signal && !st.locked && AllIdle(st)
    && st.migrate == [] && st.asap == [] && st.imported == st.log
  }

  /** From every reachable state the system can come to rest: all hand-overs completed, everything imported
      and run, the driver blocked with its timeout and no signal pending. */
  lemma CanRest(run: seq<State>) returns (run': seq<State>)
    requires |run| > 0 && IsRun(run)
    ensures |run'| > 0 && IsRun(run') && run <= run' && AtRest(Last(run'))
  {
    run' := ProducersRest(run);
    hide IsRun, AllIdle;
    run' := ToWork(run');
    Longer(run', Choose(true));
    run' := ToWork(run' + [Apply(Last(run'), Choose(true))]);
    Longer(run', Run(|Last(run').asap|));
    run' := run' + [Apply(Last(run'), Run(|Last(run').asap|))];
    run' := Blocks(run');
  }

  lemma Blocks(run: seq<State>) returns (run': seq<State>)
    requires |run| > 0 && IsRun(run) && AllIdle(Last(run)) && Last(run).driver == Working
    requires !Last(run).locked && !Last(run).nonempty && !Last(run).signal && Last(run).asap == []
    ensures |run'| > 0 && IsRun(run') && run <= run' && AtRest(Last(run'))
  {
    NowInv(run);
    hide IsRun;
    Longer(run, Choose(false));
    run' := run + [Apply(Last(run), Choose(false))];
    Longer(run', Drive);
    run' := run' + [Apply(Last(run'), Drive)];
    Longer(run', Drive);
    run' := run' + [Apply(Last(run'), Drive)];
  }

  /** In particular the driver of every initial state can block. */
  lemma CanBlock(st: State) returns (run: seq<State>)
    requires Init(st)
    ensures |run| > 0 && IsRun(run) && run[0] == st && Last(run).driver == Blocked(false)
  {
    assert IsRun([st]);
    run := CanRest([st]);
  }
}
