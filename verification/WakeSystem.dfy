/**
 Waking a driver from other threads.  A thread hands a handle over by taking the driver's spin lock,
 putting the handle on the `migrate_` list, releasing the lock with its non-empty bit set, and then
 signalling if the driver has published a descriptor to signal on.  The driver publishes it, looks at
 the lock word once more, and blocks only if that was zero.  Every load and store is one step and all
 steps interleave.
 */
module WakeSystem {

  datatype Producer =
    | Idle
    | Locking(h: nat)
    | Pushing(h: nat)
    | Unlocking(h: nat)
    | Waking(h: nat)
    | Signalling(h: nat)

  /** `zero` is a timeout of zero.  `Importing` to `Storing` is `finish_migrate`. */
  datatype Driver =
    | Looking
    | Importing
    | Swapping
    | Releasing(taken: seq<nat>)
    | Storing(taken: seq<nat>)
    | Working
    | Publishing(zero: bool)
    | Rechecking(zero: bool)
    | Blocked(zero: bool)
    | Returned
    | Draining

  /** `lockWord` is `lock_`; `wakefd` says that one is published; `signal` that the kernel has a wake-up
      for the driver.  `imported` is all that ever reached `asap_`, in order, `log` all that was ever put
      on `migrate_`; `asap` is what is still to run. */
  datatype State = State(
    locked: bool, nonempty: bool, migrate: seq<nat>, wakefd: bool, signal: bool,
    driver: Driver, producers: seq<Producer>, asap: seq<nat>, imported: seq<nat>, log: seq<nat>)

  datatype Event =
    | Hand(p: nat, h: nat)
    | Step(p: nat)
    | Drive
    | Choose(zero: bool)
    | Run(n: nat)
    | Return
    | Drain(seen: bool)

  predicate Init(st: State) {
    && !st.locked && !st.nonempty && st.migrate == [] && !st.wakefd && !st.signal && st.driver == Looking
    && st.asap == [] && st.imported == [] && st.log == []
    && forall p :: 0 <= p < |st.producers| ==> st.producers[p] == Idle
  }

  /** The lock word is not zero. */
  predicate Busy(st: State) { st.locked || st.nonempty }

  /** A driver blocked with a timeout comes back on a signal or anything else the kernel reports. */
  predicate Enabled(st: State, e: Event) {
    match e
    case Hand(p, _) => p < |st.producers| && st.producers[p] == Idle
    case Step(p) => p < |st.producers| && st.producers[p] != Idle
    case Drive => !st.driver.Working? && !st.driver.Blocked? && !st.driver.Draining?
    case Choose(zero) => st.driver.Working? && (zero || st.asap == [])
    case Run(n) => st.driver.Working? && n <= |st.asap|
    case Return => st.driver.Blocked?
    case Drain(seen) => st.driver.Draining?
  }

  function At(st: State, p: nat, s: Producer): State
    requires p < |st.producers|
  {
    st.(producers := st.producers[p := s])
  }

  function StepProducer(st: State, p: nat): State
    requires p < |st.producers|
  {
    match st.producers[p]
    case Idle => st
    case Locking(h) => if st.locked then st else At(st.(locked := true), p, Pushing(h))
    case Pushing(h) => At(st.(migrate := st.migrate + [h], log := st.log + [h]), p, Unlocking(h))
    case Unlocking(h) => At(st.(locked := false, nonempty := true), p, Waking(h))
    case Waking(h) => if st.wakefd then At(st, p, Signalling(h)) else At(st, p, Idle)
    case Signalling(_) => At(st.(signal := true), p, Idle)
  }

  function StepDriver(st: State): State {
    match st.driver
    case Looking => if Busy(st) then st.(driver := Importing) else st.(driver := Working)
    case Importing => if st.locked then st else st.(locked := true, driver := Swapping)
    case Swapping => st.(migrate := [], driver := Releasing(st.migrate))
    case Releasing(taken) => st.(locked := false, nonempty := false, driver := Storing(taken))
    case Storing(taken) => st.(asap := st.asap + taken, imported := st.imported + taken, driver := Working)
    case Publishing(zero) => st.(wakefd := true, driver := Rechecking(zero))
    case Rechecking(zero) => st.(driver := Blocked(zero || Busy(st)))
    case Returned => st.(wakefd := false, driver := Draining)
    case _ => st
  }

  function Apply(st: State, e: Event): State
    requires Enabled(st, e)
  {
    match e
    case Hand(p, h) => At(st, p, Locking(h))
    case Step(p) => StepProducer(st, p)
    case Drive => StepDriver(st)
    case Choose(zero) => st.(driver := Publishing(zero))
    case Run(n) => st.(asap := st.asap[n..])
    case Return => st.(driver := Returned)
    case Drain(seen) => st.(signal := if seen then false else st.signal, driver := Looking)
  }

  ghost predicate Next(st: State, st': State) {
    exists e :: Enabled(st, e) && st' == Apply(st, e)
  }

  ghost predicate IsRun(run: seq<State>) {
    |run| > 0 && Init(run[0]) && forall k :: 0 <= k < |run| - 1 ==> Next(run[k], run[k + 1])
  }

  // ---- the invariant ----

  predicate Holding(s: Producer) { s.Pushing? || s.Unlocking? }

  predicate DriverHolds(d: Driver) { d.Swapping? || d.Releasing? }

  /** Producer `p` has put `h` on the list and has yet to signal. */
  predicate Telling(s: Producer, h: nat) {
    s == Unlocking(h) || s == Waking(h) || s == Signalling(h)
  }

  /** The lock word says whether somebody holds the lock, and only one does. */
  ghost predicate LockOk(st: State) {
    && (forall p :: 0 <= p < |st.producers| && Holding(st.producers[p]) ==> st.locked)
    && (DriverHolds(st.driver) ==> st.locked)
    && (forall p, q :: (0 <= p < |st.producers| && 0 <= q < |st.producers| && Holding(st.producers[p])
                        && Holding(st.producers[q])) ==> p == q)
    && (forall p :: 0 <= p < |st.producers| && Holding(st.producers[p]) ==> !DriverHolds(st.driver))
    && (st.migrate != [] ==> Busy(st))
    && (st.driver.Releasing? ==> st.migrate == [])
  }

  function InFlight(d: Driver): seq<nat> {
    match d
    case Releasing(taken) => taken
    case Storing(taken) => taken
    case _ => []
  }

  /** Nothing is lost, repeated or reordered between the producers and `asap_`. */
  ghost predicate LogOk(st: State) {
    st.log == st.imported + InFlight(st.driver) + st.migrate
  }

  /** What is not imported while the driver is blocked will wake it. */
  ghost predicate WakeOk(st: State) {
    && (st.driver.Rechecking? || st.driver.Blocked? ==> st.wakefd)
    && (st.driver.Blocked? && !st.driver.zero ==> forall h :: h in st.migrate ==> Woken(st, h))
  }

  ghost predicate Woken(st: State, h: nat) {
    st.signal || exists p :: 0 <= p < |st.producers| && Telling(st.producers[p], h)
  }

  ghost predicate Inv(st: State) { LockOk(st) && LogOk(st) && WakeOk(st) }

  lemma ProducerWakes(st: State, p: nat)
    requires Inv(st) && p < |st.producers| && st.producers[p] != Idle
    ensures WakeOk(StepProducer(st, p))
  {
    var st' := StepProducer(st, p);
    if st'.driver.Blocked? && !st'.driver.zero {
      forall h | h in st'.migrate ensures Woken(st', h) {
        if st.producers[p] == Pushing(h) {
          assert Telling(st'.producers[p], h);
        } else {
          assert h in st.migrate && Woken(st, h);
          if !st.signal {
            var q :| 0 <= q < |st.producers| && Telling(st.producers[q], h);
            if q != p || st'.producers[p] != Idle { assert Telling(st'.producers[q], h); }
          }
        }
      }
    }
  }

  lemma ProducerInv(st: State, p: nat)
    requires Inv(st) && p < |st.producers| && st.producers[p] != Idle
    ensures Inv(StepProducer(st, p))
  {
    ProducerWakes(st, p);
    hide WakeOk;
  }

  lemma DriverLock(st: State, e: Event)
    requires LockOk(st) && Enabled(st, e) && !e.Hand? && !e.Step?
    ensures LockOk(Apply(st, e))
  {
    hide StepDriver;
    if e.Drive? { DriveLock(st); }
  }

  lemma DriveLock(st: State)
    requires LockOk(st)
    ensures LockOk(StepDriver(st))
  {
  }

  lemma DriverLog(st: State, e: Event)
    requires LogOk(st) && Enabled(st, e) && !e.Hand? && !e.Step? && (st.driver.Releasing? ==> st.migrate == [])
    ensures LogOk(Apply(st, e))
  {
    hide StepDriver;
    if e.Drive? { DriveLog(st); }
  }

  lemma DriveLog(st: State)
    requires LogOk(st) && (st.driver.Releasing? ==> st.migrate == [])
    ensures LogOk(StepDriver(st))
  {
    hide Busy;
    if st.driver.Storing? {
      assert st.log == st.imported + st.driver.taken + st.migrate;
    }
  }

  lemma DriverWake(st: State, e: Event)
    requires LockOk(st) && WakeOk(st) && Enabled(st, e) && !e.Hand? && !e.Step?
    ensures WakeOk(Apply(st, e))
  {
    if e.Drive? && st.driver.Rechecking? && !Busy(st) { assert st.migrate == []; }
  }

  lemma DriverInv(st: State, e: Event)
    requires Inv(st) && Enabled(st, e) && !e.Hand? && !e.Step?
    ensures Inv(Apply(st, e))
  {
    DriverLock(st, e);
    DriverLog(st, e);
    DriverWake(st, e);
    hide LockOk, LogOk, WakeOk, Apply;
  }

  lemma HandInv(st: State, p: nat, h: nat)
    requires Inv(st) && Enabled(st, Hand(p, h))
    ensures Inv(Apply(st, Hand(p, h)))
  {
    var st' := Apply(st, Hand(p, h));
    forall x | x in st.migrate && Woken(st, x) ensures Woken(st', x) {
      if !st.signal {
        var q :| 0 <= q < |st.producers| && Telling(st.producers[q], x);
        assert Telling(st'.producers[q], x);
      }
    }
  }

  lemma {:induction false} RunInv(run: seq<State>, k: nat)
    requires IsRun(run) && k < |run|
    ensures Inv(run[k])
  {
    if k > 0 {
      RunInv(run, k - 1);
      assert Next(run[k - 1], run[k - 1 + 1]);
      var e :| Enabled(run[k - 1], e) && run[k] == Apply(run[k - 1], e);
      hide Inv, Apply, Enabled;
      match e
      case Hand(p, h) => HandInv(run[k - 1], p, h);
      case Step(p) => StepIs(run[k - 1], p);
      case _ => DriverInv(run[k - 1], e);
    }
  }

  lemma StepIs(st: State, p: nat)
    requires Inv(st) && Enabled(st, Step(p))
    ensures Inv(Apply(st, Step(p)))
  {
    ProducerInv(st, p);
  }

  // ---- the results ----

  /** A driver never stays blocked for long while a handle whose hand-over is complete has not been
      imported, unless a signal is pending that will bring it back. */
  lemma NoLostWake(run: seq<State>, k: nat, h: nat)
    requires IsRun(run) && k < |run| && run[k].driver.Blocked? && !run[k].driver.zero && h in run[k].migrate
    requires forall p :: 0 <= p < |run[k].producers| ==> !Telling(run[k].producers[p], h)
    ensures run[k].signal
  {
    RunInv(run, k);
    assert Woken(run[k], h);
  }

  /** Every handle handed over reaches `asap_` exactly once, in the order of the hand-overs: what has been
      imported is a prefix of what was handed over, and the rest is still on its way. */
  lemma OnceInOrder(run: seq<State>, k: nat)
    requires IsRun(run) && k < |run|
    ensures run[k].imported <= run[k].log
    ensures run[k].log[|run[k].imported|..] == InFlight(run[k].driver) + run[k].migrate
  {
    RunInv(run, k);
    var st := run[k];
    assert st.log == st.imported + (InFlight(st.driver) + st.migrate);
  }

  /** What the driver has got hold of. */
  function Got(st: State): seq<nat> { st.imported + InFlight(st.driver) }

  lemma DriveGot(st: State)
    requires LogOk(st)
    ensures Got(st) <= Got(StepDriver(st)) && StepDriver(st).log == st.log
    ensures st.driver.Swapping? ==> Got(StepDriver(st)) == st.log && StepDriver(st).driver.Releasing?
  {
    hide Busy;
    if st.driver.Storing? {
      assert Got(StepDriver(st)) == Got(st);
    } else if st.driver.Swapping? {
      assert st.imported + [] == st.imported;
    }
  }

  lemma StepGot(st: State, e: Event)
    requires LogOk(st) && Enabled(st, e)
    ensures Got(st) <= Got(Apply(st, e)) && st.log <= Apply(st, e).log
    ensures st.driver.Swapping? && !Apply(st, e).driver.Swapping? ==> Got(Apply(st, e)) == st.log
  {
    hide LogOk, StepDriver;
    if e.Drive? {
      DriveGot(st);
    }
  }

  lemma PrefixTrans(a: seq<nat>, b: seq<nat>, c: seq<nat>)
    requires a <= b && b <= c
    ensures a <= c
  {
  }

  /** A driver that has got the lock imports all that has been handed over by then, whatever the other
      threads do meanwhile: it is in `asap_` when the driver gets to work. */
  lemma {:induction false} ImportsAll(run: seq<State>, j: nat, k: nat)
    requires IsRun(run) && j <= k < |run| && run[j].driver.Swapping?
    ensures run[j].log <= run[k].log && (run[k].driver.Swapping? || run[j].log <= Got(run[k]))
    ensures run[k].driver.Working? ==> run[j].log <= run[k].imported
    decreases k
  {
    hide Apply, Enabled, LockOk, WakeOk, LogOk, Init;
    if j < k {
      var st, st' := run[k - 1], run[k - 1 + 1];
      ImportsAll(run, j, k - 1);
      RunInv(run, k - 1);
      assert Next(st, st');
      var e :| Enabled(st, e) && st' == Apply(st, e);
      StepGot(st, e);
      hide Got;
      PrefixTrans(run[j].log, st.log, st'.log);
      if !st.driver.Swapping? {
        PrefixTrans(run[j].log, Got(st), Got(st'));
      }
    }
    InFlightAtWork(run[k]);
  }

  lemma InFlightAtWork(st: State)
    ensures st.driver.Working? ==> Got(st) == st.imported
  {
  }

  // ---- why the driver looks twice ----

  /** The driver without its second look: having published the descriptor it blocks at once. */
  function HastyApply(st: State, e: Event): State
    requires Enabled(st, e)
  {
    if e.Drive? && st.driver.Publishing? then st.(wakefd := true, driver := Blocked(st.driver.zero)) else Apply(st, e)
  }

  ghost predicate HastyNext(st: State, st': State) {
    exists e :: Enabled(st, e) && st' == HastyApply(st, e)
  }

  ghost predicate IsHastyRun(run: seq<State>) {
    |run| > 0 && Init(run[0]) && forall k :: 0 <= k < |run| - 1 ==> HastyNext(run[k], run[k + 1])
  }

  /** Nobody is about to signal, and yet there is something to import. */
  ghost predicate Stranded(st: State) {
    && st.driver == Blocked(false) && st.migrate != [] && !st.signal
    && forall p :: 0 <= p < |st.producers| ==> st.producers[p] == Idle
  }

  lemma HastyMore(run: seq<State>, e: Event)
    requires IsHastyRun(run) && Enabled(run[|run| - 1], e)
    ensures IsHastyRun(run + [HastyApply(run[|run| - 1], e)])
  {
    hide HastyApply, Enabled, Init;
    var run' := run + [HastyApply(run[|run| - 1], e)];
    forall k | 0 <= k < |run'| - 1 ensures HastyNext(run'[k], run'[k + 1]) {
      if k < |run| - 1 { assert HastyNext(run[k], run[k + 1]); }
    }
  }

  /** The lock word has been found zero, and the descriptor is about to be published. */
  lemma HastyDriver() returns (run: seq<State>)
    ensures IsHastyRun(run)
    ensures run[|run| - 1] == State(false, false, [], false, false, Publishing(false), [Idle], [], [], [])
  {
    run := [State(false, false, [], false, false, Looking, [Idle], [], [], [])];
    HastyMore(run, Drive);
    run := run + [HastyApply(run[|run| - 1], Drive)];
    HastyMore(run, Choose(false));
    run := run + [HastyApply(run[|run| - 1], Choose(false))];
  }

  /** A hand-over in between finds no descriptor to signal on. */
  lemma HandedBetween(h: nat) returns (run: seq<State>)
    ensures IsHastyRun(run)
    ensures run[|run| - 1] == State(false, true, [h], false, false, Publishing(false), [Idle], [], [], [h])
  {
    hide IsHastyRun;
    run := HastyDriver();
    HastyMore(run, Hand(0, h));
    run := run + [HastyApply(run[|run| - 1], Hand(0, h))];
    HastyMore(run, Step(0));
    run := run + [HastyApply(run[|run| - 1], Step(0))];
    HastyMore(run, Step(0));
    run := run + [HastyApply(run[|run| - 1], Step(0))];
    HastyMore(run, Step(0));
    run := run + [HastyApply(run[|run| - 1], Step(0))];
    HastyMore(run, Step(0));
    run := run + [HastyApply(run[|run| - 1], Step(0))];
  }

  /** The second look at the lock word is needed: without it a run strands a handle, and with it no run
      does. */
  lemma RecheckMatters(h: nat)
    ensures exists run: seq<State> :: IsHastyRun(run) && Stranded(run[|run| - 1])
    ensures forall run: seq<State> :: IsRun(run) ==> !Stranded(run[|run| - 1])
  {
    var run := HandedBetween(h);
    HastyMore(run, Drive);
    var run' := run + [HastyApply(run[|run| - 1], Drive)];
    assert IsHastyRun(run') && Stranded(run'[|run'| - 1]);
    forall r: seq<State> | IsRun(r) ensures !Stranded(r[|r| - 1]) {
      RunInv(r, |r| - 1);
      if Stranded(r[|r| - 1]) {
        NoLostWake(r, |r| - 1, r[|r| - 1].migrate[0]);
      }
    }
  }

  // ---- the object ----

  /** The driver as a thread sees it when no other interferes; `st` is the same driver in the system of
      all threads, with one producer. */
  class DriverObject {
    var lockBit: bool
    var nonempty: bool
    var migrate: seq<nat>
    var wakefd: bool
    var signal: bool
    var asap: seq<nat>
    ghost var st: State

    ghost predicate Linked()
      reads this
    {
      && Inv(st) && |st.producers| == 1
      && st.locked == lockBit && st.nonempty == nonempty && st.migrate == migrate && st.wakefd == wakefd
      && st.signal == signal && st.asap == asap
    }

    ghost method Advance(e: Event)
      requires Inv(st) && Enabled(st, e)
      modifies this`st
      ensures st == Apply(old(st), e) && Inv(st)
    {
      match e {
        case Hand(p, h) => HandInv(st, p, h);
        case Step(p) => StepIs(st, p);
        case _ => DriverInv(st, e);
      }
      st := Apply(st, e);
    }

    /** `migrate_wake`. */
    method MigrateWake(ghost h: nat)
      requires Linked() && st.producers == [Waking(h)]
      modifies this`signal, this`st
      ensures Linked() && st.producers == [Idle] && signal == (old(signal) || wakefd) && st.driver == old(st).driver
    {
      hide Inv, Enabled;
      StepsOn();
      var published := wakefd;
      Advance(Step(0));
      if published {
        StepsOn();
        signal := true;
        Advance(Step(0));
      }
    }

    lemma StepsOn()
      requires |st.producers| == 1
      ensures st.producers[0] != Idle ==> Enabled(st, Step(0))
    {
    }

    /** `migrate_asap`. */
    method MigrateAsap(h: nat)
      requires Linked() && !lockBit && st.producers == [Idle]
      modifies this
      ensures Linked() && !lockBit && st.producers == [Idle]
      ensures migrate == old(migrate) + [h] && nonempty && signal == (old(signal) || wakefd)
      ensures wakefd == old(wakefd) && asap == old(asap) && st.driver == old(st).driver
    {
      hide Inv;
      Advance(Hand(0, h));
      lockBit := true;
      Advance(Step(0));
      migrate := migrate + [h];
      Advance(Step(0));
      lockBit, nonempty := false, true;
      Advance(Step(0));
      MigrateWake(h);
    }

    /** `finish_migrate`. */
    method FinishMigrate()
      requires Linked() && !lockBit && st.driver == Importing
      modifies this
      ensures Linked() && !lockBit && st.driver == Working
      ensures asap == old(asap) + old(migrate) && migrate == [] && !nonempty
    {
      hide Inv;
      lockBit := true;
      Advance(Drive);
      var taken := migrate;
      migrate := [];
      Advance(Drive);
      lockBit, nonempty := false, false;
      Advance(Drive);
      asap := asap + taken;
      Advance(Drive);
    }

    /** The top of the loop: `finish_migrate` when the lock word is not zero. */
    method Import()
      requires Linked() && !lockBit && st.driver == Looking
      modifies this
      ensures Linked() && !lockBit && st.driver == Working
      ensures asap == (if old(nonempty) then old(asap) + old(migrate) else old(asap))
      ensures migrate == [] && !nonempty && st.imported == st.log
    {
      hide Inv;
      Migrated();
      Advance(Drive);
      if nonempty {
        FinishMigrate();
      }
      Migrated();
    }

    lemma Migrated()
      requires Linked()
      ensures migrate != [] ==> lockBit || nonempty
      ensures (st.driver == Looking || st.driver == Working) && migrate == [] ==> st.imported == st.log
    {
    }
  }
}
