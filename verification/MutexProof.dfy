/** The invariant of the mutex and what it gives: exclusion, order, and no lost wake-up. */
module MutexProof {
  import opened MutexSystem

  function Sum(exclusives: set<nat>, sharers: set<nat>): nat {
    LOCK_SHARED * |sharers| + LOCK_EXCL * |exclusives|
  }

  /** What the word must say about the owners. */
  function Held(st: State): nat { Sum(st.exclusives, st.sharers) }

  ghost predicate OwnersFit(exclusives: set<nat>, sharers: set<nat>, granted: set<nat>, kinds: seq<Kind>) {
    && (forall r :: r in exclusives ==> r in granted && r < |kinds| && kinds[r].Exclusive?)
    && (forall r :: r in sharers ==> r in granted && r < |kinds| && kinds[r].Shared?)
    && |exclusives| <= 1
    && (exclusives != {} ==> sharers == {})
  }

  ghost predicate OwnersOk(st: State) {
    OwnersFit(st.exclusives, st.sharers, st.granted, st.kinds)
  }

  predicate Accounted(granted: set<nat>, queue: seq<nat>, dead: set<nat>, r: nat) {
    r in granted || r in queue || r in dead
  }

  /** Requests wait in order of arrival, behind everything that was ever granted, and none is lost. */
  ghost predicate InOrder(queue: seq<nat>, granted: set<nat>, dead: set<nat>, arrived: nat) {
    && (forall i, j :: 0 <= i < j < |queue| ==> queue[i] < queue[j])
    && (forall r :: r in queue || r in granted || r in dead ==> r < arrived)
    && (forall g, q :: g in granted && q in queue ==> g < q)
    && (forall r :: r in granted ==> r !in dead)
    && (forall r :: 0 <= r < arrived ==> Accounted(granted, queue, dead, r))
  }

  ghost predicate QueueOk(st: State) {
    InOrder(st.queue, st.granted, st.dead, |st.kinds|)
  }

  ghost predicate FrontBlocked(st: State) {
    st.queue != [] ==> st.queue[0] < |st.kinds| && !Allow(st.kinds[st.queue[0]], Held(st))
  }

  ghost predicate WordOk(st: State) {
    && (Latched(st.word) ==> exists t :: 0 <= t < |st.pcs| && InSection(st.pcs[t]))
    && (!Latched(st.word) ==>
          && (st.queue != [] ==> st.queue[0] < |st.kinds|)
          && st.word == Held(st) + NextBits(st.queue, st.kinds)
          && FrontBlocked(st))
  }

  ghost predicate OwnerOf(st: State, r: nat) { r < |st.kinds| && Owner(st, r) }

  ghost predicate PcOk(st: State, pc: Pc) {
    match pc
    case Idle => true
    case Latching(op) => op.Release? ==> OwnerOf(st, op.r)
    case LatchSwap(op, l) =>
      !Latched(l) && (op.Release? ==> OwnerOf(st, op.r) && WithoutNext(l) >= Amount(st.kinds[op.r]))
    case UnlockLoad(r) => OwnerOf(st, r)
    case UnlockSwap(r, l) => OwnerOf(st, r) && Fast(st.kinds[r], l) && l >= Amount(st.kinds[r])
    case TrySharedSwap(l) => l % LOCK_SHARED == 0
    case Notify(op, l) => l == Held(st)
    case Grant(op, l) => l == Held(st) && st.queue != [] && st.queue[0] < |st.kinds| && Allow(st.kinds[st.queue[0]], l)
    case Place(k, l) => l == Held(st) && FrontBlocked(st)
    case Store(l) => l == Held(st) && FrontBlocked(st)
  }

  ghost predicate PcsOk(st: State) {
    && (forall t :: 0 <= t < |st.pcs| ==> PcOk(st, st.pcs[t]) && (InSection(st.pcs[t]) ==> Latched(st.word)))
    && (forall t, t' :: 0 <= t < |st.pcs| && 0 <= t' < |st.pcs| && InSection(st.pcs[t]) && InSection(st.pcs[t']) ==>
          t == t')
    && (forall t, t', r ::
          (0 <= t < |st.pcs| && 0 <= t' < |st.pcs| && Releasing(st.pcs[t], r) && Releasing(st.pcs[t'], r)) ==> t == t')
  }

  ghost predicate Inv(st: State) {
    OwnersOk(st) && QueueOk(st) && WordOk(st) && PcsOk(st)
  }

  lemma InitInv(st: State)
    requires Init(st)
    ensures Inv(st)
  {
  }

  // ---- reading the word ----

  lemma UpperBits(k: nat, n: nat, w: nat)
    requires n in {0, NEXT_EXCL, NEXT_SHARED} && w == 8 * k + n
    ensures w / 8 == k && w / 4 == 2 * k + n / 4 && w / 2 == 4 * k + n / 2 && w % 2 == 0
  {
  }

  lemma NextExclBit(k: nat, n: nat)
    requires n in {0, NEXT_EXCL, NEXT_SHARED}
    ensures (4 * k + n / 2) % 2 == 1 <==> n == NEXT_EXCL
  {
    assert 4 * k + n / 2 == 2 * (2 * k) + n / 2;
  }

  lemma NextSharedBit(k: nat, n: nat)
    requires n in {0, NEXT_EXCL, NEXT_SHARED}
    ensures (2 * k + n / 4) % 2 == 1 <==> n == NEXT_SHARED
  {
  }

  lemma OwnerBits(s: nat, x: nat, n: nat, w: nat)
    requires x <= 1 && n in {0, NEXT_EXCL, NEXT_SHARED} && w == LOCK_SHARED * s + LOCK_EXCL * x + n
    ensures (2 * s + x) % 2 == x && w % LOCK_SHARED == LOCK_EXCL * x + n
  {
  }

  /** The arithmetic of the word: what its bits say of the owners and of the head of the queue. */
  lemma Bits(s: nat, x: nat, n: nat, w: nat)
    requires x <= 1 && n in {0, NEXT_EXCL, NEXT_SHARED} && w == LOCK_SHARED * s + LOCK_EXCL * x + n
    ensures !Latched(w) && (HasExcl(w) <==> x == 1) && WithoutNext(w) == LOCK_SHARED * s + LOCK_EXCL * x
    ensures HasNextExcl(w) <==> n == NEXT_EXCL
    ensures HasNextShared(w) <==> n == NEXT_SHARED
    ensures w % LOCK_SHARED == LOCK_EXCL * x + n
  {
    UpperBits(2 * s + x, n, w);
    NextExclBit(2 * s + x, n);
    NextSharedBit(2 * s + x, n);
    OwnerBits(s, x, n, w);
  }

  lemma WordBits(st: State)
    requires OwnersOk(st) && WordOk(st) && !Latched(st.word)
    ensures HasExcl(st.word) <==> st.exclusives != {}
    ensures WithoutNext(st.word) == Held(st)
    ensures st.queue == [] <==> !HasNextExcl(st.word) && !HasNextShared(st.word)
    ensures st.queue != [] ==> (HasNextShared(st.word) <==> st.kinds[st.queue[0]].Shared?)
    ensures st.word % LOCK_SHARED == 0 ==> st.queue == [] && st.exclusives == {}
    ensures st.word == Held(st) + NextBits(st.queue, st.kinds)
  {
    Bits(|st.sharers|, |st.exclusives|, NextBits(st.queue, st.kinds), st.word);
  }

  lemma AllowMeans(st: State, k: Kind)
    requires OwnersOk(st)
    ensures Allow(k, Held(st)) <==> st.exclusives == {} && (k.Exclusive? ==> st.sharers == {})
  {
    Bits(|st.sharers|, |st.exclusives|, 0, Held(st));
  }

  // ---- owners come and go ----

  lemma OwnHeld(st: State, r: nat, k: Kind)
    requires OwnersOk(st) && r !in st.granted && r < |st.kinds| && st.kinds[r] == k && Allow(k, Held(st))
    ensures OwnersOk(Own(st, r, k)) && Held(Own(st, r, k)) == Held(st) + Amount(k)
  {
    AllowMeans(st, k);
  }

  lemma DisownHeld(st: State, r: nat)
    requires OwnersOk(st) && OwnerOf(st, r)
    ensures OwnersOk(Disown(st, r)) && Held(Disown(st, r)) == Held(st) - Amount(st.kinds[r])
    ensures Held(st) >= Amount(st.kinds[r])
  {
    if st.kinds[r].Shared? {
      assert st.exclusives - {r} == st.exclusives;
    } else {
      assert st.sharers - {r} == st.sharers;
    }
  }

  // ---- steps ----

  /** A thread outside the section keeps its facts as long as it keeps its lock. */
  lemma FreePc(st: State, st': State, pc: Pc)
    requires PcOk(st, pc) && !InSection(pc) && st.kinds <= st'.kinds
    requires forall r :: Releasing(pc, r) && OwnerOf(st, r) ==> OwnerOf(st', r)
    ensures PcOk(st', pc)
  {
    match pc
    case Latching(op) => if op.Release? { assert Releasing(pc, op.r); }
    case LatchSwap(op, l) => if op.Release? { assert Releasing(pc, op.r); }
    case UnlockLoad(r) => assert Releasing(pc, r);
    case UnlockSwap(r, l) => assert Releasing(pc, r);
    case _ =>
  }

  /** Thread `t` goes on to `pc`; nobody else is inside the section, or nothing but `pcs` changes. */
  lemma Moved(st: State, st': State, t: nat, pc: Pc)
    requires Inv(st) && t < |st.pcs| && st'.pcs == st.pcs[t := pc]
    requires OwnersOk(st') && QueueOk(st') && WordOk(st') && PcOk(st', pc)
    requires st.kinds <= st'.kinds
    requires forall r :: OwnerOf(st, r) && !OwnerOf(st', r) ==> Releasing(st.pcs[t], r)
    requires forall r :: Releasing(pc, r) ==> Releasing(st.pcs[t], r)
    requires InSection(pc) ==> Latched(st'.word)
    requires InSection(st.pcs[t]) || !Latched(st.word) || (!InSection(pc) && st' == st.(pcs := st'.pcs))
    ensures Inv(st')
  {
    hide WordOk, OwnersOk, QueueOk;
    forall t' | 0 <= t' < |st'.pcs| ensures PcOk(st', st'.pcs[t']) && (InSection(st'.pcs[t']) ==> Latched(st'.word)) {
      if t' != t && !InSection(st.pcs[t']) {
        FreePc(st, st', st.pcs[t']);
      }
    }
  }

  lemma StillLatched(st: State, t: nat, pc: Pc)
    requires WordOk(st) && t < |st.pcs| && (InSection(st.pcs[t]) ==> InSection(pc))
    ensures WordOk(At(st, t, pc))
  {
    var st' := At(st, t, pc);
    if Latched(st.word) {
      var u :| 0 <= u < |st.pcs| && InSection(st.pcs[u]);
      assert InSection(st'.pcs[u]);
    }
  }

  /** Steps that only move the thread. */
  lemma Plain(st: State, t: nat, pc: Pc)
    requires Inv(st) && t < |st.pcs| && !InSection(st.pcs[t]) && !InSection(pc) && PcOk(st, pc)
    requires forall r :: Releasing(pc, r) ==> Releasing(st.pcs[t], r)
    ensures Inv(At(st, t, pc))
  {
    StillLatched(st, t, pc);
    Moved(st, At(st, t, pc), t, pc);
  }

  lemma LatchBit(w: nat)
    requires !Latched(w)
    ensures Latched(w + LATCH)
  {
  }

  lemma LatchSwapInv(st: State, t: nat)
    requires Inv(st) && t < |st.pcs| && st.pcs[t].LatchSwap? && st.word == st.pcs[t].l && WellSized(st)
    requires StepEnabled(st, t)
    ensures Inv(StepOf(st, t, false))
  {
    hide InOrder, OwnersFit, Sum, Latched, WithoutNext, HasExcl, HasNextExcl, HasNextShared;
    var op, l, st' := st.pcs[t].op, st.pcs[t].l, StepOf(st, t, false);
    assert PcOk(st, st.pcs[t]);
    WordBits(st);
    if op.Release? { DisownHeld(st, op.r); assert Releasing(st.pcs[t], op.r); }
    LatchBit(l);
    assert InSection(st'.pcs[t]);
    Moved(st, st', t, st'.pcs[t]);
  }

  lemma NotifyInv(st: State, t: nat)
    requires Inv(st) && t < |st.pcs| && st.pcs[t].Notify? && WellSized(st)
    ensures Inv(StepOf(st, t, false))
  {
    var st' := StepOf(st, t, false);
    assert PcOk(st, st.pcs[t]);
    assert InSection(st.pcs[t]) && InSection(st'.pcs[t]);
    assert st'.pcs == st.pcs[t := st'.pcs[t]];
    if st.queue != [] && st.queue[0] in st.dead {
      PopDead(st);
    }
    Moved(st, st', t, st'.pcs[t]);
  }

  lemma GrantInv(st: State, t: nat)
    requires Inv(st) && t < |st.pcs| && st.pcs[t].Grant? && WellSized(st) && StepEnabled(st, t)
    ensures Inv(StepOf(st, t, false))
  {
    hide Allow, OwnersFit, InOrder, Sum;
    var r, st' := st.queue[0], StepOf(st, t, false);
    assert PcOk(st, st.pcs[t]);
    assert InSection(st.pcs[t]) && InSection(st'.pcs[t]) && Latched(st'.word);
    if r in st.dead {
      PopDead(st);
    } else {
      PopGranted(st);
      OwnHeld(st, r, st.kinds[r]);
    }
    Moved(st, st', t, st'.pcs[t]);
  }

  lemma PlaceInv(st: State, t: nat)
    requires Inv(st) && t < |st.pcs| && st.pcs[t].Place? && WellSized(st)
    ensures Inv(StepOf(st, t, false))
  {
    hide Allow, OwnersFit, InOrder, Sum, Latched;
    var k, st' := st.pcs[t].kind, StepOf(st, t, false);
    assert PcOk(st, st.pcs[t]);
    assert InSection(st.pcs[t]) && InSection(st'.pcs[t]);
    if st.queue == [] && Allow(k, Held(st)) {
      ArriveOk(st, k);
    } else {
      QueuePush(st, k);
      MoreKinds(st, k);
    }
    Moved(st, st', t, st'.pcs[t]);
  }

  lemma BehindHead(queue: seq<nat>)
    requires queue != [] && forall i, j :: 0 <= i < j < |queue| ==> queue[i] < queue[j]
    ensures queue[0] in queue
    ensures forall x :: x in queue <==> x == queue[0] || x in queue[1..]
    ensures forall x :: x in queue[1..] ==> queue[0] < x
    ensures forall i, j :: 0 <= i < j < |queue[1..]| ==> queue[1..][i] < queue[1..][j]
  {
    forall x | x in queue[1..] ensures queue[0] < x {
      var i :| 0 <= i < |queue[1..]| && queue[1..][i] == x;
      assert queue[i + 1] == x;
    }
  }

  lemma PopDead(st: State)
    requires QueueOk(st) && st.queue != [] && st.queue[0] in st.dead
    ensures QueueOk(st.(queue := st.queue[1..]))
  {
    BehindHead(st.queue);
    forall x | 0 <= x < |st.kinds| ensures Accounted(st.granted, st.queue[1..], st.dead, x) {
      assert Accounted(st.granted, st.queue, st.dead, x);
    }
  }

  lemma PopGranted(st: State)
    requires QueueOk(st) && st.queue != [] && st.queue[0] !in st.dead
    ensures st.queue[0] < |st.kinds| && st.queue[0] !in st.granted
    ensures QueueOk(Own(st.(queue := st.queue[1..]), st.queue[0], st.kinds[st.queue[0]]))
  {
    BehindHead(st.queue);
    forall x | 0 <= x < |st.kinds| ensures Accounted(st.granted + {st.queue[0]}, st.queue[1..], st.dead, x) {
      assert Accounted(st.granted, st.queue, st.dead, x);
    }
  }

  lemma QueuePush(st: State, k: Kind)
    requires QueueOk(st)
    ensures QueueOk(st.(queue := st.queue + [|st.kinds|], kinds := st.kinds + [k]))
  {
    var st' := st.(queue := st.queue + [|st.kinds|], kinds := st.kinds + [k]);
    assert forall x :: x in st'.queue <==> x == |st.kinds| || x in st.queue;
    assert forall i :: 0 <= i < |st.queue| ==> st.queue[i] in st.queue;
    forall x | 0 <= x < |st'.kinds| ensures Accounted(st'.granted, st'.queue, st'.dead, x) {
      assert x < |st.kinds| ==> Accounted(st.granted, st.queue, st.dead, x);
    }
  }

  lemma MoreKinds(st: State, k: Kind)
    requires OwnersOk(st)
    ensures OwnersFit(st.exclusives, st.sharers, st.granted, st.kinds + [k])
  {
  }

  lemma ArriveQueue(st: State, k: Kind)
    requires QueueOk(st) && st.queue == []
    ensures QueueOk(Arrive(st, k))
  {
    var st' := Arrive(st, k);
    forall x | 0 <= x < |st'.kinds| ensures Accounted(st'.granted, st'.queue, st'.dead, x) {
      assert x < |st.kinds| ==> Accounted(st.granted, st.queue, st.dead, x);
    }
  }

  lemma NextFree(st: State)
    requires QueueOk(st)
    ensures |st.kinds| !in st.granted
  {
  }

  lemma ArriveOk(st: State, k: Kind)
    requires OwnersOk(st) && QueueOk(st) && st.queue == [] && Allow(k, Held(st))
    ensures OwnersOk(Arrive(st, k)) && QueueOk(Arrive(st, k)) && Held(Arrive(st, k)) == Held(st) + Amount(k)
  {
    hide Allow, Sum, InOrder;
    ArriveQueue(st, k);
    NextFree(st);
    var st1 := st.(kinds := st.kinds + [k]);
    assert Held(st1) == Held(st) && OwnersOk(st1);
    OwnHeld(st1, |st.kinds|, k);
  }

  lemma StoreInv(st: State, t: nat)
    requires Inv(st) && t < |st.pcs| && st.pcs[t].Store? && WellSized(st)
    ensures Inv(StepOf(st, t, false))
  {
    var st' := StepOf(st, t, false);
    assert PcOk(st, st.pcs[t]);
    Bits(|st.sharers|, |st.exclusives|, NextBits(st.queue, st.kinds), st'.word);
    Moved(st, st', t, Idle);
  }

  lemma UnlockLoadInv(st: State, t: nat)
    requires Inv(st) && t < |st.pcs| && st.pcs[t].UnlockLoad? && WellSized(st) && StepEnabled(st, t)
    ensures Inv(StepOf(st, t, false))
  {
    var r, st' := st.pcs[t].r, StepOf(st, t, false);
    assert PcOk(st, st.pcs[t]);
    if Fast(st.kinds[r], st.word) {
      WordBits(st);
      DisownHeld(st, r);
    }
    Plain(st, t, st'.pcs[t]);
  }

  /** The fast path: nobody waits, or only exclusive requests do and another sharer is left. */
  lemma UnlockSwapInv(st: State, t: nat)
    requires Inv(st) && t < |st.pcs| && st.pcs[t].UnlockSwap? && st.word == st.pcs[t].l && WellSized(st)
    requires StepEnabled(st, t)
    ensures Inv(StepOf(st, t, false))
  {
    var r, st' := st.pcs[t].r, StepOf(st, t, false);
    assert PcOk(st, st.pcs[t]) && Releasing(st.pcs[t], r);
    WordBits(st);
    DisownHeld(st, r);
    Bits(|st'.sharers|, |st'.exclusives|, NextBits(st.queue, st.kinds), st'.word);
    if st.queue != [] {
      AllowMeans(st', Exclusive);
      assert Held(st') > 0;
    }
    Moved(st, st', t, Idle);
  }

  lemma TryWord(st: State, k: Kind)
    requires OwnersOk(st) && QueueOk(st) && WordOk(st)
    requires if k.Shared? then st.word % LOCK_SHARED == 0 else st.word == 0
    ensures st.queue == [] && Allow(k, Held(st)) && !Latched(st.word) && st.word == Held(st)
    ensures !Latched(st.word + Amount(k))
  {
    WordBits(st);
    AllowMeans(st, k);
  }

  lemma TryInv(st: State, t: nat, k: Kind)
    requires Inv(st) && t < |st.pcs| && (st.pcs[t] == Idle || st.pcs[t].TrySharedSwap?)
    requires if k.Shared? then st.word % LOCK_SHARED == 0 else st.word == 0
    ensures Inv(At(Arrive(st.(word := st.word + Amount(k)), k), t, Idle))
  {
    hide Allow, OwnersFit, InOrder, Sum, Latched;
    var st' := At(Arrive(st.(word := st.word + Amount(k)), k), t, Idle);
    TryWord(st, k);
    ArriveOk(st, k);
    Moved(st, st', t, Idle);
  }

  /** No step of a thread waits for anything, and no subtraction of the word goes below zero. */
  lemma NeverStuck(st: State, t: nat)
    requires Inv(st) && t < |st.pcs| && st.pcs[t] != Idle
    ensures WellSized(st) && StepEnabled(st, t)
  {
    assert PcOk(st, st.pcs[t]);
    forall i | 0 <= i < |st.queue| ensures st.queue[i] < |st.kinds| { assert st.queue[i] in st.queue; }
  }

  lemma StepInv(st: State, t: nat, spurious: bool)
    requires Inv(st) && t < |st.pcs| && WellSized(st) && StepEnabled(st, t)
    ensures Inv(StepOf(st, t, spurious))
  {
    hide OwnersFit, InOrder, Allow, Sum, WordOk;
    assert PcOk(st, st.pcs[t]);
    match st.pcs[t]
    case Latching(op) => if !Latched(st.word) { LatchLoadInv(st, t); }
    case LatchSwap(op, l) =>
      if spurious || st.word != l { Plain(st, t, Latching(op)); } else { LatchSwapInv(st, t); }
    case Notify(_, _) => NotifyInv(st, t);
    case Grant(_, _) => GrantInv(st, t);
    case Place(_, _) => PlaceInv(st, t);
    case Store(_) => StoreInv(st, t);
    case UnlockLoad(_) => UnlockLoadInv(st, t);
    case UnlockSwap(r, l) =>
      if st.word != l { Plain(st, t, Latching(Release(r))); } else { UnlockSwapInv(st, t); }
    case TrySharedSwap(l) => if st.word == l { TryInv(st, t, Shared); } else { Plain(st, t, Idle); }
    case Idle =>
  }

  lemma LatchLoadInv(st: State, t: nat)
    requires Inv(st) && t < |st.pcs| && st.pcs[t].Latching? && !Latched(st.word)
    ensures Inv(At(st, t, LatchSwap(st.pcs[t].op, st.word)))
  {
    var op := st.pcs[t].op;
    assert PcOk(st, st.pcs[t]);
    WordBits(st);
    if op.Release? { DisownHeld(st, op.r); }
    Plain(st, t, LatchSwap(op, st.word));
  }

  lemma StartUnlockInv(st: State, t: nat, r: nat)
    requires Inv(st) && Enabled(st, StartUnlock(t, r))
    ensures Inv(At(st, t, UnlockLoad(r)))
  {
    hide OwnersFit, InOrder;
    var st' := At(st, t, UnlockLoad(r));
    StillLatched(st, t, UnlockLoad(r));
    hide WordOk;
    assert forall i :: i in st.exclusives || i in st.sharers ==> i < |st.kinds|;
    assert PcOk(st', UnlockLoad(r));
    forall t' | 0 <= t' < |st'.pcs| ensures PcOk(st', st'.pcs[t']) {
      if t' != t { assert PcOk(st, st.pcs[t']); SamePc(st, st', st.pcs[t']); }
    }
    hide PcOk;
  }

  lemma SamePc(st: State, st': State, pc: Pc)
    requires PcOk(st, pc) && st' == st.(pcs := st'.pcs)
    ensures PcOk(st', pc)
  {
  }

  lemma GiveUpInv(st: State, r: nat)
    requires Inv(st) && r in st.queue
    ensures Inv(st.(dead := st.dead + {r}))
  {
    var st' := st.(dead := st.dead + {r});
    forall x | 0 <= x < |st.kinds| ensures Accounted(st.granted, st.queue, st'.dead, x) {
      assert Accounted(st.granted, st.queue, st.dead, x);
    }
    hide InOrder, OwnersFit;
    assert forall pc :: PcOk(st, pc) ==> PcOk(st', pc);
  }

  lemma StartLockInv(st: State, t: nat, k: Kind)
    requires Inv(st) && t < |st.pcs| && st.pcs[t] == Idle
    ensures Inv(At(st, t, Latching(Acquire(k))))
  {
    hide WordOk, InOrder, OwnersFit, PcsOk;
    assert forall r :: !Releasing(Latching(Acquire(k)), r);
    Plain(st, t, Latching(Acquire(k)));
  }

  lemma TryLockInv(st: State, t: nat)
    requires Inv(st) && t < |st.pcs| && st.pcs[t] == Idle && st.word == 0
    ensures Inv(Arrive(st.(word := LOCK_EXCL), Exclusive))
  {
    hide Inv;
    TryInv(st, t, Exclusive);
    assert st.pcs[t := Idle] == st.pcs;
  }

  lemma Parity(a: nat, c: nat)
    ensures (2 * a + c) % 2 == c % 2
  {
  }

  lemma NoBits(w: nat)
    requires !Latched(w) && !HasNextExcl(w) && !HasNextShared(w) && !HasExcl(w)
    ensures w % LOCK_SHARED == 0
  {
    var a, b := w / 16, w % 16;
    assert w == 2 * (8 * a) + b && w / 2 == 2 * (4 * a) + b / 2 && w / 4 == 2 * (2 * a) + b / 4 && w / 8 == 2 * a + b / 8;
    Parity(8 * a, b);
    Parity(4 * a, b / 2);
    Parity(2 * a, b / 4);
    Parity(a, b / 8);
  }

  lemma TrySharedInv(st: State, t: nat)
    requires Inv(st) && t < |st.pcs| && st.pcs[t] == Idle
    requires !Latched(st.word) && !HasNextExcl(st.word) && !HasNextShared(st.word) && !HasExcl(st.word)
    ensures Inv(At(st, t, TrySharedSwap(st.word)))
  {
    hide WordOk, InOrder, OwnersFit, PcsOk, Latched, HasNextExcl, HasNextShared, HasExcl;
    NoBits(st.word);
    Plain(st, t, TrySharedSwap(st.word));
  }

  lemma NextInv(st: State, e: Event)
    requires Inv(st) && Enabled(st, e)
    ensures Inv(Apply(st, e))
  {
    hide Inv, StepOf, Latched, HasNextExcl, HasNextShared, HasExcl;
    match e
    case StartLock(t, k) => StartLockInv(st, t, k);
    case StartUnlock(t, r) => StartUnlockInv(st, t, r);
    case TryLock(t) => if st.word == 0 { TryLockInv(st, t); }
    case TryLockShared(t) => if Apply(st, e) != st { TrySharedInv(st, t); }
    case Step(t, spurious) => StepInv(st, t, spurious);
    case GiveUp(r) => GiveUpInv(st, r);
  }

  lemma {:induction false} RunInv(run: seq<State>, k: nat)
    requires IsRun(run) && k < |run|
    ensures Inv(run[k])
  {
    hide Inv, Apply, Enabled;
    if k == 0 {
      InitInv(run[0]);
    } else {
      RunInv(run, k - 1);
      assert Next(run[k - 1], run[k - 1 + 1]);
      var e :| Enabled(run[k - 1], e) && run[k] == Apply(run[k - 1], e);
      NextInv(run[k - 1], e);
    }
  }

  // ---- the results ----

  /** Whenever the word is unlatched it counts the owners and says who is next; latched means that
      exactly one thread is inside. */
  lemma WordEncodes(run: seq<State>, k: nat)
    requires IsRun(run) && k < |run|
    ensures var st := run[k];
            && (Latched(st.word) <==> exists t :: 0 <= t < |st.pcs| && InSection(st.pcs[t]))
            && (forall t, t' ::
                  (0 <= t < |st.pcs| && 0 <= t' < |st.pcs| && InSection(st.pcs[t]) && InSection(st.pcs[t'])) ==> t == t')
            && (!Latched(st.word) ==>
                  && st.word / LOCK_SHARED == |st.sharers|
                  && (HasExcl(st.word) <==> |st.exclusives| == 1)
                  && (HasNextExcl(st.word) <==> st.queue != [] && st.queue[0] < |st.kinds| && st.kinds[st.queue[0]].Exclusive?)
                  && (HasNextShared(st.word) <==> st.queue != [] && st.queue[0] < |st.kinds| && st.kinds[st.queue[0]].Shared?))
  {
    RunInv(run, k);
    if !Latched(run[k].word) { WordBits(run[k]); }
  }

  lemma OnlyMember(s: set<nat>, a: nat, b: nat)
    requires |s| <= 1
    ensures a in s && b in s ==> a == b
  {
    if a in s { assert s == {a} + (s - {a}); }
  }

  /** An exclusive owner is the only owner. */
  lemma Exclusion(run: seq<State>, k: nat, r: nat, q: nat)
    requires IsRun(run) && k < |run| && Owner(run[k], r) && Owner(run[k], q) && r != q
    ensures r in run[k].sharers && q in run[k].sharers && run[k].exclusives == {}
  {
    RunInv(run, k);
    OnlyMember(run[k].exclusives, r, q);
  }

  /** While anybody waits and no thread is inside, the lock is held, and held in a way the head of the
      queue has to wait for; so somebody will have to unlock, and will find the queue. */
  lemma NoLostWakeup(run: seq<State>, k: nat)
    requires IsRun(run) && k < |run| && !Latched(run[k].word) && run[k].queue != []
    ensures var st := run[k];
            && st.queue[0] < |st.kinds|
            && (if st.kinds[st.queue[0]].Shared? then st.exclusives != {} else st.exclusives + st.sharers != {})
  {
    RunInv(run, k);
    AllowMeans(run[k], run[k].kinds[run[k].queue[0]]);
  }

  /** First come, first served: when a request has been granted, so has every earlier one that was not
      given up while waiting. */
  lemma NoOvertaking(run: seq<State>, k: nat, r: nat, q: nat)
    requires IsRun(run) && k < |run| && r < q && q in run[k].granted
    ensures r in run[k].granted || r in run[k].dead
  {
    RunInv(run, k);
    var st := run[k];
    assert Accounted(st.granted, st.queue, st.dead, r);
  }

  /** No request is forgotten: one that has arrived has been granted, or given up, or is in the queue. */
  lemma NothingForgotten(run: seq<State>, k: nat, r: nat)
    requires IsRun(run) && k < |run| && r < |run[k].kinds|
    ensures r in run[k].granted || r in run[k].dead || r in run[k].queue
    ensures r in run[k].queue ==> r !in run[k].granted
  {
    RunInv(run, k);
    var st := run[k];
    assert Accounted(st.granted, st.queue, st.dead, r);
  }

  /** 32 bits are enough for the word, its flags and the copies in registers up to 2^28 - 1 sharers. */
  lemma WordFits(run: seq<State>, k: nat)
    requires IsRun(run) && k < |run| && |run[k].sharers| < 0x1000_0000 - 1
    ensures !Latched(run[k].word) ==> run[k].word + LATCH < 0x1_0000_0000
    ensures forall t :: 0 <= t < |run[k].pcs| ==>
              match run[k].pcs[t]
              case Notify(_, l) => l + NEXT_SHARED < 0x1_0000_0000
              case Grant(_, l) => l + LOCK_SHARED < 0x1_0000_0000
              case Place(_, l) => l + LOCK_SHARED < 0x1_0000_0000
              case Store(l) => l + NEXT_SHARED < 0x1_0000_0000
              case _ => true
  {
    RunInv(run, k);
    var st := run[k];
    forall t | 0 <= t < |st.pcs| ensures InSection(st.pcs[t]) ==> st.pcs[t].l == Held(st) {
      assert PcOk(st, st.pcs[t]);
    }
  }
}
