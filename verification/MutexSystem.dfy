/**
 The reader/writer mutex of cotamer as its threads see it: one atomic word and, behind its latch bit, a
 queue of waiting requests.  A step is one load, one compare-exchange, one store of the word, or one
 iteration of the loop that hands out the lock; any threads may interleave, and a queued request may be
 given up at any moment.
 */
module MutexSystem {

  const LATCH: nat := 1
  const NEXT_EXCL: nat := 2
  const NEXT_SHARED: nat := 4
  const LOCK_EXCL: nat := 8
  const LOCK_SHARED: nat := 16

  datatype Kind = Exclusive | Shared

  predicate Latched(w: nat) { w % 2 == 1 }

  predicate HasNextExcl(w: nat) { w / 2 % 2 == 1 }

  predicate HasNextShared(w: nat) { w / 4 % 2 == 1 }

  predicate HasExcl(w: nat) { w / 8 % 2 == 1 }

  /** `l & ~mfm_next`. */
  function WithoutNext(w: nat): nat { w / 8 * 8 + w % 2 }

  function Amount(k: Kind): nat { if k.Shared? then LOCK_SHARED else LOCK_EXCL }

  predicate Allow(k: Kind, l: nat) { if k.Shared? then !HasExcl(l) else l < LOCK_EXCL }

  /** When an unlock that has loaded `w` may do without the latch. */
  predicate Fast(k: Kind, w: nat) {
    match k
    case Exclusive => !Latched(w) && !HasNextExcl(w) && !HasNextShared(w)
    case Shared => !Latched(w) && !HasNextShared(w) && (!HasNextExcl(w) || w >= 2 * LOCK_SHARED)
  }

  /** `Release` names the request whose lock is given back. */
  datatype Op = Acquire(kind: Kind) | Release(r: nat)

  /** Where a thread is: `Latching` and `LatchSwap` are `latch()`, `Notify` and `Grant` the loop of
      `notify_locked`, `Place` the rest of `lock_impl`, `Store` is `unlatch`. */
  datatype Pc =
    | Idle
    | Latching(op: Op)
    | LatchSwap(op: Op, l: nat)
    | Notify(op: Op, l: nat)
    | Grant(op: Op, l: nat)
    | Place(kind: Kind, l: nat)
    | Store(l: nat)
    | UnlockLoad(r: nat)
    | UnlockSwap(r: nat, l: nat)
    | TrySharedSwap(l: nat)

  /** Requests are numbered in order of arrival and `kinds` remembers what they want.  `queue` holds
      those waiting; `exclusives` and `sharers` have the lock; `granted` have had it at some time;
      `dead` have been given up while waiting. */
  datatype State = State(
    word: nat, queue: seq<nat>, pcs: seq<Pc>, kinds: seq<Kind>,
    exclusives: set<nat>, sharers: set<nat>, granted: set<nat>, dead: set<nat>)

  datatype Event =
    | StartLock(t: nat, kind: Kind)
    | StartUnlock(t: nat, r: nat)
    | TryLock(t: nat)
    | TryLockShared(t: nat)
    | Step(t: nat, spurious: bool)
    | GiveUp(r: nat)

  predicate Owner(st: State, r: nat) { r in st.exclusives || r in st.sharers }

  /** The thread is giving back `r` and the word does not show it yet. */
  predicate Releasing(pc: Pc, r: nat) {
    match pc
    case Latching(op) => op == Release(r)
    case LatchSwap(op, _) => op == Release(r)
    case UnlockLoad(q) => q == r
    case UnlockSwap(q, _) => q == r
    case _ => false
  }

  predicate InSection(pc: Pc) { pc.Notify? || pc.Grant? || pc.Place? || pc.Store? }

  predicate WellSized(st: State) {
    && (forall i :: 0 <= i < |st.queue| ==> st.queue[i] < |st.kinds|)
    && (forall r :: r in st.exclusives ==> r < |st.kinds|)
    && (forall r :: r in st.sharers ==> r < |st.kinds|)
  }

  predicate Init(st: State) {
    && st.word == 0 && st.queue == [] && st.kinds == []
    && st.exclusives == {} && st.sharers == {} && st.granted == {} && st.dead == {}
    && forall t :: 0 <= t < |st.pcs| ==> st.pcs[t] == Idle
  }

  predicate StepEnabled(st: State, t: nat)
    requires t < |st.pcs|
  {
    WellSized(st) &&
    match st.pcs[t]
    case Idle => false
    case LatchSwap(op, l) => op.Release? ==> Owner(st, op.r) && WithoutNext(l) >= Amount(st.kinds[op.r])
    case Grant(_, _) => st.queue != []
    case UnlockLoad(r) => Owner(st, r)
    case UnlockSwap(r, l) => Owner(st, r) && l >= Amount(st.kinds[r])
    case _ => true
  }

  /** `unlock` may be called for a lock that is held and not being given back already. */
  predicate Enabled(st: State, e: Event) {
    && WellSized(st)
    && (!e.GiveUp? ==> e.t < |st.pcs|)
    && match e
       case StartLock(t, _) => st.pcs[t] == Idle
       case StartUnlock(t, r) =>
         st.pcs[t] == Idle && Owner(st, r) && forall t' :: 0 <= t' < |st.pcs| ==> !Releasing(st.pcs[t'], r)
       case TryLock(t) => st.pcs[t] == Idle
       case TryLockShared(t) => st.pcs[t] == Idle
       case Step(t, _) => StepEnabled(st, t)
       case GiveUp(r) => r in st.queue && r !in st.dead
  }

  function At(st: State, t: nat, pc: Pc): State
    requires t < |st.pcs|
  {
    st.(pcs := st.pcs[t := pc])
  }

  /** Request `r`, of kind `k`, gets the lock. */
  function Own(st: State, r: nat, k: Kind): State {
    if k.Shared? then st.(sharers := st.sharers + {r}, granted := st.granted + {r})
    else st.(exclusives := st.exclusives + {r}, granted := st.granted + {r})
  }

  /** A new request of kind `k` arrives and gets the lock at once. */
  function Arrive(st: State, k: Kind): State {
    Own(st.(kinds := st.kinds + [k]), |st.kinds|, k)
  }

  function Disown(st: State, r: nat): State {
    st.(sharers := st.sharers - {r}, exclusives := st.exclusives - {r})
  }

  function NextBits(queue: seq<nat>, kinds: seq<Kind>): nat
    requires queue != [] ==> queue[0] < |kinds|
  {
    if queue == [] then 0 else if kinds[queue[0]].Shared? then NEXT_SHARED else NEXT_EXCL
  }

  function StepOf(st: State, t: nat, spurious: bool): State
    requires WellSized(st) && t < |st.pcs| && StepEnabled(st, t)
  {
    match st.pcs[t]
    case Idle => st
    case Latching(op) =>
      if Latched(st.word) then st else At(st, t, LatchSwap(op, st.word))
    case LatchSwap(op, l) =>
      if spurious || st.word != l then At(st, t, Latching(op))
      else
        var st1 := st.(word := l + LATCH);
        if op.Acquire? then At(st1, t, Notify(op, WithoutNext(l)))
        else At(Disown(st1, op.r), t, Notify(op, WithoutNext(l) - Amount(st.kinds[op.r])))
    case Notify(op, l) =>
      if st.queue != [] && st.queue[0] in st.dead then st.(queue := st.queue[1..])
      else if st.queue != [] && Allow(st.kinds[st.queue[0]], l) then At(st, t, Grant(op, l))
      else At(st, t, if op.Acquire? then Place(op.kind, l) else Store(l))
    case Grant(op, l) =>
      var r := st.queue[0];
      var st1 := st.(queue := st.queue[1..]);
      if r in st.dead then At(st1, t, Notify(op, l))
      else At(Own(st1, r, st.kinds[r]), t, Notify(op, l + Amount(st.kinds[r])))
    case Place(k, l) =>
      if st.queue == [] && Allow(k, l) then At(Arrive(st, k), t, Store(l + Amount(k)))
      else At(st.(queue := st.queue + [|st.kinds|], kinds := st.kinds + [k]), t, Store(l))
    case Store(l) =>
      At(st.(word := l + NextBits(st.queue, st.kinds)), t, Idle)
    case UnlockLoad(r) =>
      At(st, t, if Fast(st.kinds[r], st.word) then UnlockSwap(r, st.word)
                else Latching(Release(r)))
    case UnlockSwap(r, l) =>
      if st.word != l then At(st, t, Latching(Release(r)))
      else At(Disown(st.(word := l - Amount(st.kinds[r])), r), t, Idle)
    case TrySharedSwap(l) =>
      if st.word != l then At(st, t, Idle)
      else At(Arrive(st.(word := l + LOCK_SHARED), Shared), t, Idle)
  }

  function Apply(st: State, e: Event): State
    requires Enabled(st, e)
  {
    match e
    case StartLock(t, k) => At(st, t, Latching(Acquire(k)))
    case StartUnlock(t, r) => At(st, t, UnlockLoad(r))
    case TryLock(t) => if st.word == 0 then Arrive(st.(word := LOCK_EXCL), Exclusive) else st
    case TryLockShared(t) =>
      if Latched(st.word) || HasNextExcl(st.word) || HasNextShared(st.word) || HasExcl(st.word) then st
      else At(st, t, TrySharedSwap(st.word))
    case Step(t, spurious) => StepOf(st, t, spurious)
    case GiveUp(r) => st.(dead := st.dead + {r})
  }

  ghost predicate Next(st: State, st': State) {
    exists e :: Enabled(st, e) && st' == Apply(st, e)
  }

  ghost predicate IsRun(run: seq<State>) {
    |run| > 0 && Init(run[0]) && forall k :: 0 <= k < |run| - 1 ==> Next(run[k], run[k + 1])
  }
}
