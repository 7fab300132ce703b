/**
 The mutex object, updated in place by one thread at a time, and what its operations come to: after each
 of them the lock has been handed to the longest admissible run of waiting requests.
 */
module MutexObject {
  import opened MutexSystem
  import opened MutexProof

  // ---- what handing out the lock means ----

  predicate Admits(k: Kind, exclusives: set<nat>, sharers: set<nat>) {
    exclusives == {} && (k.Exclusive? ==> sharers == {})
  }

  /** The waiting requests that have not been given up. */
  function Live(queue: seq<nat>, dead: set<nat>): (live: seq<nat>)
    ensures forall r :: r in live <==> r in queue && r !in dead
  {
    if queue == [] then []
    else if queue[0] in dead then Live(queue[1..], dead)
    else [queue[0]] + Live(queue[1..], dead)
  }

  /** What a request wants; only requests that have arrived ever wait. */
  function KindOf(kinds: seq<Kind>, r: nat): Kind {
    if r < |kinds| then kinds[r] else Exclusive
  }

  datatype Outcome = Outcome(waiting: seq<nat>, exclusives: set<nat>, sharers: set<nat>)

  /** The lock goes to waiting requests in order until one has to wait. */
  function Serve(live: seq<nat>, kinds: seq<Kind>, exclusives: set<nat>, sharers: set<nat>): Outcome
  {
    if live == [] || !Admits(KindOf(kinds, live[0]), exclusives, sharers) then Outcome(live, exclusives, sharers)
    else if KindOf(kinds, live[0]).Shared? then Serve(live[1..], kinds, exclusives, sharers + {live[0]})
    else Serve(live[1..], kinds, exclusives + {live[0]}, sharers)
  }

  /** A prefix of the line gets the lock, and the next in line could not have it as well. */
  lemma {:induction false} ServeFair(live: seq<nat>, kinds: seq<Kind>, exclusives: set<nat>, sharers: set<nat>)
    returns (n: nat)
    ensures n <= |live|
    ensures var o := Serve(live, kinds, exclusives, sharers);
            && o.waiting == live[n..]
            && (o.waiting != [] ==> !Admits(KindOf(kinds, o.waiting[0]), o.exclusives, o.sharers))
            && (forall r :: r in o.exclusives <==> r in exclusives || (r in live[..n] && KindOf(kinds, r).Exclusive?))
            && (forall r :: r in o.sharers <==> r in sharers || (r in live[..n] && KindOf(kinds, r).Shared?))
  {
    if live == [] || !Admits(KindOf(kinds, live[0]), exclusives, sharers) {
      n := 0;
    } else {
      hide Admits;
      var x, s := exclusives, sharers;
      if KindOf(kinds, live[0]).Shared? { s := s + {live[0]}; } else { x := x + {live[0]}; }
      var m := ServeFair(live[1..], kinds, x, s);
      n := m + 1;
      assert live[n..] == live[1..][m..];
      assert live[..n] == [live[0]] + live[1..][..m];
    }
  }

  /** It is the request at the head alone if that is exclusive, and otherwise only sharers. */
  lemma {:induction false} ServeTogether(live: seq<nat>, kinds: seq<Kind>, exclusives: set<nat>, sharers: set<nat>, n: nat)
    requires n <= |live| && Serve(live, kinds, exclusives, sharers).waiting == live[n..] && n > 0
    ensures exclusives == {}
    ensures KindOf(kinds, live[0]).Exclusive? ==>
              n == 1 && sharers == {} && Serve(live, kinds, exclusives, sharers).exclusives == {live[0]}
    ensures KindOf(kinds, live[0]).Shared? ==>
              && Serve(live, kinds, exclusives, sharers).exclusives == {}
              && forall i :: 0 <= i < n ==> KindOf(kinds, live[i]).Shared?
  {
    assert |live[n..]| < |live|;
    var tail := live[1..];
    assert live[n..] == tail[n - 1..];
    if KindOf(kinds, live[0]).Shared? {
      if n > 1 { ServeTogether(tail, kinds, exclusives, sharers + {live[0]}, n - 1); }
      else { ServedNone(tail, kinds, exclusives, sharers + {live[0]}); }
      forall i | 0 <= i < n ensures KindOf(kinds, live[i]).Shared? { if i > 0 { assert live[i] == tail[i - 1]; } }
    }
  }

  lemma ServedNone(live: seq<nat>, kinds: seq<Kind>, exclusives: set<nat>, sharers: set<nat>)
    requires Serve(live, kinds, exclusives, sharers).waiting == live
    ensures Serve(live, kinds, exclusives, sharers) == Outcome(live, exclusives, sharers)
  {
    if live != [] && Admits(KindOf(kinds, live[0]), exclusives, sharers) {
      if KindOf(kinds, live[0]).Shared? {
        ServedLess(live[1..], kinds, exclusives, sharers + {live[0]});
      } else {
        ServedLess(live[1..], kinds, exclusives + {live[0]}, sharers);
      }
    }
  }

  /** The fast path of unlocking does not look at the queue.  It leaves everything as the slow path would
      exactly if the first request that still wants the lock, if any, is exclusive; it can fail to be
      if that request was behind an exclusive one that has been given up. */
  lemma FastAgrees(st: State, r: nat)
    requires Inv(st) && !Latched(st.word) && r < |st.kinds| && Owner(st, r) && Fast(st.kinds[r], st.word)
    ensures var live, x, s := Live(st.queue, st.dead), st.exclusives - {r}, st.sharers - {r};
            Serve(live, st.kinds, x, s) == Outcome(live, x, s) <==> live == [] || KindOf(st.kinds, live[0]).Exclusive?
  {
    var live, x, s := Live(st.queue, st.dead), st.exclusives - {r}, st.sharers - {r};
    WordBits(st);
    DisownHeld(st, r);
    hide Inv, Fast, Held, Sum, OwnersOk;
    if live != [] && KindOf(st.kinds, live[0]).Shared? {
      assert live[0] in st.queue;
      FastWaiters(st, r);
      ServedLess(live[1..], st.kinds, x, s + {live[0]});
    } else if live != [] {
      assert live[0] in st.queue;
      FastWaiters(st, r);
    }
  }

  /** When the fast path is taken with somebody in the queue, sharers are left. */
  lemma FastWaiters(st: State, r: nat)
    requires Inv(st) && !Latched(st.word) && r < |st.kinds| && Owner(st, r) && Fast(st.kinds[r], st.word)
    requires st.queue != []
    ensures st.exclusives - {r} == {} && st.sharers - {r} != {}
  {
    WordBits(st);
    DisownHeld(st, r);
    assert |st.sharers| > 1;
  }

  /** So the wait that the fast path can cause ends at the latest when the last owner leaves: with somebody
      in the queue it takes the latch, and the line is served. */
  lemma LastIsSlow(st: State, r: nat)
    requires Inv(st) && !Latched(st.word) && r < |st.kinds| && Owner(st, r)
    requires st.queue != [] && st.exclusives + st.sharers == {r}
    ensures !Fast(st.kinds[r], st.word)
  {
    hide Inv, Fast;
    assert forall q :: q in st.sharers ==> q in st.exclusives + st.sharers;
    if Fast(st.kinds[r], st.word) {
      FastWaiters(st, r);
    }
  }

  lemma {:induction false} ServedLess(live: seq<nat>, kinds: seq<Kind>, exclusives: set<nat>, sharers: set<nat>)
    ensures |Serve(live, kinds, exclusives, sharers).waiting| <= |live|
  {
    if live != [] && Admits(KindOf(kinds, live[0]), exclusives, sharers) {
      if KindOf(kinds, live[0]).Shared? {
        ServedLess(live[1..], kinds, exclusives, sharers + {live[0]});
      } else {
        ServedLess(live[1..], kinds, exclusives + {live[0]}, sharers);
      }
    }
  }

  /** It can fail: one exclusive request given up, a sharer behind it, two sharers inside, one leaves. */
  lemma FastCanLag()
    ensures exists st, r: nat :: Inv(st) && Owner(st, r) && r < |st.kinds| && !Latched(st.word) && Fast(st.kinds[r], st.word)
              && Live(st.queue, st.dead) == [3] && st.kinds == [Shared, Shared, Exclusive, Shared]
              && st.exclusives == {} && st.sharers - {r} == {1}
  {
    var st := State(34, [2, 3], [Idle], [Shared, Shared, Exclusive, Shared], {}, {0, 1}, {0, 1}, {2});
    assert |st.sharers| == 2;
    assert Held(st) == 32;
    assert Live([3], {2}) == [3] by { assert [3][1..] == []; }
    assert st.queue[1..] == [3];
    assert forall r :: 0 <= r < 4 ==> Accounted(st.granted, st.queue, st.dead, r);
    assert Inv(st);
    assert st.sharers - {0} == {1};
  }

  lemma {:induction false} LiveAppend(queue: seq<nat>, r: nat, dead: set<nat>)
    requires r !in dead
    ensures Live(queue + [r], dead) == Live(queue, dead) + [r]
  {
    if queue == [] {
      assert [r][1..] == [];
      assert queue + [r] == [r];
    } else {
      assert (queue + [r])[1..] == queue[1..] + [r];
      LiveAppend(queue[1..], r, dead);
    }
  }

  /** A new request joining the end of a line that does not move either gets in or waits. */
  lemma {:induction false} ServeAppend(live: seq<nat>, r: nat, kinds: seq<Kind>, exclusives: set<nat>, sharers: set<nat>)
    ensures var o := Serve(live, kinds, exclusives, sharers);
            Serve(live + [r], kinds, exclusives, sharers)
            == if o.waiting != [] then o.(waiting := o.waiting + [r]) else Serve([r], kinds, o.exclusives, o.sharers)
  {
    if live == [] {
      assert live + [r] == [r];
    } else if Admits(KindOf(kinds, live[0]), exclusives, sharers) {
      assert (live + [r])[1..] == live[1..] + [r];
      if KindOf(kinds, live[0]).Shared? {
        ServeAppend(live[1..], r, kinds, exclusives, sharers + {live[0]});
      } else {
        ServeAppend(live[1..], r, kinds, exclusives + {live[0]}, sharers);
      }
    }
  }

  /** Serving the head of the queue first makes no difference. */
  lemma PopServes(queue: seq<nat>, dead: set<nat>, kinds: seq<Kind>, exclusives: set<nat>, sharers: set<nat>)
    requires queue != [] && queue[0] < |kinds|
    ensures queue[0] in dead ==>
              Serve(Live(queue[1..], dead), kinds, exclusives, sharers) == Serve(Live(queue, dead), kinds, exclusives, sharers)
    ensures queue[0] !in dead && Admits(kinds[queue[0]], exclusives, sharers) ==>
              Serve(Live(queue, dead), kinds, exclusives, sharers)
              == if kinds[queue[0]].Shared? then Serve(Live(queue[1..], dead), kinds, exclusives, sharers + {queue[0]})
                 else Serve(Live(queue[1..], dead), kinds, exclusives + {queue[0]}, sharers)
    ensures queue[0] !in dead && !Admits(kinds[queue[0]], exclusives, sharers) ==>
              Serve(Live(queue, dead), kinds, exclusives, sharers) == Outcome(Live(queue, dead), exclusives, sharers)
  {
    if queue[0] !in dead {
      assert Live(queue, dead)[1..] == Live(queue[1..], dead);
    }
  }

  lemma ServeOne(r: nat, kinds: seq<Kind>, exclusives: set<nat>, sharers: set<nat>)
    ensures var k := KindOf(kinds, r);
            Serve([r], kinds, exclusives, sharers)
            == if !Admits(k, exclusives, sharers) then Outcome([r], exclusives, sharers)
               else if k.Shared? then Outcome([], exclusives, sharers + {r})
               else Outcome([], exclusives + {r}, sharers)
  {
    assert [r][1..] == [];
  }

  lemma SameThreads(st: State, e: Event)
    requires Enabled(st, e)
    ensures |Apply(st, e).pcs| == |st.pcs|
  {
  }

  /** What `latch()` does when the word is unlatched and stays so. */
  lemma LatchStep(st: State, op: Op)
    requires WellSized(st) && st.pcs == [Latching(op)] && !Latched(st.word) && StepEnabled(st, 0)
    ensures StepOf(st, 0, false) == st.(pcs := [LatchSwap(op, st.word)])
  {
  }

  lemma SwapStep(st: State, op: Op)
    requires WellSized(st) && st.pcs == [LatchSwap(op, st.word)] && StepEnabled(st, 0)
    ensures op.Acquire? ==>
              StepOf(st, 0, false) == st.(word := st.word + LATCH, pcs := [Notify(op, WithoutNext(st.word))])
    ensures op.Release? ==> op.r < |st.kinds| && WithoutNext(st.word) >= Amount(st.kinds[op.r])
    ensures op.Release? ==>
              StepOf(st, 0, false) ==
              Disown(st, op.r).(word := st.word + LATCH, pcs := [Notify(op, WithoutNext(st.word) - Amount(st.kinds[op.r]))])
  {
    hide WithoutNext, Latched;
  }

  /** What the end of `lock_impl` changes. */
  lemma PlaceStep(st: State, k: Kind, l: nat)
    requires WellSized(st) && st.pcs == [Place(k, l)]
    ensures StepEnabled(st, 0)
    ensures var st', r := StepOf(st, 0, false), |st.kinds|;
            && st'.kinds == st.kinds + [k] && st'.dead == st.dead && st'.word == st.word
            && if st.queue == [] && Allow(k, l)
               then && st'.pcs == [Store(l + Amount(k))] && st'.queue == []
                    && st'.exclusives == (if k.Shared? then st.exclusives else st.exclusives + {r})
                    && st'.sharers == (if k.Shared? then st.sharers + {r} else st.sharers)
               else && st'.pcs == [Store(l)] && st'.queue == st.queue + [r]
                    && st'.exclusives == st.exclusives && st'.sharers == st.sharers
  {
  }

  function ViewOf(st: State): Outcome { Outcome(Live(st.queue, st.dead), st.exclusives, st.sharers) }

  /** The end of `lock_impl` serves the line with the new request at its end. */
  lemma PlaceView(st: State, k: Kind, l: nat)
    requires Inv(st) && WellSized(st) && st.pcs == [Place(k, l)] && l == Held(st)
    requires st.queue != [] ==> st.queue[0] !in st.dead
    ensures var o, st' := ViewOf(st), StepOf(st, 0, false);
            && ViewOf(st') == (if o.waiting != [] then o.(waiting := o.waiting + [|st.kinds|])
                               else Serve([|st.kinds|], st.kinds + [k], o.exclusives, o.sharers))
            && (st.queue == [] && Allow(k, l) <==> Owner(st', |st.kinds|))
  {
    var r := |st.kinds|;
    assert r !in st.dead && !Owner(st, r);
    PlaceStep(st, k, l);
    AllowMeans(st, k);
    LiveAppend(st.queue, r, st.dead);
    ServeOne(r, st.kinds + [k], st.exclusives, st.sharers);
    assert st.queue == [] ==> Live(st.queue, st.dead) == [];
    assert st.queue != [] ==> Live(st.queue, st.dead) != [];
    hide Inv, Serve, Live, StepOf, Allow, Held;
  }

  // ---- the object ----

  /** `latch` and `waiters` are the program's fields.  `kinds` and `dead` stand for the events in the
      queue: what their requests want, and whether they can still be triggered.  `st` is the same object
      in the system of all threads, where every step made here is a step of that system. */
  class Mutex {
    var latch: nat
    var waiters: seq<nat>
    var kinds: seq<Kind>
    var dead: set<nat>
    ghost var st: State

    ghost predicate Linked()
      reads this
    {
      && Inv(st) && |st.pcs| == 1
      && st.word == latch && st.queue == waiters && st.kinds == kinds && st.dead == dead
    }

    ghost predicate Valid()
      reads this
    {
      Linked() && st.pcs == [Idle]
    }

    /** Who has the lock and who wants it. */
    ghost function View(): Outcome
      reads this
    {
      Outcome(Live(waiters, dead), st.exclusives, st.sharers)
    }

    constructor ()
      ensures Valid() && View() == Outcome([], {}, {})
      ensures waiters == [] && kinds == [] && dead == {}
    {
      latch, waiters, kinds, dead := 0, [], [], {};
      st := State(0, [], [Idle], [], {}, {}, {}, {});
    }

    ghost method Advance(e: Event)
      requires Inv(st) && Enabled(st, e)
      modifies this`st
      ensures st == Apply(old(st), e) && Inv(st) && |st.pcs| == |old(st).pcs|
    {
      hide Inv, Enabled, StepEnabled;
      NextInv(st, e);
      SameThreads(st, e);
      hide Apply;
      st := Apply(st, e);
    }

    /** `latch()`: with no other thread inside, the first try succeeds. */
    method Enter(ghost op: Op) returns (l: nat)
      requires Linked() && st.pcs == [Latching(op)] && !Latched(latch)
      requires op.Release? ==> op.r < |kinds| && Owner(st, op.r)
      modifies this`latch, this`st
      ensures Linked() && Latched(latch)
      ensures op.Acquire? ==> st == old(st).(pcs := [Notify(op, l)], word := st.word)
      ensures op.Release? ==> l >= Amount(kinds[op.r])
      ensures op.Release? ==>
                st == Disown(old(st), op.r).(pcs := [Notify(op, l - Amount(kinds[op.r]))], word := st.word)
    {
      hide Inv, StepOf, StepEnabled, WellSized, Latched, WithoutNext, HasExcl, HasNextExcl, HasNextShared, Allow, Held;
      NeverStuck(st, 0);
      LatchStep(st, op);
      LatchBit(latch);
      var w := latch;
      Advance(Step(0, false));
      NeverStuck(st, 0);
      SwapStep(st, op);
      latch := w + LATCH;
      Advance(Step(0, false));
      l := WithoutNext(w);
    }

    ghost function Served(): Outcome
      reads this
    {
      Serve(Live(waiters, dead), kinds, st.exclusives, st.sharers)
    }

    ghost predicate HeadServed()
      reads this
    {
      waiters != [] ==> waiters[0] !in dead && waiters[0] < |kinds| && !Allow(kinds[waiters[0]], Held(st))
    }

    /** The event of the request at the head is triggered, which gives it the lock. */
    method GrantHead(ghost op: Op, l0: nat) returns (l: nat)
      requires Linked() && st.pcs == [Notify(op, l0)]
      requires waiters != [] && waiters[0] !in dead && waiters[0] < |kinds| && Allow(kinds[waiters[0]], l0)
      modifies this`waiters, this`st
      ensures Linked() && st.pcs == [Notify(op, l)] && waiters == old(waiters)[1..]
      ensures Served() == old(Served())
      ensures old(st).exclusives <= st.exclusives && old(st).sharers <= st.sharers
    {
      hide Inv, Serve, Live, OwnersOk, Held, Allow;
      NeverStuck(st, 0);
      HeadFacts(l0);
      PopServes(waiters, dead, kinds, st.exclusives, st.sharers);
      var r := waiters[0];
      Advance(Step(0, false));
      NeverStuck(st, 0);
      l := l0 + Amount(kinds[r]);
      waiters := waiters[1..];
      Advance(Step(0, false));
    }

    /** The request at the head has been given up. */
    method DropHead(ghost op: Op, ghost l: nat)
      requires Linked() && st.pcs == [Notify(op, l)] && waiters != [] && waiters[0] in dead
      modifies this`waiters, this`st
      ensures Linked() && st == old(st).(queue := waiters) && waiters == old(waiters)[1..]
      ensures Served() == old(Served())
    {
      hide Inv, Serve, Live, OwnersOk, Held, Allow;
      NeverStuck(st, 0);
      HeadFacts(l);
      PopServes(waiters, dead, kinds, st.exclusives, st.sharers);
      waiters := waiters[1..];
      Advance(Step(0, false));
    }

    /** `notify_locked`: drops dead requests and grants others from the front while the lock allows. */
    method NotifyLocked(ghost op: Op, l0: nat) returns (l: nat)
      requires Linked() && st.pcs == [Notify(op, l0)]
      modifies this`waiters, this`st
      ensures Linked() && l == Held(st) && st.pcs == [if op.Acquire? then Place(op.kind, l) else Store(l)]
      ensures View() == old(Served()) && HeadServed()
      ensures old(st).exclusives <= st.exclusives && old(st).sharers <= st.sharers
    {
      hide Inv, Serve, Live, OwnersOk, Held, Allow;
      l := l0;
      while waiters != []
        invariant Linked() && st.pcs == [Notify(op, l)] && Served() == old(Served())
        invariant old(st).exclusives <= st.exclusives && old(st).sharers <= st.sharers
        decreases |waiters|
      {
        HeadFacts(l);
        if waiters[0] !in dead {
          if !Allow(kinds[waiters[0]], l) {
            break;
          }
          l := GrantHead(op, l);
        } else {
          DropHead(op, l);
        }
      }
      Finish(op, l);
    }

    ghost method Finish(op: Op, l: nat)
      requires Linked() && st.pcs == [Notify(op, l)]
      requires waiters != [] ==> waiters[0] < |kinds| && waiters[0] !in dead && !Allow(kinds[waiters[0]], l)
      modifies this`st
      ensures Linked() && l == Held(st) && st.pcs == [if op.Acquire? then Place(op.kind, l) else Store(l)]
      ensures View() == old(Served()) && HeadServed() && st == old(st).(pcs := st.pcs)
    {
      NeverStuck(st, 0);
      if waiters == [] { EmptyServes(); } else { HeadFacts(l); }
      hide Inv, Serve, Live, OwnersOk, Held, Allow;
      Counted();
      Advance(Step(0, false));
    }

    lemma Counted()
      requires Linked() && (st.pcs[0].Notify? || st.pcs[0].Place? || st.pcs[0].Store?)
      ensures st.pcs[0].l == Held(st)
    {
      assert PcOk(st, st.pcs[0]);
    }

    lemma EmptyServes()
      requires waiters == []
      ensures Served() == View()
    {
    }

    lemma HeadFacts(l: nat)
      requires Linked() && st.pcs[0].Notify? && st.pcs[0].l == l && waiters != []
      ensures waiters[0] < |kinds| && l == Held(st)
      ensures Allow(kinds[waiters[0]], l) <==> Admits(kinds[waiters[0]], st.exclusives, st.sharers)
      ensures waiters[0] !in dead && !Allow(kinds[waiters[0]], l) ==> Served() == View()
    {
      NeverStuck(st, 0);
      assert PcOk(st, st.pcs[0]);
      AllowMeans(st, kinds[waiters[0]]);
      PopServes(waiters, dead, kinds, st.exclusives, st.sharers);
    }

    /** `unlatch`. */
    method Leave(l: nat)
      requires Linked() && st.pcs == [Store(l)]
      modifies this`latch, this`st
      ensures Valid() && st == old(st).(pcs := [Idle], word := latch)
    {
      NeverStuck(st, 0);
      latch := l + if waiters == [] then 0 else if kinds[waiters[0]].Shared? then NEXT_SHARED else NEXT_EXCL;
      Advance(Step(0, false));
    }

    /** The end of `lock_impl`: the new request gets the lock or joins the queue. */
    method PlaceNew(k: Kind, l0: nat) returns (l: nat, now: bool)
      requires Linked() && st.pcs == [Place(k, l0)] && HeadServed() && View() == Served()
      modifies this
      ensures Linked() && st.pcs == [Store(l)] && kinds == old(kinds) + [k] && dead == old(dead) && latch == old(latch)
      ensures View() == var o := old(View());
                        if o.waiting != [] then o.(waiting := o.waiting + [|old(kinds)|])
                        else Serve([|old(kinds)|], kinds, o.exclusives, o.sharers)
      ensures now <==> Owner(st, |old(kinds)|)
    {
      hide Inv, OwnersOk, Held, Live, Serve, StepOf, StepEnabled, WellSized, Allow, KindOf;
      NeverStuck(st, 0);
      Counted();
      PlaceView(st, k, l0);
      PlaceStep(st, k, l0);
      now := waiters == [] && Allow(k, l0);
      if now {
        l := l0 + Amount(k);
      } else {
        l := l0;
        waiters := waiters + [|kinds|];
      }
      kinds := kinds + [k];
      Advance(Step(0, false));
    }

    lemma EmptyLive()
      ensures waiters == [] ==> Live(waiters, dead) == []
      ensures waiters != [] && waiters[0] !in dead ==> Live(waiters, dead) != []
    {
    }

    /** `lock_impl`: the new request joins the end of the line, and the line is served. */
    method Lock(k: Kind) returns (r: nat, now: bool)
      requires Valid()
      modifies this
      ensures Valid() && kinds == old(kinds) + [k] && dead == old(dead) && r == |old(kinds)|
      ensures View() == Serve(old(Live(waiters, dead)) + [r], kinds, old(st.exclusives), old(st.sharers))
      ensures now <==> Owner(st, r)
    {
      hide Inv, OwnersOk, Held, Allow, Live, Serve, Latched, WithoutNext;
      r := |kinds|;
      Unlatched();
      NeverShort();
      LiveKnown();
      ServeAppend(Live(waiters, dead), r, kinds + [k], st.exclusives, st.sharers);
      ServeKinds(Live(waiters, dead), kinds, k, st.exclusives, st.sharers);
      Advance(StartLock(0, k));
      var l := Enter(Acquire(k));
      l := NotifyLocked(Acquire(k), l);
      StillServed();
      l, now := PlaceNew(k, l);
      Leave(l);
    }

    lemma LiveKnown()
      requires Linked()
      ensures forall i :: 0 <= i < |Live(waiters, dead)| ==> Live(waiters, dead)[i] < |kinds|
    {
      forall i | 0 <= i < |Live(waiters, dead)| ensures Live(waiters, dead)[i] < |kinds| {
        assert Live(waiters, dead)[i] in Live(waiters, dead);
      }
    }

    lemma StillServed()
      requires Linked() && HeadServed()
      ensures Served() == View()
    {
      if waiters != [] {
        AllowMeans(st, kinds[waiters[0]]);
        PopServes(waiters, dead, kinds, st.exclusives, st.sharers);
      }
    }

    /** Unlocking, by either path.  The slow path serves the line; so does the fast path unless the head
        of the queue has been given up, when the next operation will. */
    method Unlock(r: nat) returns (fast: bool)
      requires Valid() && r < |kinds| && Owner(st, r)
      modifies this
      ensures Valid() && kinds == old(kinds) && dead == old(dead)
      ensures fast <==> Fast(kinds[r], old(latch))
      ensures fast ==> View() == Outcome(old(Live(waiters, dead)), old(st.exclusives) - {r}, old(st.sharers) - {r})
      ensures fast ==> waiters == old(waiters)
      ensures old(waiters) == [] ==> fast
      ensures old(waiters) != [] && old(st.exclusives + st.sharers) == {r} ==> !fast
      ensures !fast || waiters == [] || waiters[0] !in dead ==>
                View() == Serve(old(Live(waiters, dead)), kinds, old(st.exclusives) - {r}, old(st.sharers) - {r})
    {
      hide Inv, Serve, Live, OwnersOk, Latched, Held, Fast, WithoutNext;
      Unlatched();
      NeverShort();
      var w := latch;
      NobodyWaits(r);
      Begin(r);
      fast := Fast(kinds[r], w);
      if fast {
        if waiters != [] { FastWaiters(st, r); }
        FastAgrees(st, r);
        FastHead(r);
        EmptyLive();
        FirstLive();
        UnlockFast(r);
      } else {
        NeverStuck(st, 0);
        Advance(Step(0, false));
        var l := Enter(Release(r));
        l := NotifyLocked(Release(r), l - Amount(kinds[r]));
        Leave(l);
      }
    }

    ghost method Begin(r: nat)
      requires Valid() && r < |kinds| && Owner(st, r) && WellSized(st)
      modifies this`st
      ensures Linked() && st == old(st).(pcs := [UnlockLoad(r)])
    {
      assert forall t' :: 0 <= t' < |st.pcs| ==> !Releasing(st.pcs[t'], r);
      hide Inv, OwnersOk;
      Advance(StartUnlock(0, r));
    }

    /** The fast path: one compare-exchange. */
    method UnlockFast(r: nat)
      requires Linked() && st.pcs == [UnlockLoad(r)] && r < |kinds| && Owner(st, r) && Fast(kinds[r], latch)
      modifies this`latch, this`st
      ensures Valid() && st == Disown(old(st), r).(pcs := [Idle], word := latch)
    {
      hide Inv, Fast;
      NeverStuck(st, 0);
      Advance(Step(0, false));
      NeverStuck(st, 0);
      latch := latch - Amount(kinds[r]);
      Advance(Step(0, false));
    }

    lemma FirstLive()
      ensures waiters != [] && waiters[0] !in dead ==> Live(waiters, dead)[0] == waiters[0]
    {
    }

    /** Takes the lock only if nobody has it and nobody waits. */
    method TryLock() returns (ok: bool)
      requires Valid()
      modifies this
      ensures Valid() && dead == old(dead) && waiters == old(waiters)
      ensures ok <==> old(waiters == [] && st.exclusives + st.sharers == {})
      ensures ok ==> kinds == old(kinds) + [Exclusive] && st.exclusives == {|old(kinds)|} && st.sharers == {}
      ensures !ok ==> kinds == old(kinds) && View() == old(View())
    {
      Unlatched();
      NeverShort();
      ok := latch == 0;
      if ok {
        latch := LOCK_EXCL;
        kinds := kinds + [Exclusive];
      }
      Advance(Event.TryLock(0));
    }

    /** Takes a share only if no exclusive owner has the lock and nobody waits. */
    method TryLockShared() returns (ok: bool)
      requires Valid()
      modifies this
      ensures Valid() && dead == old(dead) && waiters == old(waiters)
      ensures ok <==> old(waiters == [] && st.exclusives == {})
      ensures ok ==> kinds == old(kinds) + [Shared] && st.exclusives == {}
                     && st.sharers == old(st.sharers) + {|old(kinds)|}
      ensures !ok ==> kinds == old(kinds) && View() == old(View())
    {
      hide Inv, Latched, HasExcl, HasNextExcl, HasNextShared, Held;
      Unlatched();
      NeverShort();
      var w := latch;
      ok := !(Latched(w) || HasNextExcl(w) || HasNextShared(w) || HasExcl(w));
      Advance(Event.TryLockShared(0));
      if ok {
        NeverStuck(st, 0);
        latch := w + LOCK_SHARED;
        kinds := kinds + [Shared];
        Advance(Step(0, false));
      }
    }

    /** A waiting request is given up; it stays in the queue until somebody gets to it. */
    method GiveUp(r: nat)
      requires Valid() && r in waiters && r !in dead
      modifies this`dead, this`st
      ensures Valid() && dead == old(dead) + {r} && latch == old(latch)
      ensures View() == Outcome(Live(waiters, dead), old(st.exclusives), old(st.sharers))
    {
      NeverShort();
      dead := dead + {r};
      Advance(Event.GiveUp(r));
    }

    // ---- facts about the object at rest ----

    lemma Unlatched()
      requires Valid()
      ensures !Latched(latch) && latch == Held(st) + NextBits(waiters, kinds)
      ensures waiters == [] <==> !HasNextExcl(latch) && !HasNextShared(latch)
      ensures HasExcl(latch) <==> st.exclusives != {}
      ensures latch == 0 <==> waiters == [] && st.exclusives + st.sharers == {}
    {
      assert forall t :: 0 <= t < |st.pcs| ==> !InSection(st.pcs[t]);
      WordBits(st);
      if st.exclusives + st.sharers != {} {
        var r :| r in st.exclusives + st.sharers;
        assert r in st.exclusives || r in st.sharers;
      }
    }

    lemma NeverShort()
      requires Linked()
      ensures WellSized(st)
    {
      forall i | 0 <= i < |st.queue| ensures st.queue[i] < |st.kinds| { assert st.queue[i] in st.queue; }
    }

    lemma NobodyWaits(r: nat)
      requires Valid() && r < |kinds|
      ensures waiters == [] ==> Fast(kinds[r], latch)
    {
      Unlatched();
    }

    lemma FastHead(r: nat)
      requires Linked() && !Latched(latch) && r < |kinds| && Owner(st, r) && Fast(kinds[r], latch)
      ensures waiters == [] ==> Live(waiters, dead) == []
      ensures waiters != [] ==> waiters[0] < |kinds| && kinds[waiters[0]].Exclusive?
    {
      WordBits(st);
    }
  }

  /** Two sharers inside, an exclusive request and another sharer waiting. */
  method LagSetup() returns (m: Mutex)
    ensures m.Valid() && m.View() == Outcome([2, 3], {}, {0, 1}) && m.kinds == [Shared, Shared, Exclusive, Shared]
    ensures m.dead == {} && fresh(m)
  {
    hide Inv, Fast, Live, Held;
    m := new Mutex();
    assert [] + [0] == [0];
    ServeOne(0, [Shared], {}, {});
    var r0, _ := m.Lock(Shared);
    assert m.View() == Outcome([], {}, {0});
    assert [] + [1] == [1];
    ServeOne(1, [Shared, Shared], {}, {0});
    var r1, _ := m.Lock(Shared);
    assert m.View() == Outcome([], {}, {0, 1});
    assert [] + [2] == [2];
    ServeOne(2, [Shared, Shared, Exclusive], {}, {0, 1});
    var r2, _ := m.Lock(Exclusive);
    assert m.View() == Outcome([2], {}, {0, 1});
    ServeBlocked([2] + [3], [Shared, Shared, Exclusive, Shared], {}, {0, 1});
    var r3, _ := m.Lock(Shared);
  }

  /** How that state comes about: two sharers, an exclusive request given up, a sharer behind it, and
      one of the first two leaves by the fast path.  The waiting sharer could be let in and is not. */
  method LagExample() returns (m: Mutex)
    ensures m.Valid() && m.View() == Outcome([3], {}, {1}) && m.kinds == [Shared, Shared, Exclusive, Shared]
  {
    hide Inv, Fast, Live, Held;
    m := LagSetup();
    AllLive(m.waiters);
    assert m.View() == Outcome([2, 3], {}, {0, 1}) && m.waiters == [2, 3];
    ExampleWord(m);
    m.GiveUp(2);
    ExampleLive();
    assert m.dead == {2} && m.View() == Outcome([3], {}, {0, 1});
    ghost var x, s := m.st.exclusives, m.st.sharers;
    assert x - {0} == {} && s - {0} == {1};
    var fast := m.Unlock(0);
    assert fast;
  }

  lemma {:induction false} AllLive(queue: seq<nat>)
    ensures Live(queue, {}) == queue
  {
    if queue != [] { AllLive(queue[1..]); }
  }

  lemma ServeBlocked(live: seq<nat>, kinds: seq<Kind>, exclusives: set<nat>, sharers: set<nat>)
    requires live != [] && !Admits(KindOf(kinds, live[0]), exclusives, sharers)
    ensures Serve(live, kinds, exclusives, sharers) == Outcome(live, exclusives, sharers)
  {
  }

  lemma ExampleLive()
    ensures Live([2, 3], {2}) == [3]
  {
    assert [2, 3][1..] == [3];
    assert [3][1..] == [];
  }

  lemma ExampleWord(m: Mutex)
    requires m.Valid() && m.waiters == [2, 3] && m.kinds == [Shared, Shared, Exclusive, Shared]
    requires m.st.exclusives == {} && m.st.sharers == {0, 1}
    ensures Fast(Shared, m.latch) && Owner(m.st, 0)
  {
    m.Unlatched();
    assert |{0, 1}| == 2;
    assert m.latch == 34;
  }

  /** Requests that have not arrived do not matter. */
  lemma {:induction false} ServeKinds(live: seq<nat>, kinds: seq<Kind>, k: Kind, exclusives: set<nat>, sharers: set<nat>)
    requires forall i :: 0 <= i < |live| ==> live[i] < |kinds|
    ensures Serve(live, kinds + [k], exclusives, sharers) == Serve(live, kinds, exclusives, sharers)
  {
    if live != [] && Admits(KindOf(kinds, live[0]), exclusives, sharers) {
      if kinds[live[0]].Shared? {
        ServeKinds(live[1..], kinds, k, exclusives, sharers + {live[0]});
      } else {
        ServeKinds(live[1..], kinds, k, exclusives + {live[0]}, sharers);
      }
    }
  }
}
