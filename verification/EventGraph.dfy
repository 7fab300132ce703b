/**
 The graph of events and quorum events (`any`, `all`) that cotamer tasks wait on, as data: what links
 members and listeners, what an untriggered quorum has counted, and when a quorum is due.
 */
module EventGraph {

  /** A listener is a quorum that has the event as a member, or a suspended coroutine. */
  datatype Listener = Quorum(q: nat) | Coroutine(c: nat)

  /** `interests` is the number of `interest{}` arguments not yet replaced by an event, `wants` the
      flag that there are some here or below. */
  datatype Node = Node(
    quorum: bool, threshold: nat, triggered: bool, count: nat, members: seq<nat>, listeners: seq<Listener>,
    wants: bool, interests: nat)

  /** Notifications on their way: event and quorum. */
  type Pending = multiset<(nat, nat)>

  /** Event 0 stands for the null handle, which counts as triggered. */
  const NULL_NODE: Node := Node(false, 0, true, 0, [], [], false, 0)

  function Times(s: seq<nat>, e: nat): nat { multiset(s)[e] }

  function Listens(s: seq<Listener>, q: nat): nat { multiset(s)[Quorum(q)] }

  /** How often coroutine `c` is suspended on an event with these listeners. */
  function Suspended(s: seq<Listener>, c: nat): nat { multiset(s)[Coroutine(c)] }

  /** How many of the arguments have triggered. */
  function Hits(nodes: seq<Node>, args: seq<nat>): (h: nat)
    requires forall i :: 0 <= i < |args| ==> args[i] < |nodes|
    ensures h <= |args|
  {
    if args == [] then 0 else (if nodes[args[0]].triggered then 1 else 0) + Hits(nodes, args[1..])
  }

  /** The arguments that have not. */
  function Open(nodes: seq<Node>, args: seq<nat>): (o: seq<nat>)
    requires forall i :: 0 <= i < |args| ==> args[i] < |nodes|
    ensures |o| + Hits(nodes, args) == |args|
  {
    if args == [] then []
    else (if nodes[args[0]].triggered then [] else [args[0]]) + Open(nodes, args[1..])
  }

  // ---- the invariant ----

  ghost predicate Ranges(nodes: seq<Node>, args: seq<seq<nat>>) {
    && |args| == |nodes| > 0
    && nodes[0] == NULL_NODE
    && (forall q, i :: 0 <= q < |nodes| && 0 <= i < |args[q]| ==>
          args[q][i] < |nodes| && (nodes[args[q][i]].quorum ==> args[q][i] < q))
    && (forall q, i :: 0 <= q < |nodes| && 0 <= i < |nodes[q].members| ==>
          nodes[q].members[i] < |nodes| && nodes[q].members[i] != q)
    && (forall e, i :: 0 <= e < |nodes| && 0 <= i < |nodes[e].listeners| ==>
          nodes[e].listeners[i].Quorum? ==> nodes[e].listeners[i].q < |nodes|)
    && (forall q :: 0 <= q < |nodes| && !nodes[q].quorum ==>
          nodes[q].members == [] && !nodes[q].wants && nodes[q].interests == 0)
    && (forall q, i :: 0 <= q < |nodes| && 0 <= i < |nodes[q].members| && nodes[nodes[q].members[i]].quorum ==>
          nodes[q].members[i] < q)
  }

  /** A quorum has an event as a member as often as it is among the event's listeners, not counting
      notifications on their way. */
  ghost predicate Linked(nodes: seq<Node>, pend: Pending) {
    forall e, q :: 0 <= e < |nodes| && 0 <= q < |nodes| ==>
      Times(nodes[q].members, e) == Listens(nodes[e].listeners, q) + pend[(e, q)]
  }

  /** Triggered events have no quorums to notify but those being notified. */
  ghost predicate Settled(nodes: seq<Node>, pend: Pending) {
    && (forall e, q :: 0 <= e < |nodes| && 0 <= q && nodes[e].triggered ==> Listens(nodes[e].listeners, q) == 0)
    && (forall p :: p in pend ==> p.0 < |nodes| && p.1 < |nodes| && nodes[p.0].triggered)
  }

  /** An untriggered quorum has its untriggered arguments as members and has counted the others, but for
      those whose notification is on its way. */
  ghost predicate Counted(nodes: seq<Node>, args: seq<seq<nat>>, q: nat)
    requires q < |nodes| == |args|
  {
    && nodes[q].count + |nodes[q].members| == |args[q]|
    && forall e :: 0 <= e < |nodes| && !nodes[e].triggered ==> Times(nodes[q].members, e) == Times(args[q], e)
  }

  ghost predicate AllCounted(nodes: seq<Node>, args: seq<seq<nat>>, open: int)
    requires |nodes| == |args|
  {
    forall q :: 0 <= q < |nodes| && nodes[q].quorum && !nodes[q].triggered && q != open ==> Counted(nodes, args, q)
  }

  ghost predicate Below(nodes: seq<Node>, open: int) {
    forall q :: 0 <= q < |nodes| && nodes[q].quorum && !nodes[q].triggered && q != open ==>
      nodes[q].count < nodes[q].threshold
  }

  /** A quorum triggers only when enough arguments have, unless somebody triggers it directly. */
  ghost predicate Due(nodes: seq<Node>, args: seq<seq<nat>>, fired: set<nat>)
    requires Ranges(nodes, args)
  {
    forall q :: 0 <= q < |nodes| && nodes[q].quorum && nodes[q].triggered && q !in fired ==>
      Hits(nodes, args[q]) >= nodes[q].threshold
  }

  /** A quorum that has triggered is not waiting for anything any more. */
  ghost predicate Clean(nodes: seq<Node>) {
    forall q, i :: 0 <= q < |nodes| && nodes[q].triggered && 0 <= i < |nodes[q].members| && nodes[q].members[i] < |nodes| ==>
      nodes[nodes[q].members[i]].triggered
  }

  /** `open` is a quorum that is being made or triggered, -1 when there is none. */
  ghost predicate Inv(nodes: seq<Node>, args: seq<seq<nat>>, fired: set<nat>, pend: Pending, open: int) {
    && Ranges(nodes, args) && Linked(nodes, pend) && Settled(nodes, pend)
    && AllCounted(nodes, args, open) && Below(nodes, open) && Due(nodes, args, fired) && Clean(nodes)
  }

  function Untriggered(nodes: seq<Node>): nat {
    if nodes == [] then 0 else (if nodes[0].triggered then 0 else 1) + Untriggered(nodes[1..])
  }

  // ---- lists ----

  /** Element `i` is replaced by the last and the list gets shorter. */
  function SwapRemove<T>(s: seq<T>, i: nat): (r: seq<T>)
    requires i < |s|
    ensures |r| == |s| - 1
  {
    s[i := s[|s| - 1]][..|s| - 1]
  }

  lemma SwapRemoves<T>(s: seq<T>, i: nat)
    requires i < |s|
    ensures multiset(SwapRemove(s, i)) == multiset(s) - multiset{s[i]}
  {
    var n := |s| - 1;
    var front := s[..n];
    assert s == front + [s[n]];
    if i < n {
      assert SwapRemove(s, i) == front[i := s[n]];
      assert multiset(front[i := s[n]]) == multiset(front) - multiset{s[i]} + multiset{s[n]};
    } else {
      assert SwapRemove(s, i) == front;
    }
  }

  function IndexOf<T(==)>(s: seq<T>, x: T): (i: nat)
    ensures i <= |s| && (i < |s| ==> s[i] == x)
    ensures x in s <==> i < |s|
  {
    if s == [] || s[0] == x then 0 else 1 + IndexOf(s[1..], x)
  }

  function QuorumsOf(s: seq<Listener>): seq<nat> {
    if s == [] then [] else (if s[0].Quorum? then [s[0].q] else []) + QuorumsOf(s[1..])
  }

  function CoroutinesOf(s: seq<Listener>): seq<Listener> {
    if s == [] then [] else (if s[0].Quorum? then [] else [s[0]]) + CoroutinesOf(s[1..])
  }

  lemma NoTimes(q: nat)
    ensures Times([], q) == 0 && Listens([], q) == 0
  {
  }

  lemma TimesCons(x: nat, s: seq<nat>, e: nat)
    ensures Times([x] + s, e) == (if x == e then 1 else 0) + Times(s, e)
  {
  }

  lemma ListensCons(x: Listener, s: seq<Listener>, q: nat)
    ensures Listens([x] + s, q) == (if x == Quorum(q) then 1 else 0) + Listens(s, q)
  {
  }

  lemma {:induction false} CoroutinesStay(s: seq<Listener>, c: nat)
    ensures Suspended(CoroutinesOf(s), c) == Suspended(s, c)
  {
    if s != [] {
      CoroutinesStay(s[1..], c);
      assert s == [s[0]] + s[1..];
    }
  }

  lemma {:induction false} Partition(s: seq<Listener>, q: nat)
    ensures Times(QuorumsOf(s), q) == Listens(s, q)
    ensures Listens(CoroutinesOf(s), q) == 0
    ensures forall i :: 0 <= i < |CoroutinesOf(s)| ==> CoroutinesOf(s)[i].Coroutine?
  {
    NoTimes(q);
    hide Times, Listens;
    if s != [] {
      Partition(s[1..], q);
      assert s == [s[0]] + s[1..];
      ListensCons(s[0], s[1..], q);
      if s[0].Quorum? {
        TimesCons(s[0].q, QuorumsOf(s[1..]), q);
        assert [] + CoroutinesOf(s[1..]) == CoroutinesOf(s[1..]);
      } else {
        ListensCons(s[0], CoroutinesOf(s[1..]), q);
        assert [] + QuorumsOf(s[1..]) == QuorumsOf(s[1..]);
      }
    }
  }

  /** The notifications of `e` to the quorums in `qs`. */
  ghost function Notices(e: nat, qs: seq<nat>): Pending {
    if qs == [] then multiset{} else multiset{(e, qs[0])} + Notices(e, qs[1..])
  }

  lemma {:induction false} NoticesAre(e: nat, qs: seq<nat>, p: (nat, nat))
    ensures Notices(e, qs)[p] == if p.0 == e then Times(qs, p.1) else 0
  {
    if qs != [] {
      NoticesAre(e, qs[1..], p);
      assert qs == [qs[0]] + qs[1..];
    }
  }

  // ---- counting ----

  lemma {:induction false} OpenTimes(nodes: seq<Node>, args: seq<nat>, e: nat)
    requires forall i :: 0 <= i < |args| ==> args[i] < |nodes|
    ensures Times(Open(nodes, args), e) == if e < |nodes| && !nodes[e].triggered then Times(args, e) else 0
  {
    if args != [] {
      OpenTimes(nodes, args[1..], e);
      assert args == [args[0]] + args[1..];
    } else {
      assert multiset(args)[e] == 0;
    }
  }

  lemma Sizes(a: seq<nat>, b: seq<nat>)
    requires forall e: nat :: Times(a, e) <= Times(b, e)
    ensures |a| <= |b|
  {
    forall e: nat ensures multiset(a)[e] <= multiset(b)[e] {
      assert Times(a, e) <= Times(b, e);
    }
    assert multiset(a) <= multiset(b);
    SubSize(multiset(a), multiset(b));
    assert |multiset(a)| == |a| && |multiset(b)| == |b|;
  }

  lemma SubSize<T>(a: multiset<T>, b: multiset<T>)
    requires a <= b
    ensures |a| <= |b|
  {
    assert b == a + (b - a);
  }

  /** What a quorum has counted has triggered. */
  lemma CountedHits(nodes: seq<Node>, args: seq<seq<nat>>, q: nat)
    requires Ranges(nodes, args) && q < |nodes| && Counted(nodes, args, q)
    ensures nodes[q].count <= Hits(nodes, args[q])
  {
    var open := Open(nodes, args[q]);
    forall e: nat ensures Times(open, e) <= Times(nodes[q].members, e) {
      OpenTimes(nodes, args[q], e);
    }
    Sizes(open, nodes[q].members);
  }

  /** And with no notification on its way, it has counted all that have. */
  lemma CountIsHits(nodes: seq<Node>, args: seq<seq<nat>>, q: nat)
    requires Ranges(nodes, args) && Linked(nodes, multiset{}) && Settled(nodes, multiset{})
    requires q < |nodes| && Counted(nodes, args, q)
    ensures nodes[q].count == Hits(nodes, args[q])
  {
    CountedHits(nodes, args, q);
    var open := Open(nodes, args[q]);
    forall e: nat ensures Times(nodes[q].members, e) <= Times(open, e) {
      OpenTimes(nodes, args[q], e);
      MemberTimes(nodes, args, q, e);
    }
    hide Times, Hits, Counted;
    Sizes(nodes[q].members, open);
  }

  /** At rest members are untriggered. */
  lemma MemberTimes(nodes: seq<Node>, args: seq<seq<nat>>, q: nat, e: nat)
    requires Ranges(nodes, args) && Linked(nodes, multiset{}) && Settled(nodes, multiset{}) && q < |nodes|
    ensures e >= |nodes| || nodes[e].triggered ==> Times(nodes[q].members, e) == 0
  {
    if e >= |nodes| {
      assert forall i :: 0 <= i < |nodes[q].members| ==> nodes[q].members[i] != e;
    } else if nodes[e].triggered {
      assert Listens(nodes[e].listeners, q) == 0;
    }
  }

  lemma {:induction false} HitsGrow(nodes: seq<Node>, nodes': seq<Node>, args: seq<nat>)
    requires |nodes| <= |nodes'| && forall i :: 0 <= i < |args| ==> args[i] < |nodes|
    requires forall e :: 0 <= e < |nodes| && nodes[e].triggered ==> nodes'[e].triggered
    ensures Hits(nodes, args) <= Hits(nodes', args)
  {
    if args != [] { HitsGrow(nodes, nodes', args[1..]); }
  }

  lemma {:induction false} FewerUntriggered(nodes: seq<Node>, e: nat, n: Node)
    requires e < |nodes|
    ensures Untriggered(nodes[e := n]) ==
            Untriggered(nodes) + (if n.triggered then 0 else 1) - (if nodes[e].triggered then 0 else 1)
  {
    if e == 0 {
      assert nodes[e := n][1..] == nodes[1..];
    } else {
      assert nodes[e := n][1..] == nodes[1..][e - 1 := n];
      FewerUntriggered(nodes[1..], e - 1, n);
    }
  }

  // ---- the result ----

  /** `any` and `all` fire exactly when due: at rest, a quorum nobody has triggered directly has
      triggered if and only if enough of its arguments have; and until then its count is their number. */
  lemma ExactlyWhenDue(nodes: seq<Node>, args: seq<seq<nat>>, fired: set<nat>, q: nat)
    requires Inv(nodes, args, fired, multiset{}, -1) && q < |nodes| && nodes[q].quorum
    ensures !nodes[q].triggered ==> nodes[q].count == Hits(nodes, args[q]) < nodes[q].threshold
    ensures q !in fired ==> (nodes[q].triggered <==> Hits(nodes, args[q]) >= nodes[q].threshold)
  {
    if !nodes[q].triggered { CountIsHits(nodes, args, q); }
  }

  /** Nothing lingers: at rest, what has triggered is linked to nothing, so an event does not keep quorums that
      are over among its listeners, however many are made and triggered. */
  lemma NothingLingers(nodes: seq<Node>, args: seq<seq<nat>>, fired: set<nat>, q: nat)
    requires Inv(nodes, args, fired, multiset{}, -1) && q < |nodes| && nodes[q].triggered
    ensures nodes[q].members == []
    ensures forall e, i :: 0 <= e < |nodes| && 0 <= i < |nodes[e].listeners| ==> nodes[e].listeners[i] != Quorum(q)
    ensures forall i :: 0 <= i < |nodes[q].listeners| ==> nodes[q].listeners[i].Coroutine?
  {
    hide AllCounted, Below, Due;
    var none: Pending := multiset{};
    if nodes[q].members != [] { WaitingIsOpen(nodes, args, q); }
    forall e, i | 0 <= e < |nodes| && 0 <= i < |nodes[e].listeners| ensures nodes[e].listeners[i] != Quorum(q) {
      assert Times(nodes[q].members, e) == Listens(nodes[e].listeners, q) + none[(e, q)];
      NoTimes(e);
      assert nodes[e].listeners[i] in nodes[e].listeners;
    }
    OnlyCoroutines(nodes[q].listeners);
  }

  /** At rest all members of quorums are still to trigger. */
  lemma OpenMembers(nodes: seq<Node>, args: seq<seq<nat>>, q: nat)
    requires Ranges(nodes, args) && Linked(nodes, multiset{}) && Settled(nodes, multiset{}) && q < |nodes|
    ensures forall i :: 0 <= i < |nodes[q].members| ==> !nodes[nodes[q].members[i]].triggered
  {
    var none: Pending := multiset{};
    forall i | 0 <= i < |nodes[q].members| ensures !nodes[nodes[q].members[i]].triggered {
      var m := nodes[q].members[i];
      assert m in nodes[q].members;
      assert Times(nodes[q].members, m) == Listens(nodes[m].listeners, q) + none[(m, q)];
    }
  }

  lemma WaitingIsOpen(nodes: seq<Node>, args: seq<seq<nat>>, q: nat)
    requires Ranges(nodes, args) && Linked(nodes, multiset{}) && Settled(nodes, multiset{}) && Clean(nodes)
    requires q < |nodes| && nodes[q].members != []
    ensures !nodes[q].triggered
  {
    OpenMembers(nodes, args, q);
    assert !nodes[nodes[q].members[0]].triggered;
  }

  lemma OnlyCoroutines(s: seq<Listener>)
    requires forall q: nat :: Listens(s, q) == 0
    ensures forall i :: 0 <= i < |s| ==> s[i].Coroutine?
  {
    forall i | 0 <= i < |s| ensures s[i].Coroutine? {
      assert s[i] in s;
      assert s[i].Quorum? ==> Listens(s, s[i].q) == 0;
    }
  }

  lemma {:induction false} SameHits(nodes: seq<Node>, nodes': seq<Node>, args: seq<nat>)
    requires |nodes| == |nodes'| && forall i :: 0 <= i < |args| ==> args[i] < |nodes|
    requires forall i :: 0 <= i < |args| ==> nodes'[args[i]].triggered == nodes[args[i]].triggered
    ensures Hits(nodes', args) == Hits(nodes, args)
  {
    if args != [] { SameHits(nodes, nodes', args[1..]); }
  }

  /** Nothing else decides: whatever the order of triggers and notifications, two graphs of the same
      quorums in which the same plain events have triggered, and the same quorums directly, agree on
      every quorum. */
  lemma {:induction false} Determined(nodes: seq<Node>, nodes': seq<Node>, args: seq<seq<nat>>, fired: set<nat>, q: nat)
    requires Inv(nodes, args, fired, multiset{}, -1) && Inv(nodes', args, fired, multiset{}, -1)
    requires forall e :: 0 <= e < |nodes| ==>
               nodes'[e].quorum == nodes[e].quorum && nodes'[e].threshold == nodes[e].threshold
    requires forall e :: 0 <= e < |nodes| && (!nodes[e].quorum || e in fired) ==>
               nodes'[e].triggered == nodes[e].triggered
    requires q < |nodes|
    ensures nodes'[q].triggered == nodes[q].triggered
    decreases q
  {
    if nodes[q].quorum && q !in fired {
      assert Ranges(nodes, args);
      forall i | 0 <= i < |args[q]| ensures nodes'[args[q][i]].triggered == nodes[args[q][i]].triggered {
        if nodes[args[q][i]].quorum { Determined(nodes, nodes', args, fired, args[q][i]); }
      }
      SameHits(nodes, nodes', args[q]);
      ExactlyWhenDue(nodes, args, fired, q);
      ExactlyWhenDue(nodes', args, fired, q);
    }
  }
}
