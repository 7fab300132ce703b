/** The single steps by which the program changes the graph of events, and what each of them keeps. */
module EventSteps {
  import opened EventGraph

  /** Later nodes: events stay triggered, and all that changes otherwise is counts and lists. */
  ghost predicate Evolves(nodes: seq<Node>, nodes': seq<Node>) {
    && |nodes| == |nodes'|
    && Untriggered(nodes') <= Untriggered(nodes)
    && forall e :: 0 <= e < |nodes| ==>
         && (nodes[e].triggered ==> nodes'[e].triggered)
         && nodes'[e].quorum == nodes[e].quorum && nodes'[e].threshold == nodes[e].threshold
         && nodes'[e].interests == nodes[e].interests && nodes'[e].wants == nodes[e].wants
         && SameSuspended(nodes[e], nodes'[e])
  }

  /** No coroutine that waits for the event has been lost or added. */
  ghost predicate SameSuspended(n: Node, n': Node) {
    forall c: nat :: Suspended(n'.listeners, c) == Suspended(n.listeners, c)
  }

  /** Plain events do not trigger by themselves. */
  ghost predicate PlainSame(nodes: seq<Node>, nodes': seq<Node>, but: nat) {
    |nodes| == |nodes'| && forall e :: 0 <= e < |nodes| && !nodes[e].quorum && e != but ==>
      nodes'[e].triggered == nodes[e].triggered
  }

  lemma SameFlags(nodes: seq<Node>, e: nat, n: Node)
    requires e < |nodes| && n.triggered == nodes[e].triggered && n.quorum == nodes[e].quorum
    requires n.threshold == nodes[e].threshold && n.interests == nodes[e].interests && n.wants == nodes[e].wants
    requires SameSuspended(nodes[e], n)
    ensures Evolves(nodes, nodes[e := n])
  {
    FewerUntriggered(nodes, e, n);
  }

  lemma DueStays(nodes: seq<Node>, nodes': seq<Node>, args: seq<seq<nat>>, fired: set<nat>)
    requires Ranges(nodes, args) && Ranges(nodes', args) && Due(nodes, args, fired) && |nodes| == |nodes'|
    requires forall e :: 0 <= e < |nodes| ==>
               && nodes'[e].triggered == nodes[e].triggered
               && nodes'[e].quorum == nodes[e].quorum && nodes'[e].threshold == nodes[e].threshold
    ensures Due(nodes', args, fired)
  {
    forall q | 0 <= q < |nodes| && nodes[q].quorum && nodes[q].triggered && q !in fired
      ensures Hits(nodes', args[q]) >= nodes'[q].threshold
    {
      HitsGrow(nodes, nodes', args[q]);
    }
  }

  // ---- a member leaves a quorum that is triggering ----

  /** Member `i` of `q` and the listener `j` it has for that go. */
  function Unlink(nodes: seq<Node>, q: nat, i: nat, j: nat): (r: seq<Node>)
    requires q < |nodes| && i < |nodes[q].members| && nodes[q].members[i] < |nodes| && nodes[q].members[i] != q
    requires j < |nodes[nodes[q].members[i]].listeners|
    ensures |r| == |nodes|
  {
    var m := nodes[q].members[i];
    nodes[m := nodes[m].(listeners := SwapRemove(nodes[m].listeners, j))]
         [q := nodes[q].(members := SwapRemove(nodes[q].members, i))]
  }

  lemma UnlinkRanges(nodes: seq<Node>, args: seq<seq<nat>>, q: nat, i: nat, j: nat)
    requires Ranges(nodes, args) && q < |nodes| && i < |nodes[q].members|
    requires j < |nodes[nodes[q].members[i]].listeners|
    ensures Ranges(Unlink(nodes, q, i, j), args)
  {
  }

  lemma UnlinkLinked(nodes: seq<Node>, pend: Pending, q: nat, i: nat, j: nat)
    requires Linked(nodes, pend)
    requires q < |nodes| && i < |nodes[q].members| && nodes[q].members[i] < |nodes| && nodes[q].members[i] != q
    requires j < |nodes[nodes[q].members[i]].listeners|
    requires nodes[nodes[q].members[i]].listeners[j] == Quorum(q)
    ensures Linked(Unlink(nodes, q, i, j), pend)
  {
    hide Times, Listens;
    var nodes', m := Unlink(nodes, q, i, j), nodes[q].members[i];
    forall e, p | 0 <= e < |nodes| && 0 <= p < |nodes|
      ensures Times(nodes'[p].members, e) == Listens(nodes'[e].listeners, p) + pend[(e, p)]
    {
      assert Times(nodes[p].members, e) == Listens(nodes[e].listeners, p) + pend[(e, p)];
      TimesLess(nodes[q].members, i, e);
      ListensLess(nodes[m].listeners, j, p);
    }
  }

  lemma TimesLess(s: seq<nat>, i: nat, e: nat)
    requires i < |s|
    ensures Times(SwapRemove(s, i), e) == Times(s, e) - if s[i] == e then 1 else 0
  {
    SwapRemoves(s, i);
  }

  lemma ListensLess(s: seq<Listener>, i: nat, q: nat)
    requires i < |s|
    ensures Listens(SwapRemove(s, i), q) == Listens(s, q) - if s[i] == Quorum(q) then 1 else 0
    ensures s[i].Quorum? ==> forall c: nat :: Suspended(SwapRemove(s, i), c) == Suspended(s, c)
  {
    SwapRemoves(s, i);
  }

  lemma UnlinkInv(nodes: seq<Node>, args: seq<seq<nat>>, fired: set<nat>, pend: Pending, q: nat, i: nat)
    requires Inv(nodes, args, fired, pend, q) && q < |nodes| && !nodes[q].triggered
    requires i < |nodes[q].members| && !nodes[nodes[q].members[i]].triggered
    ensures var m := nodes[q].members[i];
            var j := IndexOf(nodes[m].listeners, Quorum(q));
            && j < |nodes[m].listeners|
            && Inv(Unlink(nodes, q, i, j), args, fired, pend, q)
            && Evolves(nodes, Unlink(nodes, q, i, j))
            && forall e :: 0 <= e < |nodes| ==> Unlink(nodes, q, i, j)[e].triggered == nodes[e].triggered
  {
    var m := nodes[q].members[i];
    var j := IndexOf(nodes[m].listeners, Quorum(q));
    HasListener(nodes, args, pend, q, i);
    var nodes' := Unlink(nodes, q, i, j);
    UnlinkRanges(nodes, args, q, i, j);
    UnlinkLinked(nodes, pend, q, i, j);
    UnlinkSettled(nodes, pend, q, i, j);
    UnlinkCounted(nodes, args, q, i, j);
    DueStays(nodes, nodes', args, fired);
    ListensLess(nodes[m].listeners, j, q);
    var nodes1 := nodes[m := nodes[m].(listeners := SwapRemove(nodes[m].listeners, j))];
    SameFlags(nodes, m, nodes1[m]);
    SameFlags(nodes1, q, nodes'[q]);
  }

  lemma HasListener(nodes: seq<Node>, args: seq<seq<nat>>, pend: Pending, q: nat, i: nat)
    requires Ranges(nodes, args) && Linked(nodes, pend) && Settled(nodes, pend)
    requires q < |nodes| && i < |nodes[q].members| && !nodes[nodes[q].members[i]].triggered
    ensures Quorum(q) in nodes[nodes[q].members[i]].listeners
  {
    var m := nodes[q].members[i];
    assert m in nodes[q].members && Times(nodes[q].members, m) > 0;
    assert (m, q) !in pend;
    assert Times(nodes[q].members, m) == Listens(nodes[m].listeners, q) + pend[(m, q)];
  }

  lemma UnlinkSettled(nodes: seq<Node>, pend: Pending, q: nat, i: nat, j: nat)
    requires Settled(nodes, pend)
    requires q < |nodes| && i < |nodes[q].members| && nodes[q].members[i] < |nodes| && nodes[q].members[i] != q
    requires j < |nodes[nodes[q].members[i]].listeners| && !nodes[nodes[q].members[i]].triggered
    ensures Settled(Unlink(nodes, q, i, j), pend)
  {
  }

  lemma UnlinkCounted(nodes: seq<Node>, args: seq<seq<nat>>, q: nat, i: nat, j: nat)
    requires |args| == |nodes| && AllCounted(nodes, args, q)
    requires q < |nodes| && i < |nodes[q].members| && nodes[q].members[i] < |nodes| && nodes[q].members[i] != q
    requires j < |nodes[nodes[q].members[i]].listeners|
    ensures AllCounted(Unlink(nodes, q, i, j), args, q)
  {
    var nodes' := Unlink(nodes, q, i, j);
    forall p | 0 <= p < |nodes| && nodes'[p].quorum && !nodes'[p].triggered && p != q ensures Counted(nodes', args, p) {
      assert Counted(nodes, args, p);
    }
  }

  // ---- an event is marked as triggered ----

  function Mark(nodes: seq<Node>, e: nat): (r: seq<Node>)
    requires e < |nodes|
    ensures |r| == |nodes|
  {
    nodes[e := nodes[e].(triggered := true, listeners := CoroutinesOf(nodes[e].listeners))]
  }

  lemma MarkInv(nodes: seq<Node>, args: seq<seq<nat>>, fired: set<nat>, pend: Pending, e: nat)
    requires Inv(nodes, args, fired, pend, e) && e < |nodes| && !nodes[e].triggered
    requires nodes[e].quorum && e !in fired ==> Hits(nodes, args[e]) >= nodes[e].threshold
    requires forall i :: 0 <= i < |nodes[e].members| ==> nodes[nodes[e].members[i]].triggered
    ensures Inv(Mark(nodes, e), args, fired, pend + Notices(e, QuorumsOf(nodes[e].listeners)), -1)
    ensures Evolves(nodes, Mark(nodes, e)) && PlainSame(nodes, Mark(nodes, e), e)
    ensures Untriggered(Mark(nodes, e)) < Untriggered(nodes) && Mark(nodes, e)[e].triggered
  {
    MarkRanges(nodes, args, e);
    MarkFlags(nodes, args, e);
    MarkClean(nodes, args, e);
    hide Ranges, Clean, Linked, Settled, AllCounted, Due, Notices, CoroutinesOf, QuorumsOf, Mark;
    MarkLinked(nodes, args, pend, e);
    MarkSettled(nodes, args, pend, e);
    MarkCounted(nodes, args, e);
    MarkDue(nodes, args, fired, e);
  }

  lemma MarkClean(nodes: seq<Node>, args: seq<seq<nat>>, e: nat)
    requires Ranges(nodes, args) && Clean(nodes) && e < |nodes|
    requires forall i :: 0 <= i < |nodes[e].members| ==> nodes[nodes[e].members[i]].triggered
    ensures Clean(Mark(nodes, e))
  {
    hide CoroutinesOf;
  }

  lemma MarkFlags(nodes: seq<Node>, args: seq<seq<nat>>, e: nat)
    requires e < |nodes| && !nodes[e].triggered
    ensures Evolves(nodes, Mark(nodes, e)) && PlainSame(nodes, Mark(nodes, e), e) && Mark(nodes, e)[e].triggered
    ensures Untriggered(Mark(nodes, e)) < Untriggered(nodes)
    ensures Below(nodes, e) ==> Below(Mark(nodes, e), -1)
  {
    FewerUntriggered(nodes, e, Mark(nodes, e)[e]);
    forall c: nat ensures Suspended(Mark(nodes, e)[e].listeners, c) == Suspended(nodes[e].listeners, c) {
      CoroutinesStay(nodes[e].listeners, c);
    }
  }

  lemma MarkDue(nodes: seq<Node>, args: seq<seq<nat>>, fired: set<nat>, e: nat)
    requires e < |nodes| && Ranges(nodes, args) && Ranges(Mark(nodes, e), args) && Due(nodes, args, fired)
    requires nodes[e].quorum && e !in fired ==> Hits(nodes, args[e]) >= nodes[e].threshold
    ensures Due(Mark(nodes, e), args, fired)
  {
    var nodes' := Mark(nodes, e);
    forall q | 0 <= q < |nodes| && nodes'[q].quorum && nodes'[q].triggered && q !in fired
      ensures Hits(nodes', args[q]) >= nodes'[q].threshold
    {
      HitsGrow(nodes, nodes', args[q]);
    }
  }

  lemma MarkCounted(nodes: seq<Node>, args: seq<seq<nat>>, e: nat)
    requires |args| == |nodes| && AllCounted(nodes, args, e) && e < |nodes|
    ensures AllCounted(Mark(nodes, e), args, -1)
  {
    var nodes' := Mark(nodes, e);
    forall q | 0 <= q < |nodes| && nodes'[q].quorum && !nodes'[q].triggered ensures Counted(nodes', args, q) {
      assert Counted(nodes, args, q);
    }
  }

  lemma MarkRanges(nodes: seq<Node>, args: seq<seq<nat>>, e: nat)
    requires Ranges(nodes, args) && e < |nodes| && !nodes[e].triggered
    ensures Ranges(Mark(nodes, e), args)
  {
    Partition(nodes[e].listeners, 0);
  }

  lemma MarkLinked(nodes: seq<Node>, args: seq<seq<nat>>, pend: Pending, e: nat)
    requires Linked(nodes, pend) && e < |nodes|
    ensures Linked(Mark(nodes, e), pend + Notices(e, QuorumsOf(nodes[e].listeners)))
  {
    var nodes', qs := Mark(nodes, e), QuorumsOf(nodes[e].listeners);
    forall x, q | 0 <= x < |nodes| && 0 <= q < |nodes|
      ensures Times(nodes'[q].members, x) == Listens(nodes'[x].listeners, q) + (pend + Notices(e, qs))[(x, q)]
    {
      assert Times(nodes[q].members, x) == Listens(nodes[x].listeners, q) + pend[(x, q)];
      NoticesAre(e, qs, (x, q));
      Partition(nodes[e].listeners, q);
      hide Times, Listens;
    }
  }

  lemma MarkSettled(nodes: seq<Node>, args: seq<seq<nat>>, pend: Pending, e: nat)
    requires Ranges(nodes, args) && Settled(nodes, pend) && e < |nodes|
    ensures Settled(Mark(nodes, e), pend + Notices(e, QuorumsOf(nodes[e].listeners)))
  {
    var nodes', qs := Mark(nodes, e), QuorumsOf(nodes[e].listeners);
    forall x, q | 0 <= x < |nodes| && 0 <= q && nodes'[x].triggered ensures Listens(nodes'[x].listeners, q) == 0 {
      Partition(nodes[e].listeners, q);
    }
    forall p | p in pend + Notices(e, qs) ensures p.0 < |nodes| && p.1 < |nodes| && nodes'[p.0].triggered {
      NoticesAre(e, qs, p);
      if p !in pend {
        Partition(nodes[e].listeners, p.1);
        assert Quorum(p.1) in nodes[e].listeners;
      }
    }
  }

  // ---- a notification arrives ----

  function Arrived(nodes: seq<Node>, q: nat, i: nat): (r: seq<Node>)
    requires q < |nodes| && i < |nodes[q].members|
    ensures |r| == |nodes|
  {
    nodes[q := nodes[q].(count := nodes[q].count + 1, members := SwapRemove(nodes[q].members, i))]
  }

  lemma ArrivedInv(nodes: seq<Node>, args: seq<seq<nat>>, fired: set<nat>, pend: Pending, q: nat, e: nat)
    requires Inv(nodes, args, fired, pend + multiset{(e, q)}, -1)
    ensures q < |nodes| && e in nodes[q].members
    ensures var nodes' := Arrived(nodes, q, IndexOf(nodes[q].members, e));
            && Inv(nodes', args, fired, pend, q)
            && (!nodes'[q].triggered && nodes'[q].quorum ==> Counted(nodes', args, q))
            && nodes'[q].triggered == nodes[q].triggered && nodes'[q].quorum
            && Evolves(nodes, nodes') && PlainSame(nodes, nodes', q)
  {
    hide Due, AllCounted, Counted, Linked, Settled;
    NoticedIsMember(nodes, args, pend, q, e);
    var i := IndexOf(nodes[q].members, e);
    var nodes' := Arrived(nodes, q, i);
    SameFlags(nodes, q, nodes'[q]);
    ArrivedRanges(nodes, args, q, i);
    ArrivedLinked(nodes, pend, q, e);
    ArrivedSettled(nodes, pend, q, e);
    DueStays(nodes, nodes', args, fired);
    ArrivedCounted(nodes, args, q, i);
    ArrivedWhole(nodes', args, q);
    hide Ranges;
  }

  lemma NoticedIsMember(nodes: seq<Node>, args: seq<seq<nat>>, pend: Pending, q: nat, e: nat)
    requires Ranges(nodes, args) && Linked(nodes, pend + multiset{(e, q)}) && Settled(nodes, pend + multiset{(e, q)})
    ensures q < |nodes| && e < |nodes| && nodes[e].triggered && e in nodes[q].members && nodes[q].quorum
  {
    assert (e, q) in pend + multiset{(e, q)};
    assert Times(nodes[q].members, e) > 0 by {
      assert Times(nodes[q].members, e) == Listens(nodes[e].listeners, q) + (pend + multiset{(e, q)})[(e, q)];
    }
  }

  lemma ArrivedWhole(nodes: seq<Node>, args: seq<seq<nat>>, q: nat)
    requires |args| == |nodes| && AllCounted(nodes, args, -1) && q < |nodes|
    ensures AllCounted(nodes, args, q)
    ensures nodes[q].quorum && !nodes[q].triggered ==> Counted(nodes, args, q)
  {
  }

  lemma ArrivedRanges(nodes: seq<Node>, args: seq<seq<nat>>, q: nat, i: nat)
    requires Ranges(nodes, args) && q < |nodes| && i < |nodes[q].members|
    ensures Ranges(Arrived(nodes, q, i), args)
  {
  }

  lemma ArrivedLinked(nodes: seq<Node>, pend: Pending, q: nat, e: nat)
    requires Linked(nodes, pend + multiset{(e, q)}) && q < |nodes| && e in nodes[q].members
    ensures Linked(Arrived(nodes, q, IndexOf(nodes[q].members, e)), pend)
  {
    hide Listens;
    var i := IndexOf(nodes[q].members, e);
    var nodes' := Arrived(nodes, q, i);
    SwapRemoves(nodes[q].members, i);
    forall x, p | 0 <= x < |nodes| && 0 <= p < |nodes|
      ensures Times(nodes'[p].members, x) == Listens(nodes'[x].listeners, p) + pend[(x, p)]
    {
      assert Times(nodes[p].members, x) == Listens(nodes[x].listeners, p) + (pend + multiset{(e, q)})[(x, p)];
    }
  }

  lemma ArrivedSettled(nodes: seq<Node>, pend: Pending, q: nat, e: nat)
    requires Settled(nodes, pend + multiset{(e, q)}) && q < |nodes| && e in nodes[q].members
    ensures Settled(Arrived(nodes, q, IndexOf(nodes[q].members, e)), pend)
  {
    forall p | p in pend ensures p.0 < |nodes| && p.1 < |nodes| && nodes[p.0].triggered {
      assert p in pend + multiset{(e, q)};
    }
  }

  lemma ArrivedCounted(nodes: seq<Node>, args: seq<seq<nat>>, q: nat, i: nat)
    requires Ranges(nodes, args) && AllCounted(nodes, args, -1) && q < |nodes| && i < |nodes[q].members|
    requires nodes[nodes[q].members[i]].triggered
    ensures AllCounted(Arrived(nodes, q, i), args, -1)
  {
    var nodes' := Arrived(nodes, q, i);
    SwapRemoves(nodes[q].members, i);
    forall p | 0 <= p < |nodes| && nodes'[p].quorum && !nodes'[p].triggered ensures Counted(nodes', args, p) {
      assert Counted(nodes, args, p);
    }
  }

  // ---- a new node, and its members ----

  function Extended(nodes: seq<Node>, n: Node): seq<Node> { nodes + [n] }

  /** A new event or a quorum without members yet. */
  lemma ExtendInv(nodes: seq<Node>, args: seq<seq<nat>>, fired: set<nat>, n: Node)
    requires Inv(nodes, args, fired, multiset{}, -1)
    requires !n.triggered && n.count == 0 && n.members == [] && n.listeners == [] && !n.wants && n.interests == 0
    ensures Inv(Extended(nodes, n), args + [[]], fired, multiset{}, |nodes|)
    ensures Counted(Extended(nodes, n), args + [[]], |nodes|)
    ensures !n.quorum ==> Inv(Extended(nodes, n), args + [[]], fired, multiset{}, -1)
  {
    ExtendRanges(nodes, args, n);
    ExtendLinked(nodes, args, n);
    ExtendCounted(nodes, args, n);
    ExtendDue(nodes, args, fired, n);
    hide Ranges, Linked, AllCounted, Due, Counted;
    NoTimes(0);
    var nodes' := Extended(nodes, n);
    forall e, q | 0 <= e < |nodes'| && 0 <= q && nodes'[e].triggered ensures Listens(nodes'[e].listeners, q) == 0 {
      assert e < |nodes| && Listens(nodes[e].listeners, q) == 0;
    }
    hide Listens;
  }

  lemma ExtendRanges(nodes: seq<Node>, args: seq<seq<nat>>, n: Node)
    requires Ranges(nodes, args) && n.members == [] && n.listeners == [] && !n.wants && n.interests == 0
    ensures Ranges(Extended(nodes, n), args + [[]])
  {
  }

  lemma ExtendCounted(nodes: seq<Node>, args: seq<seq<nat>>, n: Node)
    requires Ranges(nodes, args) && AllCounted(nodes, args, -1) && n.count == 0 && n.members == []
    ensures AllCounted(Extended(nodes, n), args + [[]], -1)
    ensures Counted(Extended(nodes, n), args + [[]], |nodes|)
  {
    var nodes', args' := Extended(nodes, n), args + [[]];
    forall q | 0 <= q < |nodes| && nodes'[q].quorum && !nodes'[q].triggered ensures Counted(nodes', args', q) {
      assert Counted(nodes, args, q);
      NotYet(nodes, args, q);
      hide Times;
    }
    hide Times;
  }

  lemma ExtendDue(nodes: seq<Node>, args: seq<seq<nat>>, fired: set<nat>, n: Node)
    requires Ranges(nodes, args) && Ranges(Extended(nodes, n), args + [[]]) && Due(nodes, args, fired) && !n.triggered
    ensures Due(Extended(nodes, n), args + [[]], fired)
  {
    var nodes' := Extended(nodes, n);
    forall q | 0 <= q < |nodes| && nodes[q].quorum && nodes[q].triggered && q !in fired
      ensures Hits(nodes', args[q]) >= nodes'[q].threshold
    {
      HitsGrow(nodes, nodes', args[q]);
    }
  }

  /** Nobody refers to an event that does not exist yet. */
  lemma NotYet(nodes: seq<Node>, args: seq<seq<nat>>, q: nat)
    requires Ranges(nodes, args) && q < |nodes|
    ensures Times(nodes[q].members, |nodes|) == 0 && Times(args[q], |nodes|) == 0
    ensures Listens(nodes[q].listeners, |nodes|) == 0
  {
    assert forall i :: 0 <= i < |nodes[q].members| ==> nodes[q].members[i] != |nodes|;
    assert forall i :: 0 <= i < |args[q]| ==> args[q][i] != |nodes|;
    assert forall i :: 0 <= i < |nodes[q].listeners| ==> nodes[q].listeners[i] != Quorum(|nodes|);
  }

  lemma ExtendLinked(nodes: seq<Node>, args: seq<seq<nat>>, n: Node)
    requires Ranges(nodes, args) && Linked(nodes, multiset{}) && n.members == [] && n.listeners == []
    ensures Linked(Extended(nodes, n), multiset{})
  {
    var nodes' := Extended(nodes, n);
    var none: Pending := multiset{};
    forall e, q | 0 <= e < |nodes'| && 0 <= q < |nodes'|
      ensures Times(nodes'[q].members, e) == Listens(nodes'[e].listeners, q) + none[(e, q)]
    {
      NoTimes(q);
      NoTimes(e);
      if e < |nodes| && q < |nodes| {
        assert Times(nodes[q].members, e) == Listens(nodes[e].listeners, q) + none[(e, q)];
      } else if q < |nodes| {
        NotYet(nodes, args, q);
      } else if e < |nodes| {
        NotYet(nodes, args, e);
      }
    }
  }

  /** `add_member`: an event that has triggered is counted, another becomes a member. */
  function Joined(nodes: seq<Node>, q: nat, e: nat): (r: seq<Node>)
    requires q < |nodes| && e < |nodes| && e != q
    ensures |r| == |nodes|
  {
    if nodes[e].triggered then nodes[q := nodes[q].(count := nodes[q].count + 1)]
    else nodes[e := nodes[e].(listeners := nodes[e].listeners + [Quorum(q)])]
              [q := nodes[q].(members := nodes[q].members + [e], wants := nodes[q].wants || nodes[e].wants)]
  }

  lemma JoinedInv(nodes: seq<Node>, args: seq<seq<nat>>, fired: set<nat>, q: nat, e: nat)
    requires Inv(nodes, args, fired, multiset{}, q) && q < |nodes| && e < |nodes| && e != q
    requires nodes[q].quorum && !nodes[q].triggered && Counted(nodes, args, q) && (nodes[e].quorum ==> e < q)
    ensures Inv(Joined(nodes, q, e), args[q := args[q] + [e]], fired, multiset{}, q)
    ensures Counted(Joined(nodes, q, e), args[q := args[q] + [e]], q)
    ensures Joined(nodes, q, e)[q].quorum && !Joined(nodes, q, e)[q].triggered
  {
    hide Linked, Settled, AllCounted, Counted, Times, Listens;
    var nodes', args' := Joined(nodes, q, e), args[q := args[q] + [e]];
    JoinedRanges(nodes, args, q, e);
    JoinedLinked(nodes, q, e);
    JoinedSettled(nodes, q, e);
    JoinedCounted(nodes, args, q, e);
    forall p | 0 <= p < |nodes| && nodes'[p].quorum && nodes'[p].triggered && p !in fired
      ensures Hits(nodes', args'[p]) >= nodes'[p].threshold
    {
      HitsGrow(nodes, nodes', args[p]);
    }
  }

  lemma JoinedRanges(nodes: seq<Node>, args: seq<seq<nat>>, q: nat, e: nat)
    requires Ranges(nodes, args) && q < |nodes| && e < |nodes| && e != q
    requires nodes[q].quorum && !nodes[q].triggered && (nodes[e].quorum ==> e < q)
    ensures Ranges(Joined(nodes, q, e), args[q := args[q] + [e]])
  {
  }

  lemma TimesSnoc(s: seq<nat>, x: nat, e: nat)
    ensures Times(s + [x], e) == Times(s, e) + if x == e then 1 else 0
  {
  }

  lemma ListensSnoc(s: seq<Listener>, x: Listener, q: nat)
    ensures Listens(s + [x], q) == Listens(s, q) + if x == Quorum(q) then 1 else 0
  {
  }

  lemma JoinedLinked(nodes: seq<Node>, q: nat, e: nat)
    requires Linked(nodes, multiset{}) && q < |nodes| && e < |nodes| && e != q
    ensures Linked(Joined(nodes, q, e), multiset{})
  {
    hide Times, Listens;
    var nodes' := Joined(nodes, q, e);
    var none: Pending := multiset{};
    forall x, p | 0 <= x < |nodes| && 0 <= p < |nodes|
      ensures Times(nodes'[p].members, x) == Listens(nodes'[x].listeners, p) + none[(x, p)]
    {
      assert Times(nodes[p].members, x) == Listens(nodes[x].listeners, p) + none[(x, p)];
      TimesSnoc(nodes[p].members, e, x);
      ListensSnoc(nodes[x].listeners, Quorum(q), p);
    }
  }

  lemma JoinedSettled(nodes: seq<Node>, q: nat, e: nat)
    requires Settled(nodes, multiset{}) && q < |nodes| && e < |nodes| && e != q && !nodes[q].triggered
    ensures Settled(Joined(nodes, q, e), multiset{})
  {
  }

  lemma JoinedCounted(nodes: seq<Node>, args: seq<seq<nat>>, q: nat, e: nat)
    requires Ranges(nodes, args) && AllCounted(nodes, args, q) && q < |nodes| && e < |nodes| && e != q
    requires Counted(nodes, args, q) && !nodes[q].triggered
    ensures AllCounted(Joined(nodes, q, e), args[q := args[q] + [e]], q)
    ensures Counted(Joined(nodes, q, e), args[q := args[q] + [e]], q)
  {
    hide Times;
    var nodes', args' := Joined(nodes, q, e), args[q := args[q] + [e]];
    forall x | 0 <= x < |nodes| && !nodes'[x].triggered ensures Times(nodes'[q].members, x) == Times(args'[q], x) {
      TimesSnoc(nodes[q].members, e, x);
      TimesSnoc(args[q], e, x);
    }
    forall p | 0 <= p < |nodes| && nodes'[p].quorum && !nodes'[p].triggered && p != q ensures Counted(nodes', args', p) {
      assert Counted(nodes, args, p);
    }
  }

  /** An open quorum whose count stays below its threshold is closed. */
  lemma CloseInv(nodes: seq<Node>, args: seq<seq<nat>>, fired: set<nat>, pend: Pending, q: nat)
    requires Inv(nodes, args, fired, pend, q) && q < |nodes|
    requires nodes[q].quorum && !nodes[q].triggered ==> Counted(nodes, args, q) && nodes[q].count < nodes[q].threshold
    ensures Inv(nodes, args, fired, pend, -1)
  {
  }

  /** Quorum `q` is being made, or has just counted something, and may be due. */
  ghost predicate Opened(nodes: seq<Node>, args: seq<seq<nat>>, fired: set<nat>, q: nat) {
    && Inv(nodes, args, fired, multiset{}, q)
    && q < |nodes| && nodes[q].quorum && !nodes[q].triggered && Counted(nodes, args, q)
  }

  // ---- small changes ----

  lemma ListenInv(nodes: seq<Node>, args: seq<seq<nat>>, fired: set<nat>, e: nat, c: nat)
    requires Inv(nodes, args, fired, multiset{}, -1) && e < |nodes| && !nodes[e].triggered
    ensures Inv(nodes[e := nodes[e].(listeners := nodes[e].listeners + [Coroutine(c)])], args, fired, multiset{}, -1)
  {
    var nodes' := nodes[e := nodes[e].(listeners := nodes[e].listeners + [Coroutine(c)])];
    assert Ranges(nodes', args);
    ListenLinked(nodes, e, c);
    DueStays(nodes, nodes', args, fired);
    SameCounted(nodes, nodes', args, -1);
    hide Ranges, Linked, Due, AllCounted, Times;
  }

  lemma ListenLinked(nodes: seq<Node>, e: nat, c: nat)
    requires Linked(nodes, multiset{}) && e < |nodes|
    ensures Linked(nodes[e := nodes[e].(listeners := nodes[e].listeners + [Coroutine(c)])], multiset{})
  {
    var nodes' := nodes[e := nodes[e].(listeners := nodes[e].listeners + [Coroutine(c)])];
    var none: Pending := multiset{};
    forall x, p | 0 <= x < |nodes| && 0 <= p < |nodes|
      ensures Times(nodes'[p].members, x) == Listens(nodes'[x].listeners, p) + none[(x, p)]
    {
      assert Times(nodes[p].members, x) == Listens(nodes[x].listeners, p) + none[(x, p)];
      ListensSnoc(nodes[x].listeners, Coroutine(c), p);
      hide Times, Listens;
    }
  }

  lemma SameCounted(nodes: seq<Node>, nodes': seq<Node>, args: seq<seq<nat>>, open: int)
    requires |nodes| == |nodes'| == |args| && AllCounted(nodes, args, open)
    requires forall q :: 0 <= q < |nodes| ==>
               && nodes'[q].members == nodes[q].members && nodes'[q].count == nodes[q].count
               && nodes'[q].triggered == nodes[q].triggered && nodes'[q].quorum == nodes[q].quorum
    ensures AllCounted(nodes', args, open)
    ensures forall q :: 0 <= q < |nodes| && Counted(nodes, args, q) ==> Counted(nodes', args, q)
  {
    hide Times;
  }

  /** The interest of a quorum is its own affair. */
  lemma WantsInv(nodes: seq<Node>, args: seq<seq<nat>>, fired: set<nat>, open: int, q: nat, wants: bool, interests: nat)
    requires Inv(nodes, args, fired, multiset{}, open) && q < |nodes| && nodes[q].quorum
    ensures Inv(nodes[q := nodes[q].(wants := wants, interests := interests)], args, fired, multiset{}, open)
    ensures open == q && Opened(nodes, args, fired, q) ==>
              Opened(nodes[q := nodes[q].(wants := wants, interests := interests)], args, fired, q)
  {
    hide Times, Listens, Counted, Hits;
    var nodes' := nodes[q := nodes[q].(wants := wants, interests := interests)];
    var none: Pending := multiset{};
    assert Ranges(nodes', args);
    forall x, p | 0 <= x < |nodes| && 0 <= p < |nodes|
      ensures Times(nodes'[p].members, x) == Listens(nodes'[x].listeners, p) + none[(x, p)]
    {
      assert Times(nodes[p].members, x) == Listens(nodes[x].listeners, p) + none[(x, p)];
    }
    DueStays(nodes, nodes', args, fired);
    SameCounted(nodes, nodes', args, open);
  }

  lemma OpenInv(nodes: seq<Node>, args: seq<seq<nat>>, fired: set<nat>, q: nat)
    requires Inv(nodes, args, fired, multiset{}, -1) && q < |nodes| && nodes[q].quorum && !nodes[q].triggered
    ensures Opened(nodes, args, fired, q)
  {
  }

  lemma FiredInv(nodes: seq<Node>, args: seq<seq<nat>>, fired: set<nat>, e: nat)
    requires Inv(nodes, args, fired, multiset{}, -1)
    ensures Inv(nodes, args, fired + {e}, multiset{}, e)
  {
  }

  /** Closed again, or due. */
  lemma Close(nodes: seq<Node>, args: seq<seq<nat>>, fired: set<nat>, q: nat)
    requires Opened(nodes, args, fired, q)
    ensures Inv(nodes, args, fired, multiset{}, q) && q < |nodes| && !nodes[q].triggered
    ensures |args| == |nodes| && Ranges(nodes, args)
    ensures if nodes[q].count >= nodes[q].threshold then Hits(nodes, args[q]) >= nodes[q].threshold
            else Inv(nodes, args, fired, multiset{}, -1)
  {
    CountedHits(nodes, args, q);
  }

  lemma OpenJoins(nodes: seq<Node>, args: seq<seq<nat>>, fired: set<nat>, q: nat, e: nat)
    requires Opened(nodes, args, fired, q) && e < |nodes| && e != q && (nodes[e].quorum ==> e < q)
    ensures |args| == |nodes| && Opened(Joined(nodes, q, e), args[q := args[q] + [e]], fired, q)
  {
    JoinedInv(nodes, args, fired, q, e);
  }

  lemma OpenNew(nodes: seq<Node>, args: seq<seq<nat>>, fired: set<nat>, threshold: nat)
    requires Inv(nodes, args, fired, multiset{}, -1)
    ensures |args| == |nodes|
    ensures Opened(nodes + [Node(true, threshold, false, 0, [], [], false, 0)], args + [[]], fired, |nodes|)
  {
    ExtendInv(nodes, args, fired, Node(true, threshold, false, 0, [], [], false, 0));
  }

  lemma InRange(nodes: seq<Node>, args: seq<seq<nat>>, fired: set<nat>, pend: Pending, open: int)
    requires Inv(nodes, args, fired, pend, open)
    ensures Ranges(nodes, args) && |args| == |nodes|
  {
  }

  /** A quorum that is due stays due while members are culled. */
  lemma StillDue(nodes: seq<Node>, nodes': seq<Node>, args: seq<nat>)
    requires |nodes| == |nodes'| && forall i :: 0 <= i < |args| ==> args[i] < |nodes|
    requires forall e :: 0 <= e < |nodes| ==> nodes'[e].triggered == nodes[e].triggered
    ensures Hits(nodes', args) == Hits(nodes, args)
  {
    HitsGrow(nodes, nodes', args);
    HitsGrow(nodes', nodes, args);
  }

  function WantingOf(nodes: seq<Node>, members: seq<nat>): seq<nat>
    requires forall i :: 0 <= i < |members| ==> members[i] < |nodes|
  {
    if members == [] then []
    else (if nodes[members[0]].wants then [members[0]] else []) + WantingOf(nodes, members[1..])
  }

  /** Members that want interest are quorums, made earlier. */
  lemma {:induction false} WantingOlder(nodes: seq<Node>, args: seq<seq<nat>>, q: nat, members: seq<nat>)
    requires Ranges(nodes, args) && q < |nodes|
    requires forall i :: 0 <= i < |members| ==> members[i] in nodes[q].members
    ensures forall i :: 0 <= i < |members| ==> members[i] < |nodes|
    ensures forall i :: 0 <= i < |WantingOf(nodes, members)| ==>
              WantingOf(nodes, members)[i] < q && nodes[WantingOf(nodes, members)[i]].quorum
  {
    if members != [] { WantingOlder(nodes, args, q, members[1..]); }
  }
}
