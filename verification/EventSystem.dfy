/** Events and quorum events as the program updates them, triggers calling one another. */
module EventSystem {
  import opened EventGraph
  import opened EventSteps
  import opened EventInterest

  /** An argument of `any` or `all`: an event, or `interest{}`. */
  datatype Arg = Event(e: nat) | Interest

  function EventsOf(given: seq<Arg>): (r: seq<nat>)
    ensures |r| <= |given|
  {
    if given == [] then []
    else EventsOf(given[..|given| - 1]) + (match given[|given| - 1] case Event(e) => [e] case Interest => [])
  }

  lemma EventsSnoc(given: seq<Arg>, a: Arg)
    ensures EventsOf(given + [a]) == EventsOf(given) + (match a case Event(e) => [e] case Interest => [])
  {
    assert (given + [a])[..|given|] == given;
  }

  class Events {
    var nodes: seq<Node>
    /** What the quorums were made of, for ever. */
    ghost var args: seq<seq<nat>>
    /** The events that somebody has triggered directly. */
    ghost var fired: set<nat>

    /** No quorum is being made or triggered, and no notification is on its way. */
    ghost predicate AtRest()
      reads this
    {
      Inv(nodes, args, fired, multiset{}, -1)
    }

    ghost predicate Valid()
      reads this
    {
      AtRest() && Flagged(nodes, args, {})
    }

    constructor ()
      ensures Valid() && nodes == [NULL_NODE] && args == [[]] && fired == {}
    {
      nodes, args, fired := [NULL_NODE], [[]], {};
      NoTimes(0);
    }

    /** A plain event. */
    method NewEvent() returns (e: nat)
      requires Valid()
      modifies this
      ensures Valid() && e == |old(nodes)| && fired == old(fired) && args == old(args) + [[]]
      ensures nodes == old(nodes) + [Node(false, 0, false, 0, [], [], false, 0)]
    {
      hide Inv, Flagged;
      e := |nodes|;
      var n := Node(false, 0, false, 0, [], [], false, 0);
      InRange(nodes, args, fired, multiset{}, -1);
      ExtendInv(nodes, args, fired, n);
      ExtendFlagged(nodes, args, n);
      nodes, args := Extended(nodes, n), args + [[]];
    }

    /** A coroutine waits on an event that has not triggered. */
    method Listen(e: nat, c: nat)
      requires Valid() && e < |nodes| && !nodes[e].triggered
      modifies this`nodes
      ensures Valid() && nodes == old(nodes)[e := old(nodes[e]).(listeners := old(nodes[e].listeners) + [Coroutine(c)])]
    {
      hide Inv, Flagged;
      var n := nodes[e].(listeners := nodes[e].listeners + [Coroutine(c)]);
      ListenInv(nodes, args, fired, e, c);
      ListenFlagged(nodes, args, e, n);
      nodes := nodes[e := n];
    }

    /** `cull_members`: untriggered members forget the quorum, and it them. */
    method CullMembers(q: nat, ghost pend: Pending)
      requires Inv(nodes, args, fired, pend, q) && q < |nodes| && !nodes[q].triggered
      modifies this`nodes
      ensures Inv(nodes, args, fired, pend, q) && Evolves(old(nodes), nodes)
      ensures forall e :: 0 <= e < |nodes| ==> nodes[e].triggered == old(nodes[e].triggered)
      ensures forall m :: m in nodes[q].members ==> m < |nodes| && nodes[m].triggered
    {
      hide Linked, Settled, AllCounted, Below, Due;
      var it := 0;
      while it < |nodes[q].members|
        invariant Inv(nodes, args, fired, pend, q) && Evolves(old(nodes), nodes)
        invariant forall e :: 0 <= e < |nodes| ==> nodes[e].triggered == old(nodes[e].triggered)
        invariant it <= |nodes[q].members|
        invariant forall i :: 0 <= i < it ==> nodes[nodes[q].members[i]].triggered
        decreases |nodes[q].members| - it
      {
        var m := nodes[q].members[it];
        if nodes[m].triggered {
          it := it + 1;
        } else {
          UnlinkInv(nodes, args, fired, pend, q, it);
          nodes := Unlink(nodes, q, it, IndexOf(nodes[m].listeners, Quorum(q)));
        }
      }
    }

    /** `trigger_unlock`: marks an event and notifies the quorums among its listeners, which may trigger
        in turn.  Each call inside has fewer untriggered events left. */
    method TriggerUnlock(e: nat, ghost pend: Pending)
      requires Inv(nodes, args, fired, pend, e) && e < |nodes| && !nodes[e].triggered
      requires nodes[e].quorum && e !in fired ==> Hits(nodes, args[e]) >= nodes[e].threshold
      modifies this`nodes
      ensures Inv(nodes, args, fired, pend, -1)
      ensures Evolves(old(nodes), nodes) && PlainSame(old(nodes), nodes, e) && nodes[e].triggered
      decreases Untriggered(nodes), 0
    {
      hide Inv, Ranges, Hits, QuorumsOf, CoroutinesOf, Mark;
      InRange(nodes, args, fired, pend, e);
      if nodes[e].quorum {
        CullMembers(e, pend);
        InRange(nodes, args, fired, pend, e);
        ArgsInRange(e);
        StillDue(old(nodes), nodes, args[e]);
      }
      var quorums := QuorumsOf(nodes[e].listeners);
      MarkInv(nodes, args, fired, pend, e);
      nodes := Mark(nodes, e);
      NotifyAll(e, quorums, pend);
    }

    /** The loop that informs quorums. */
    method NotifyAll(e: nat, quorums: seq<nat>, ghost pend: Pending)
      requires Inv(nodes, args, fired, pend + Notices(e, quorums), -1)
      modifies this`nodes
      ensures Inv(nodes, args, fired, pend, -1)
      ensures Evolves(old(nodes), nodes) && PlainSame(old(nodes), nodes, |nodes|)
      decreases Untriggered(nodes), 2
    {
      hide Inv;
      var i := 0;
      while i < |quorums|
        invariant i <= |quorums|
        invariant Inv(nodes, args, fired, pend + Notices(e, quorums[i..]), -1)
        invariant Evolves(old(nodes), nodes) && PlainSame(old(nodes), nodes, |nodes|)
      {
        FirstNotice(e, quorums, i, pend);
        TriggerMember(quorums[i], e, pend + Notices(e, quorums[i + 1..]));
        i := i + 1;
      }
      assert quorums[i..] == [];
      assert pend + Notices(e, []) == pend;
    }

    lemma FirstNotice(e: nat, quorums: seq<nat>, i: nat, pend: Pending)
      requires i < |quorums|
      ensures pend + Notices(e, quorums[i..]) == pend + Notices(e, quorums[i + 1..]) + multiset{(e, quorums[i])}
    {
      assert quorums[i..][1..] == quorums[i + 1..];
    }

    lemma ArgsInRange(q: nat)
      requires Ranges(nodes, args) && q < |nodes|
      ensures forall i :: 0 <= i < |args[q]| ==> args[q][i] < |nodes|
    {
    }

    /** `trigger_member`: a quorum counts one of its members, and triggers if that makes enough. */
    method TriggerMember(q: nat, e: nat, ghost pend: Pending)
      requires Inv(nodes, args, fired, pend + multiset{(e, q)}, -1)
      modifies this`nodes
      ensures Inv(nodes, args, fired, pend, -1)
      ensures Evolves(old(nodes), nodes) && PlainSame(old(nodes), nodes, |nodes|)
      decreases Untriggered(nodes), 1
    {
      hide Ranges, Hits, Linked, Settled, AllCounted, Below, Due, Counted;
      ArrivedInv(nodes, args, fired, pend, q, e);
      nodes := Arrived(nodes, q, IndexOf(nodes[q].members, e));
      if !nodes[q].triggered && nodes[q].count >= nodes[q].threshold {
        CountedHits(nodes, args, q);
        TriggerUnlock(q, pend);
      } else {
        CloseInv(nodes, args, fired, pend, q);
      }
    }

    /** `trigger`: false if there was nothing to do. */
    method Trigger(e: nat) returns (first: bool)
      requires Valid() && e < |nodes|
      modifies this`nodes, this`fired
      ensures Valid() && first == !old(nodes[e].triggered) && nodes[e].triggered
      ensures fired == if first then old(fired) + {e} else old(fired)
      ensures Evolves(old(nodes), nodes) && PlainSame(old(nodes), nodes, e)
    {
      first := !nodes[e].triggered;
      if first {
        hide Inv, Flagged;
        FiredInv(nodes, args, fired, e);
        fired := fired + {e};
        TriggerUnlock(e, multiset{});
        EvolvesFlagged(old(nodes), nodes, args, {});
      }
    }

    /** `add_member`, for a quorum still being made. */
    method AddMember(q: nat, e: nat)
      requires Opened(nodes, args, fired, q) && e < |nodes| && e != q && (nodes[e].quorum ==> e < q)
      requires |args| == |nodes|
      modifies this`nodes, this`args
      ensures Opened(nodes, args, fired, q)
      ensures nodes == Joined(old(nodes), q, e) && args == old(args)[q := old(args[q]) + [e]]
    {
      OpenJoins(nodes, args, fired, q, e);
      nodes, args := Joined(nodes, q, e), args[q := args[q] + [e]];
    }

    /** `seal`, and the end of other changes to a quorum: it triggers at once if enough has triggered. */
    method Seal(q: nat)
      requires Opened(nodes, args, fired, q)
      modifies this`nodes
      ensures AtRest() && Evolves(old(nodes), nodes) && PlainSame(old(nodes), nodes, |nodes|)
      ensures nodes[q].triggered || nodes == old(nodes)
    {
      Close(nodes, args, fired, q);
      if nodes[q].count >= nodes[q].threshold {
        TriggerUnlock(q, multiset{});
      }
    }

    /** `make`: a quorum of `threshold` of the arguments. */
    method Make(threshold: nat, given: seq<Arg>) returns (q: nat)
      requires Valid()
      requires forall i :: 0 <= i < |given| && given[i].Event? ==> given[i].e < |nodes|
      modifies this
      ensures Valid() && q == |old(nodes)| && |nodes| == q + 1 && fired == old(fired) && Grew(old(nodes), nodes)
      ensures nodes[q].quorum && nodes[q].threshold == threshold
      ensures args == old(args) + [EventsOf(given)]
      ensures nodes[q].interests == |given| - |EventsOf(given)|
    {
      hide Inv, Opened, Flagged, Unused;
      q := |nodes|;
      InRange(nodes, args, fired, multiset{}, -1);
      OpenNew(nodes, args, fired, threshold);
      ExtendFlagged(nodes, args, Node(true, threshold, false, 0, [], [], false, 0));
      NewUnused(nodes, args);
      nodes, args := nodes + [Node(true, threshold, false, 0, [], [], false, 0)], args + [[]];
      var i := 0;
      while i < |given|
        invariant i <= |given| && |nodes| == q + 1 == |args| && fired == old(fired) && Grew(old(nodes), nodes)
        invariant Opened(nodes, args, fired, q) && Flagged(nodes, args, {}) && Unused(args, q)
        invariant nodes[q].quorum && nodes[q].threshold == threshold
        invariant args == old(args) + [EventsOf(given[..i])]
        invariant nodes[q].interests == i - |EventsOf(given[..i])|
      {
        AddArg(q, given[i]);
        assert given[..i + 1] == given[..i] + [given[i]];
        EventsSnoc(given[..i], given[i]);
        i := i + 1;
      }
      assert given[..i] == given;
      label sealing:
      Seal(q);
      EvolvesFlagged(old@sealing(nodes), nodes, args, {});
    }

    /** `add_member` for either kind of argument. */
    method AddArg(q: nat, a: Arg)
      requires Opened(nodes, args, fired, q) && Flagged(nodes, args, {}) && Unused(args, q)
      requires |args| == |nodes| == q + 1 && (a.Event? ==> a.e < q)
      modifies this`nodes, this`args
      ensures Opened(nodes, args, fired, q) && Flagged(nodes, args, {}) && Unused(args, q)
      ensures |nodes| == |old(nodes)| && Grew(old(nodes[..q]), nodes)
      ensures nodes[q].quorum && nodes[q].threshold == old(nodes[q].threshold)
      ensures nodes[q].interests == old(nodes[q].interests) + if a.Event? then 0 else 1
      ensures args == old(args)[q := old(args[q]) + if a.Event? then [a.e] else []]
    {
      hide Inv, Opened, Flagged, Unused;
      OpenInRange(q);
      if a.Event? {
        JoinedFlagged(nodes, args, q, a.e);
        JoinedUnused(args, q, q, a.e);
        AddMember(q, a.e);
      } else {
        InterestFlagged(nodes, args, q, nodes[q].interests + 1);
        AddInterest(q);
        assert args[q] + [] == args[q];
      }
    }

    lemma OpenInRange(q: nat)
      requires Opened(nodes, args, fired, q)
      ensures Ranges(nodes, args) && q < |nodes| == |args| && nodes[q].quorum && !nodes[q].triggered
      ensures Inv(nodes, args, fired, multiset{}, q)
    {
    }

    method AddInterest(q: nat)
      requires Opened(nodes, args, fired, q)
      modifies this`nodes
      ensures Opened(nodes, args, fired, q)
      ensures nodes == old(nodes)[q := old(nodes[q]).(wants := true, interests := old(nodes[q].interests) + 1)]
    {
      WantsInv(nodes, args, fired, q, q, true, nodes[q].interests + 1);
      nodes := nodes[q := nodes[q].(wants := true, interests := nodes[q].interests + 1)];
    }

    /** The interest arguments of one quorum become the event. */
    method ApplyInterest(q: nat, ievent: nat, ghost open: set<nat>)
      requires AtRest() && Flagged(nodes, args, open) && q in open
      requires q < |nodes| && nodes[q].quorum && !nodes[q].triggered && ievent < |nodes| && !nodes[ievent].quorum
      modifies this`nodes, this`args
      ensures Opened(nodes, args, fired, q) && Flagged(nodes, args, open) && q < |nodes| && nodes[q].interests == 0
      ensures Fixed(old(nodes), old(args), nodes, args, ievent) && Only(old(nodes), old(args), nodes, q)
      ensures nodes[q].wants == old(nodes[q].wants)
    {
      hide Inv, Opened, Flagged, Ranges, Under, Repeat;
      OpenInv(nodes, args, fired, q);
      OpenInRange(q);
      NoWants(ievent);
      ghost var k := 0;
      assert args[q] + Repeat(0, ievent) == args[q];
      while nodes[q].interests > 0
        invariant Opened(nodes, args, fired, q) && |args| == |nodes| == |old(nodes)|
        invariant k + nodes[q].interests == old(nodes[q].interests)
        invariant args == old(args)[q := old(args[q]) + Repeat(k, ievent)]
        invariant forall e :: 0 <= e < |nodes| ==> SameBut(old(nodes[e]), nodes[e])
        invariant forall e :: 0 <= e < |nodes| && e != q ==> nodes[e].interests == old(nodes[e].interests)
        decreases nodes[q].interests
      {
        OpenInRange(q);
        WantsInv(nodes, args, fired, q, q, nodes[q].wants, nodes[q].interests - 1);
        nodes := nodes[q := nodes[q].(interests := nodes[q].interests - 1)];
        AddMember(q, ievent);
        RepeatMore(old(args[q]), k, ievent);
        k := k + 1;
      }
      OwnFlagged(old(nodes), old(args), nodes, args, open, q);
      OnlySelf(old(nodes), old(args), nodes, q);
    }

    lemma NoWants(e: nat)
      requires AtRest() && e < |nodes| && !nodes[e].quorum
      ensures !nodes[e].wants
    {
    }

    /** `fix_want_interest`: the interest arguments become the event `ievent`, here and, unless that is
        enough to trigger, in the members that want it.  `open` are the quorums that a caller is still
        fixing. */
    method FixWantInterest(q: nat, ievent: nat, ghost open: set<nat>)
      requires AtRest() && Flagged(nodes, args, open)
      requires q < |nodes| && nodes[q].quorum && ievent < |nodes| && !nodes[ievent].quorum
      modifies this`nodes, this`args
      ensures AtRest() && Flagged(nodes, args, open) && q < |nodes| && (nodes[q].triggered || !nodes[q].wants)
      ensures nodes[q].triggered || nodes[q].interests == 0
      ensures open == {} ==> Valid() && Quiet(nodes, args, q)
      ensures Fixed(old(nodes), old(args), nodes, args, ievent) && Only(old(nodes), old(args), nodes, q)
      decreases q, 1
    {
      hide Inv, Opened, Flagged, Only, Repeat, Calm, Ranges, Quiet;
      FixHere(q, ievent, open);
      ghost var n1, a1 := nodes, args;
      if !nodes[q].triggered {
        FixMembers(q, ievent, open + {q});
        FixedTrans(old(nodes), old(args), n1, a1, nodes, args, ievent);
        OnlyBelow(old(nodes), old(args), n1, a1, nodes, ievent, q, q);
      }
      FlaggedAgain(nodes, args, open, q);
      InRange(nodes, args, fired, multiset{}, -1);
      if open == {} {
        FlagTells(nodes, args, q);
      }
    }

    /** The part of it that concerns `q` itself. */
    method FixHere(q: nat, ievent: nat, ghost open: set<nat>)
      requires AtRest() && Flagged(nodes, args, open)
      requires q < |nodes| && nodes[q].quorum && ievent < |nodes| && !nodes[ievent].quorum
      modifies this`nodes, this`args
      ensures AtRest() && Flagged(nodes, args, open + {q}) && q < |nodes| && !nodes[q].wants
      ensures nodes[q].triggered || nodes[q].interests == 0
      ensures Fixed(old(nodes), old(args), nodes, args, ievent) && Only(old(nodes), old(args), nodes, q)
    {
      hide Inv, Opened, Flagged, Only, Repeat, Calm;
      LowerFlagged(nodes, args, open, q, ievent);
      WantsInv(nodes, args, fired, -1, q, false, nodes[q].interests);
      nodes := nodes[q := nodes[q].(wants := false)];
      if nodes[q].triggered {
        return;
      }
      ghost var n1, a1 := nodes, args;
      ApplyInterest(q, ievent, open + {q});
      FixedTrans(old(nodes), old(args), n1, a1, nodes, args, ievent);
      OnlyBelow(old(nodes), old(args), n1, a1, nodes, ievent, q, q);
      ghost var n2 := nodes;
      Seal(q);
      EvolvesFixed(n2, nodes, args, ievent);
      EvolvesFlagged(n2, nodes, args, open + {q});
      FixedTrans(old(nodes), old(args), n2, args, nodes, args, ievent);
      OnlySame(old(nodes), old(args), n2, nodes, q);
    }

    /** And the part that concerns its members. */
    method FixMembers(q: nat, ievent: nat, ghost open: set<nat>)
      requires AtRest() && Flagged(nodes, args, open)
      requires q < |nodes| && nodes[q].quorum && ievent < |nodes| && !nodes[ievent].quorum
      requires !nodes[q].triggered && nodes[q].interests == 0
      modifies this`nodes, this`args
      ensures AtRest() && Flagged(nodes, args, open) && q < |nodes| == |args|
      ensures nodes[q].triggered || Calm(nodes, args, q)
      ensures Fixed(old(nodes), old(args), nodes, args, ievent) && Only(old(nodes), old(args), nodes, q)
      decreases q, 0
    {
      hide Inv, Flagged, Only, Repeat, Calm, Ranges, WantingOf;
      InRange(nodes, args, fired, multiset{}, -1);
      WantingOlder(nodes, args, q, nodes[q].members);
      WantingArgs(nodes, args, fired, q);
      var wanting, i := WantingOf(nodes, nodes[q].members), 0;
      EvolvesFixed(nodes, nodes, args, ievent);
      OnlySelf(nodes, args, nodes, q);
      while i < |wanting|
        invariant i <= |wanting| && AtRest() && Flagged(nodes, args, open)
        invariant Fixed(old(nodes), old(args), nodes, args, ievent) && Only(old(nodes), old(args), nodes, q)
        invariant forall j :: 0 <= j < i ==> nodes[wanting[j]].triggered || !nodes[wanting[j]].wants
      {
        ghost var n1, a1 := nodes, args;
        assert wanting[i] in args[q];
        FixWantInterest(wanting[i], ievent, open);
        FixedTrans(old(nodes), old(args), n1, a1, nodes, args, ievent);
        OnlyBelow(old(nodes), old(args), n1, a1, nodes, ievent, q, wanting[i]);
        i := i + 1;
      }
      if !nodes[q].triggered {
        CalmAfter(old(nodes), old(args), fired, nodes, args, ievent, q);
      }
    }
  }
}
