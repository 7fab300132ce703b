/** `interest{}` among the arguments of quorums: who has some pending, and what fixing it changes. */
module EventInterest {
  import opened EventGraph
  import opened EventSteps

  function Repeat(k: nat, e: nat): (r: seq<nat>)
    ensures |r| == k && forall i :: 0 <= i < k ==> r[i] == e
  {
    seq(k, _ => e)
  }

  /** Quorum `q` has no interest pending and no untriggered argument that wants some. */
  ghost predicate Calm(nodes: seq<Node>, args: seq<seq<nat>>, q: nat)
    requires q < |nodes| == |args|
  {
    && nodes[q].interests == 0
    && forall i :: 0 <= i < |args[q]| && args[q][i] < |nodes| ==> nodes[args[q][i]].triggered || !nodes[args[q][i]].wants
  }

  /** The flag `wants` is up wherever something is pending, except at the quorums being fixed. */
  ghost predicate Flagged(nodes: seq<Node>, args: seq<seq<nat>>, open: set<nat>) {
    && |args| == |nodes|
    && forall q :: 0 <= q < |nodes| && nodes[q].quorum && !nodes[q].triggered && !nodes[q].wants && q !in open ==>
         Calm(nodes, args, q)
  }

  /** No interest is pending in `q` or in any untriggered quorum it depends on, however far below. */
  ghost predicate Quiet(nodes: seq<Node>, args: seq<seq<nat>>, q: nat)
    requires Ranges(nodes, args) && q < |nodes|
    decreases q
  {
    nodes[q].triggered ||
    (nodes[q].interests == 0 &&
     forall i :: 0 <= i < |args[q]| && nodes[args[q][i]].quorum ==> Quiet(nodes, args, args[q][i]))
  }

  /** What the flag is for: a quorum without it needs no fixing, here or below. */
  lemma {:induction false} FlagTells(nodes: seq<Node>, args: seq<seq<nat>>, q: nat)
    requires Ranges(nodes, args) && Flagged(nodes, args, {}) && q < |nodes| && nodes[q].quorum
    requires nodes[q].triggered || !nodes[q].wants
    ensures Quiet(nodes, args, q)
    decreases q
  {
    if !nodes[q].triggered {
      assert Calm(nodes, args, q);
      forall i | 0 <= i < |args[q]| && nodes[args[q][i]].quorum ensures Quiet(nodes, args, args[q][i]) {
        FlagTells(nodes, args, args[q][i]);
      }
    }
  }

  /** `q` is `r` or depends on it through quorums. */
  ghost predicate Under(nodes: seq<Node>, args: seq<seq<nat>>, q: nat, r: nat)
    requires q < |nodes| == |args|
    decreases q
  {
    r == q ||
    exists i :: 0 <= i < |args[q]| && args[q][i] < q && nodes[args[q][i]].quorum && Under(nodes, args, args[q][i], r)
  }

  lemma RepeatMore(s: seq<nat>, k: nat, e: nat)
    ensures s + Repeat(k, e) + [e] == s + Repeat(k + 1, e)
  {
  }

  /** A node with other lists and another count and interest. */
  ghost predicate SameBut(n: Node, n': Node) {
    && n'.quorum == n.quorum && n'.threshold == n.threshold && n'.triggered == n.triggered && n'.wants == n.wants
    && SameSuspended(n, n')
  }

  /** What fixing interest does: arguments are only added, `ievent` once for every interest that is gone,
      and a quorum loses all of its interest or none. */
  ghost predicate Fixed(nodes: seq<Node>, args: seq<seq<nat>>, nodes': seq<Node>, args': seq<seq<nat>>, ievent: nat) {
    && |nodes| == |args| == |nodes'| == |args'|
    && forall e :: 0 <= e < |nodes| ==>
         && nodes'[e].quorum == nodes[e].quorum && nodes'[e].threshold == nodes[e].threshold
         && (nodes[e].triggered ==> nodes'[e].triggered)
         && (nodes[e].quorum || nodes'[e].triggered == nodes[e].triggered)
         && (nodes'[e].wants ==> nodes[e].wants)
         && (nodes'[e].interests == nodes[e].interests || nodes'[e].interests == 0)
         && SameSuspended(nodes[e], nodes'[e])
         && args'[e] == args[e] + Repeat(nodes[e].interests - nodes'[e].interests, ievent)
  }

  /** Only `q` and what it depends on is changed. */
  ghost predicate Only(nodes: seq<Node>, args: seq<seq<nat>>, nodes': seq<Node>, q: nat)
    requires q < |nodes| == |args| && |nodes'| == |nodes|
  {
    forall r :: 0 <= r < |nodes| && !Under(nodes, args, q, r) ==>
      nodes'[r].interests == nodes[r].interests && nodes'[r].wants == nodes[r].wants
  }

  lemma FixedTrans(n0: seq<Node>, a0: seq<seq<nat>>, n1: seq<Node>, a1: seq<seq<nat>>, n2: seq<Node>,
                   a2: seq<seq<nat>>, ievent: nat)
    requires Fixed(n0, a0, n1, a1, ievent) && Fixed(n1, a1, n2, a2, ievent)
    ensures Fixed(n0, a0, n2, a2, ievent)
  {
    forall e | 0 <= e < |n0| ensures a2[e] == a0[e] + Repeat(n0[e].interests - n2[e].interests, ievent) {
      assert a2[e] == a1[e] + Repeat(n1[e].interests - n2[e].interests, ievent);
    }
  }

  /** Triggers are part of it. */
  lemma EvolvesFixed(nodes: seq<Node>, nodes': seq<Node>, args: seq<seq<nat>>, ievent: nat)
    requires Evolves(nodes, nodes') && PlainSame(nodes, nodes', |nodes|) && |args| == |nodes|
    ensures Fixed(nodes, args, nodes', args, ievent)
  {
    forall e | 0 <= e < |nodes| ensures args[e] == args[e] + Repeat(nodes[e].interests - nodes'[e].interests, ievent) {
      assert nodes'[e].interests == nodes[e].interests;
    }
  }

  lemma EvolvesFlagged(nodes: seq<Node>, nodes': seq<Node>, args: seq<seq<nat>>, open: set<nat>)
    requires Evolves(nodes, nodes') && Flagged(nodes, args, open)
    ensures Flagged(nodes', args, open)
  {
    forall q | 0 <= q < |nodes| && nodes'[q].quorum && !nodes'[q].triggered && !nodes'[q].wants && q !in open
      ensures Calm(nodes', args, q)
    {
      assert Calm(nodes, args, q);
    }
  }

  lemma ListenFlagged(nodes: seq<Node>, args: seq<seq<nat>>, e: nat, n: Node)
    requires Flagged(nodes, args, {}) && e < |nodes| && n == nodes[e].(listeners := n.listeners)
    ensures Flagged(nodes[e := n], args, {})
  {
    var nodes' := nodes[e := n];
    forall q | 0 <= q < |nodes| && nodes'[q].quorum && !nodes'[q].triggered && !nodes'[q].wants ensures Calm(nodes', args, q) {
      assert Calm(nodes, args, q);
    }
  }

  /** The flag of `q` goes down while it is being fixed. */
  lemma LowerFlagged(nodes: seq<Node>, args: seq<seq<nat>>, open: set<nat>, q: nat, ievent: nat)
    requires Flagged(nodes, args, open) && q < |nodes|
    ensures Flagged(nodes[q := nodes[q].(wants := false)], args, open + {q})
    ensures Fixed(nodes, args, nodes[q := nodes[q].(wants := false)], args, ievent)
    ensures Only(nodes, args, nodes[q := nodes[q].(wants := false)], q)
  {
    var nodes' := nodes[q := nodes[q].(wants := false)];
    forall p | 0 <= p < |nodes| && nodes'[p].quorum && !nodes'[p].triggered && !nodes'[p].wants && p !in open + {q}
      ensures Calm(nodes', args, p)
    {
      assert Calm(nodes, args, p);
    }
  }

  /** Nobody but `q` sees its members and its interest. */
  lemma OwnFlagged(nodes: seq<Node>, args: seq<seq<nat>>, nodes': seq<Node>, args': seq<seq<nat>>, open: set<nat>, q: nat)
    requires Flagged(nodes, args, open) && q < |nodes| == |nodes'| == |args'| && q in open
    requires forall e :: 0 <= e < |nodes| ==>
               && nodes'[e].quorum == nodes[e].quorum && nodes'[e].triggered == nodes[e].triggered
               && nodes'[e].wants == nodes[e].wants
               && (e == q || (nodes'[e].interests == nodes[e].interests && args'[e] == args[e]))
    ensures Flagged(nodes', args', open)
  {
    forall p | 0 <= p < |nodes| && nodes'[p].quorum && !nodes'[p].triggered && !nodes'[p].wants && p !in open
      ensures Calm(nodes', args', p)
    {
      assert Calm(nodes, args, p);
    }
  }

  lemma FlaggedAgain(nodes: seq<Node>, args: seq<seq<nat>>, open: set<nat>, q: nat)
    requires Flagged(nodes, args, open + {q}) && q < |nodes|
    requires nodes[q].triggered || Calm(nodes, args, q)
    ensures Flagged(nodes, args, open)
  {
  }

  // ---- a quorum being made ----

  /** More nodes: the old ones stay as they were made and triggered, and plain events do not trigger. */
  ghost predicate Grew(nodes: seq<Node>, nodes': seq<Node>) {
    && |nodes| <= |nodes'|
    && forall e :: 0 <= e < |nodes| ==>
         && nodes'[e].quorum == nodes[e].quorum && nodes'[e].threshold == nodes[e].threshold
         && nodes'[e].interests == nodes[e].interests && nodes'[e].wants == nodes[e].wants
         && (nodes[e].triggered ==> nodes'[e].triggered)
         && (nodes[e].quorum || nodes'[e].triggered == nodes[e].triggered)
         && SameSuspended(nodes[e], nodes'[e])
  }

  /** `q` is an argument of nobody. */
  ghost predicate Unused(args: seq<seq<nat>>, q: nat) {
    forall p, i :: 0 <= p < |args| && 0 <= i < |args[p]| ==> args[p][i] != q
  }

  lemma NewUnused(nodes: seq<Node>, args: seq<seq<nat>>)
    requires Ranges(nodes, args)
    ensures Unused(args + [[]], |nodes|)
  {
  }

  lemma JoinedUnused(args: seq<seq<nat>>, q: nat, p: nat, e: nat)
    requires Unused(args, q) && p < |args| && e != q
    ensures Unused(args[p := args[p] + [e]], q)
  {
  }

  lemma ExtendFlagged(nodes: seq<Node>, args: seq<seq<nat>>, n: Node)
    requires Ranges(nodes, args) && Flagged(nodes, args, {}) && n.interests == 0
    ensures Flagged(nodes + [n], args + [[]], {})
  {
    var nodes', args' := nodes + [n], args + [[]];
    forall q | 0 <= q < |nodes'| && nodes'[q].quorum && !nodes'[q].triggered && !nodes'[q].wants
      ensures Calm(nodes', args', q)
    {
      if q < |nodes| { assert Calm(nodes, args, q); }
    }
  }

  lemma JoinedFlagged(nodes: seq<Node>, args: seq<seq<nat>>, q: nat, e: nat)
    requires Ranges(nodes, args) && Flagged(nodes, args, {}) && q < |nodes| && e < |nodes| && e != q
    requires Unused(args, q)
    ensures Flagged(Joined(nodes, q, e), args[q := args[q] + [e]], {})
  {
    var nodes', args' := Joined(nodes, q, e), args[q := args[q] + [e]];
    forall p | 0 <= p < |nodes| && nodes'[p].quorum && !nodes'[p].triggered && !nodes'[p].wants
      ensures Calm(nodes', args', p)
    {
      assert Calm(nodes, args, p);
    }
  }

  lemma InterestFlagged(nodes: seq<Node>, args: seq<seq<nat>>, q: nat, interests: nat)
    requires Flagged(nodes, args, {}) && q < |nodes|
    requires Unused(args, q)
    ensures Flagged(nodes[q := nodes[q].(wants := true, interests := interests)], args, {})
  {
    var nodes' := nodes[q := nodes[q].(wants := true, interests := interests)];
    forall p | 0 <= p < |nodes| && nodes'[p].quorum && !nodes'[p].triggered && !nodes'[p].wants
      ensures Calm(nodes', args, p)
    {
      assert Calm(nodes, args, p);
    }
  }

  // ---- the members that want interest ----

  lemma {:induction false} WantingHas(nodes: seq<Node>, members: seq<nat>, m: nat)
    requires forall i :: 0 <= i < |members| ==> members[i] < |nodes|
    requires m in members && nodes[m].wants
    ensures m in WantingOf(nodes, members)
  {
    if members[0] != m { WantingHas(nodes, members[1..], m); }
  }

  /** At rest, every untriggered argument that wants interest is among the members that do. */
  lemma ArgsWanting(nodes: seq<Node>, args: seq<seq<nat>>, fired: set<nat>, q: nat, e: nat)
    requires Inv(nodes, args, fired, multiset{}, -1) && q < |nodes| && nodes[q].quorum && !nodes[q].triggered
    requires e in args[q] && e < |nodes| && !nodes[e].triggered && nodes[e].wants
    ensures e in WantingOf(nodes, nodes[q].members)
  {
    assert Counted(nodes, args, q);
    assert Times(nodes[q].members, e) == Times(args[q], e) > 0;
    WantingHas(nodes, nodes[q].members, e);
  }

  lemma {:induction false} WantingIn(nodes: seq<Node>, members: seq<nat>)
    requires forall i :: 0 <= i < |members| ==> members[i] < |nodes|
    ensures forall i :: 0 <= i < |WantingOf(nodes, members)| ==> WantingOf(nodes, members)[i] in members
  {
    if members != [] {
      WantingIn(nodes, members[1..]);
      forall i | 0 <= i < |WantingOf(nodes, members)| ensures WantingOf(nodes, members)[i] in members {
        assert members == [members[0]] + members[1..];
      }
    }
  }

  /** And all of them are arguments. */
  lemma WantingArgs(nodes: seq<Node>, args: seq<seq<nat>>, fired: set<nat>, q: nat)
    requires Inv(nodes, args, fired, multiset{}, -1) && q < |nodes| && nodes[q].quorum && !nodes[q].triggered
    ensures forall i :: 0 <= i < |WantingOf(nodes, nodes[q].members)| ==> WantingOf(nodes, nodes[q].members)[i] in args[q]
  {
    WantingIn(nodes, nodes[q].members);
    assert Counted(nodes, args, q);
    forall e | e in nodes[q].members ensures e in args[q] {
      MemberTimes(nodes, args, q, e);
      assert Times(nodes[q].members, e) > 0;
      assert Times(nodes[q].members, e) == Times(args[q], e);
    }
  }

  /** Once those have been fixed, nothing is left for `q` to flag. */
  lemma CalmAfter(n1: seq<Node>, a1: seq<seq<nat>>, fired: set<nat>, n2: seq<Node>, a2: seq<seq<nat>>, ievent: nat, q: nat)
    requires Inv(n1, a1, fired, multiset{}, -1) && q < |n1| && n1[q].quorum && !n1[q].triggered && n1[q].interests == 0
    requires Fixed(n1, a1, n2, a2, ievent) && !n2[q].triggered
    requires forall i :: 0 <= i < |WantingOf(n1, n1[q].members)| ==>
               var w := WantingOf(n1, n1[q].members)[i]; w < |n2| && (n2[w].triggered || !n2[w].wants)
    ensures Calm(n2, a2, q)
  {
    assert a2[q] == a1[q];
    forall i | 0 <= i < |a2[q]| && a2[q][i] < |n2| ensures n2[a2[q][i]].triggered || !n2[a2[q][i]].wants {
      var e := a2[q][i];
      if !n2[e].triggered && n2[e].wants {
        ArgsWanting(n1, a1, fired, q, e);
      }
    }
  }

  // ---- what is not below ----

  lemma {:induction false} UnderSame(n0: seq<Node>, a0: seq<seq<nat>>, n1: seq<Node>, a1: seq<seq<nat>>, ievent: nat,
                                     q: nat, r: nat)
    requires Fixed(n0, a0, n1, a1, ievent) && ievent < |n0| && !n0[ievent].quorum && q < |n0|
    requires Under(n1, a1, q, r)
    ensures Under(n0, a0, q, r)
    decreases q
  {
    if r != q {
      var i :| 0 <= i < |a1[q]| && a1[q][i] < q && n1[a1[q][i]].quorum && Under(n1, a1, a1[q][i], r);
      UnderSame(n0, a0, n1, a1, ievent, a1[q][i], r);
      assert a1[q][i] == a0[q][i];
    }
  }

  /** Fixing `q` further, or an argument of `q`, is part of fixing `q`. */
  lemma OnlyBelow(n0: seq<Node>, a0: seq<seq<nat>>, n1: seq<Node>, a1: seq<seq<nat>>, n2: seq<Node>, ievent: nat,
                  q: nat, w: nat)
    requires Fixed(n0, a0, n1, a1, ievent) && ievent < |n0| && !n0[ievent].quorum && q < |n0| == |n2|
    requires w == q || (w < q && w in a1[q] && n0[w].quorum)
    requires Only(n0, a0, n1, q) && Only(n1, a1, n2, w)
    ensures Only(n0, a0, n2, q)
  {
    forall r | 0 <= r < |n0| && !Under(n0, a0, q, r)
      ensures n2[r].interests == n0[r].interests && n2[r].wants == n0[r].wants
    {
      if Under(n1, a1, w, r) {
        UnderSame(n0, a0, n1, a1, ievent, w, r);
      }
    }
  }

  /** `q` itself may be changed. */
  lemma OnlySelf(nodes: seq<Node>, args: seq<seq<nat>>, nodes': seq<Node>, q: nat)
    requires q < |nodes| == |args| && |nodes'| == |nodes|
    requires forall e :: 0 <= e < |nodes| && e != q ==>
               nodes'[e].interests == nodes[e].interests && nodes'[e].wants == nodes[e].wants
    ensures Only(nodes, args, nodes', q)
  {
  }

  lemma OnlySame(n0: seq<Node>, a0: seq<seq<nat>>, n1: seq<Node>, n2: seq<Node>, q: nat)
    requires q < |n0| == |a0| && |n1| == |n0| && Only(n0, a0, n1, q) && Evolves(n1, n2)
    ensures Only(n0, a0, n2, q)
  {
  }
}
