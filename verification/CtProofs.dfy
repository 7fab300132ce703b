/** Every event of the consensus system keeps its invariant. */
module CtProofs {
  import opened Options
  import opened CtServer
  import opened CtSystem

  /** How a server may change between two states. */
  predicate Progress(s: Server, t: Server) {
    && t.round >= s.round
    && (t.round == s.round ==> t.pc.Rank() >= s.pc.Rank())
    && (s.decided ==> t.decided)
    && (!t.decided ==> t.colorRound >= s.colorRound)
    && (s.decided && s.pc.Rank() >= 8 ==> t.pc.Rank() >= 8 && t.color == s.color)
    && (t.pc.SendProposes? && t.round == s.round && s.pc.Rank() >= 2 ==>
          s.pc.SendProposes? && s.color == t.color && s.pc.next <= t.pc.next)
    && (s.pc.TellAll? && t.pc.TellAll? ==> s.pc.next <= t.pc.next)
    && (s.pc.Stopped? ==> t.pc.Stopped?)
  }

  lemma JustifiedGrows(n: nat, sent: set<Packet>, sent': set<Packet>, r: nat, c: string)
    requires n > 0 && sent <= sent' && Justified(n, sent, r, c)
    ensures Justified(n, sent', r, c)
  {
    var q, cr :| JustifiedBy(n, sent, r, c, q, cr);
    assert JustifiedBy(n, sent', r, c, q, cr);
  }

  lemma ChosenGrows(n: nat, sent: set<Packet>, sent': set<Packet>, c: string)
    requires n > 0 && sent <= sent' && Chosen(n, sent, c)
    ensures Chosen(n, sent', c)
  {
    var r, q :| ChosenIn(n, sent, c, r, q);
    assert ChosenIn(n, sent', c, r, q);
  }

  /** Facts about a packet survive its sender's progress and a growing network. */
  lemma SentOkKept(n: nat, p: Packet, s: Server, t: Server, sent: set<Packet>, sent': set<Packet>)
    requires n > 0 && sent <= sent' && Progress(s, t) && SentOk(n, p, s, sent)
    ensures SentOk(n, p, t, sent')
  {
    match p.msg
    case Prepare(r, c, cr) =>
    case Propose(r, c) => JustifiedGrows(n, sent, sent', r, c);
    case Ack(r, b) =>
      if b {
        var c :| Proposed(n, sent, r, c);
        assert Proposed(n, sent', r, c);
      }
    case Decide(c) => ChosenGrows(n, sent, sent', c);
  }

  lemma ServerOkKept(n: nat, i: nat, s: Server, sent: set<Packet>, sent': set<Packet>)
    requires n > 0 && sent <= sent' && ServerOk(n, i, s, sent)
    ensures ServerOk(n, i, s, sent')
  {
    if s.decided {
      ChosenGrows(n, sent, sent', s.color);
    } else if s.pc.SendProposes? {
      JustifiedGrows(n, sent, sent', s.round, s.color);
    }
  }

  // ---- receiving ----

  /** A packet in hand: no longer in the network, the stash or among the packets returned. */
  ghost predicate InHand(n: nat, i: nat, p: Packet, s: Server, sent: set<Packet>, outside: set<Packet>) {
    p in sent && p !in outside && p.dst == i && p !in s.stash && p !in s.taken && p.src < n
  }

  lemma HandFacts(n: nat, i: nat, p: Packet, s: Server, sent: set<Packet>, outside: set<Packet>)
    requires InHand(n, i, p, s, sent, outside)
    ensures p in sent && p.dst == i && p.src < n
  {
  }

  /** A counted packet comes from a server not counted before. */
  lemma NewVoice(n: nat, i: nat, s: Server, p: Packet, sent: set<Packet>, outside: set<Packet>)
    requires PendingOk(i, s, sent, outside) && InHand(n, i, p, s, sent, outside)
    requires PairsOk(sent)
    requires !s.decided && (s.pc.CollectPrepares? || s.pc.CollectAcks?)
    requires Wanted(s.pc, p.msg) && p.msg.round == s.round
    ensures p.src !in s.heard
  {
    forall q | q in s.taken && Wanted(s.pc, q.msg) && q.msg.round == s.round ensures q.src != p.src {
    }
    assert !HeardFrom(s, p.src);
  }

  lemma OnMessagePending(n: nat, i: nat, s: Server, p: Packet, sent: set<Packet>, outside: set<Packet>)
    requires s.pc.Receiving() && !s.decided
    requires PendingOk(i, s, sent, outside) && InHand(n, i, p, s, sent, outside)
    ensures PendingOk(i, OnMessage(n, s, p), sent, outside)
    ensures Kept(p, i, OnMessage(n, s, p), outside)
    ensures forall q :: Kept(q, i, s, outside) ==> Kept(q, i, OnMessage(n, s, p), outside)
  {
    var t := OnMessage(n, s, p);
    if !p.msg.Decide? {
      assert Held(i, p, sent, outside);
      forall j | !t.decided && (t.pc.CollectPrepares? || t.pc.CollectAcks?) && j in t.heard
        ensures HeardFrom(t, j)
      {
        if j in s.heard {
          assert HeardFrom(s, j);
          var q :| q in s.taken && Wanted(s.pc, q.msg) && q.msg.round == s.round && q.src == j;
          assert q in t.taken;
        } else {
          assert p in t.taken;
        }
      }
    }
  }

  lemma ProposalFits(n: nat, r: nat, c: string, c': string, sent: set<Packet>)
    requires n > 0 && Proposed(n, sent, r, c) && Proposed(n, sent, r, c')
    requires PairsOk(sent)
    ensures c == c'
  {
    var d :| Packet(Leader(n, r), d, Propose(r, c)) in sent;
    var d' :| Packet(Leader(n, r), d', Propose(r, c')) in sent;
    assert PairOk(Packet(Leader(n, r), d, Propose(r, c)), Packet(Leader(n, r), d', Propose(r, c')));
  }

  lemma CountPrepare(n: nat, i: nat, s: Server, p: Packet, sp: Server, sent: set<Packet>, outside: set<Packet>)
    requires n > 0 && s.pc.CollectPrepares? && !s.decided
    requires ServerOk(n, i, s, sent) && PendingOk(i, s, sent, outside) && InHand(n, i, p, s, sent, outside)
    requires SentOk(n, p, sp, sent)
    requires PairsOk(sent)
    requires p.msg.Prepare? && p.msg.round == s.round
    ensures ServerOk(n, i, OnMessage(n, s, p), sent)
    ensures Progress(s, OnMessage(n, s, p))
  {
    var t := OnMessage(n, s, p);
    NewVoice(n, i, s, p, sent, outside);
    assert |t.heard| == |s.heard| + 1;
    forall j | j in t.heard
      ensures PreparedBelow(sent, t.round, j, t.colorRound)
    {
      if j in s.heard {
        var q :| q in sent && q.src == j && q.msg.Prepare? && q.msg.round == s.round && q.msg.colorRound <= s.colorRound;
        assert q.msg.colorRound <= t.colorRound;
      }
    }
    if t.pc.SendProposes? {
      assert JustifiedBy(n, sent, t.round, t.color, t.heard, t.colorRound);
    }
  }

  lemma OneMore(a: set<nat>, x: nat)
    ensures |a + {x}| == if x in a then |a| else |a| + 1
  {
    if x in a { assert a + {x} == a; }
  }

  lemma CountAck(n: nat, i: nat, s: Server, p: Packet, sent: set<Packet>, outside: set<Packet>)
    requires n > 0 && s.pc.CollectAcks? && !s.decided
    requires ServerOk(n, i, s, sent) && PendingOk(i, s, sent, outside) && InHand(n, i, p, s, sent, outside)
    requires PairsOk(sent)
    requires p.msg.Ack? && p.msg.round == s.round
    ensures ServerOk(n, i, OnMessage(n, s, p), sent)
    ensures Progress(s, OnMessage(n, s, p))
  {
    hide PairsOk, PendingOk, InHand, Proposed, Acked, Justified;
    HandFacts(n, i, p, s, sent, outside);
    NewVoice(n, i, s, p, sent, outside);
    AckSent(p, sent);
    OneMore(s.heard, p.src);
    OneMore(s.yes, p.src);
    var t := OnMessage(n, s, p);
    assert t.yes == if p.msg.ack then s.yes + {p.src} else s.yes;
    if t.decided {
      assert ChosenIn(n, sent, t.color, t.round, t.yes);
    }
  }

  lemma AckSent(p: Packet, sent: set<Packet>)
    requires p in sent && p.msg.Ack?
    ensures p.msg.ack ==> Acked(sent, p.msg.round, p.src)
  {
  }

  lemma TakeProposal(n: nat, i: nat, s: Server, p: Packet, sp: Server, sent: set<Packet>)
    requires n > 0 && s.pc.AwaitPropose? && !s.decided
    requires ServerOk(n, i, s, sent) && p in sent
    requires SentOk(n, p, sp, sent)
    requires PairsOk(sent)
    requires p.msg.Propose? && p.msg.round == s.round
    ensures ServerOk(n, i, OnMessage(n, s, p), sent)
    ensures Progress(s, OnMessage(n, s, p))
  {
    assert Packet(Leader(n, s.round), p.dst, Propose(s.round, p.msg.color)) in sent;
    assert Proposed(n, sent, s.round, p.msg.color);
  }

  lemma OnMessageOk(n: nat, i: nat, s: Server, p: Packet, sp: Server, sent: set<Packet>, outside: set<Packet>)
    requires n > 0 && s.pc.Receiving() && !s.decided
    requires ServerOk(n, i, s, sent) && PendingOk(i, s, sent, outside) && InHand(n, i, p, s, sent, outside)
    requires SentOk(n, p, sp, sent)
    requires PairsOk(sent)
    ensures ServerOk(n, i, OnMessage(n, s, p), sent)
    ensures Progress(s, OnMessage(n, s, p))
  {
    if !p.msg.Decide? && Wanted(s.pc, p.msg) && p.msg.round == s.round {
      match s.pc
      case CollectPrepares(_, _) => CountPrepare(n, i, s, p, sp, sent, outside);
      case AwaitPropose(_) => TakeProposal(n, i, s, p, sp, sent);
      case CollectAcks(_, _, _) => CountAck(n, i, s, p, sent, outside);
    }
  }

  // ---- sending ----

  /** The packet a server sends is consistent with everything sent before. */
  lemma SendOk(n: nat, i: nat, s: Server, p: Packet, sent: set<Packet>)
    requires 0 < n && i < n && !s.pc.Receiving()
    requires Step(n, i, s).1 == Some(p)
    requires ServerOk(n, i, s, sent)
    requires forall a :: a in sent && a.src == i ==> SentOk(n, a, s, sent)
    requires PairsOk(sent)
    ensures p !in sent && p.src == i
    ensures SentOk(n, p, Step(n, i, s).0, sent + {p})
    ensures PairsOk(sent + {p})
  {
    forall a | a in sent
      ensures PairOk(a, p) && PairOk(p, a) && a != p
    {
      if a.src == i { assert SentOk(n, a, s, sent); }
    }
    match s.pc
    case StartRound =>
      if s.colorRound > 0 {
        assert Proposed(n, sent, s.colorRound, s.color);
        assert Proposed(n, sent + {p}, s.colorRound, s.color);
      }
    case SendProposes(next) =>
      JustifiedGrows(n, sent, sent + {p}, s.round, s.color);
    case SendAck(got) =>
      if got {
        assert Proposed(n, sent, s.colorRound, s.color);
        assert Proposed(n, sent + {p}, s.round, s.color);
      }
    case TellNancy => ChosenGrows(n, sent, sent + {p}, s.color);
    case TellAll(_) => ChosenGrows(n, sent, sent + {p}, s.color);
  }

  /** A server's own steps that do not look at a message. */
  lemma StepServerOk(n: nat, i: nat, s: Server, sent: set<Packet>, sent': set<Packet>)
    requires 0 < n && i < n && !Waiting(s) && !Scanning(s)
    requires s.pc.Receiving() && !s.decided ==> s.pc.scan <= |s.stash|
    requires ServerOk(n, i, s, sent)
    requires sent' == sent + SetOf(Step(n, i, s).1)
    ensures ServerOk(n, i, Step(n, i, s).0, sent')
    ensures Progress(s, Step(n, i, s).0)
  {
    ServerOkKept(n, i, s, sent, sent');
    var t := Step(n, i, s).0;
    match s.pc
    case SendProposes(next) =>
      if next < n {
        assert Packet(i, next, Propose(s.round, s.color)) in sent';
      }
    case _ =>
  }

  lemma StepPending(n: nat, i: nat, s: Server, sent: set<Packet>, outside: set<Packet>, q: Packet)
    requires 0 < n && i < n && !Waiting(s) && !Scanning(s)
    requires s.pc.Receiving() && !s.decided ==> s.pc.scan <= |s.stash|
    requires PendingOk(i, s, sent, outside)
    ensures PendingOk(i, Step(n, i, s).0, sent, outside)
    ensures Kept(q, i, s, outside) ==> Kept(q, i, Step(n, i, s).0, outside)
  {
  }
}
