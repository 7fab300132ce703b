/** Why a leader that has not decided goes on: because somebody has refused its proposal. */
module CtRefusals {
  import opened Options
  import opened CtServer
  import opened CtSystem
  import opened CtProofs
  import opened CtAgreement

  /** Somebody has sent leader `i` of round `r` a negative acknowledgement. */
  ghost predicate Refused(sent: set<Packet>, r: nat, i: nat) {
    exists p :: p in sent && p.msg == Ack(r, false) && p.dst == i
  }

  /** An undecided server has been refused in every round it has led and left behind; of the quorum it is
      collecting, whoever did not agree refused. */
  ghost predicate PassedOn(n: nat, i: nat, s: Server, sent: set<Packet>)
    requires n > 0
  {
    !s.decided ==>
      && (forall r: nat :: 1 <= r && Leader(n, r) == i && (r < s.round || (r == s.round && s.pc == Advance)) ==>
            Refused(sent, r, i))
      && (s.pc.CollectAcks? ==> forall j :: j in s.heard && j !in s.yes ==> Packet(j, i, Ack(s.round, false)) in sent)
  }

  lemma NoMore(a: set<nat>, b: set<nat>)
    requires a <= b
    ensures |a| <= |b|
  {
    assert b == a + (b - a);
  }

  lemma MoreHeard(a: set<nat>, b: set<nat>) returns (j: nat)
    requires |a| > |b|
    ensures j in a && j !in b
  {
    if a <= b { NoMore(a, b); }
    j :| j in a && j !in b;
  }

  lemma RefusedGrows(n: nat, i: nat, s: Server, sent: set<Packet>, sent': set<Packet>)
    requires n > 0 && PassedOn(n, i, s, sent) && sent <= sent'
    ensures PassedOn(n, i, s, sent')
  {
    forall r: nat | Refused(sent, r, i) ensures Refused(sent', r, i) {
      var p :| p in sent && p.msg == Ack(r, false) && p.dst == i;
      assert p in sent';
    }
    hide Refused;
  }

  /** An acknowledgement is counted. */
  lemma CountRefusal(n: nat, i: nat, s: Server, p: Packet, sent: set<Packet>, outside: set<Packet>)
    requires n > 0 && s.pc.CollectAcks? && !s.decided && PassedOn(n, i, s, sent)
    requires ServerOk(n, i, s, sent) && PendingOk(i, s, sent, outside) && InHand(n, i, p, s, sent, outside)
    requires PairsOk(sent) && p.msg.Ack? && p.msg.round == s.round
    ensures PassedOn(n, i, OnMessage(n, s, p), sent)
  {
    hide PairsOk, PendingOk, InHand;
    HandFacts(n, i, p, s, sent, outside);
    NewVoice(n, i, s, p, sent, outside);
    AckCounts(n, i, s, sent);
    OneMore(s.heard, p.src);
    OneMore(s.yes, p.src);
    hide ServerOk;
    var t := OnMessage(n, s, p);
    assert t.heard == s.heard + {p.src} && t.yes == if p.msg.ack then s.yes + {p.src} else s.yes;
    assert forall j :: j in t.heard && j !in t.yes ==> Packet(j, i, Ack(s.round, false)) in sent by {
      assert p == Packet(p.src, i, p.msg);
    }
    if t.pc == Advance {
      var j := MoreHeard(t.heard, t.yes);
      assert Refused(sent, s.round, i);
    }
    hide Refused;
  }

  lemma AckCounts(n: nat, i: nat, s: Server, sent: set<Packet>)
    requires n > 0 && ServerOk(n, i, s, sent) && s.pc.CollectAcks? && !s.decided
    ensures |s.heard| == s.pc.total <= n / 2 && |s.yes| == s.pc.success && s.yes <= s.heard
  {
  }

  lemma MessagePasses(n: nat, i: nat, s: Server, p: Packet, sent: set<Packet>, outside: set<Packet>)
    requires n > 0 && s.pc.Receiving() && !s.decided && PassedOn(n, i, s, sent)
    requires ServerOk(n, i, s, sent) && PendingOk(i, s, sent, outside) && InHand(n, i, p, s, sent, outside)
    requires PairsOk(sent)
    ensures PassedOn(n, i, OnMessage(n, s, p), sent)
  {
    if s.pc.CollectAcks? && p.msg.Ack? && p.msg.round == s.round {
      CountRefusal(n, i, s, p, sent, outside);
    }
    hide Refused, ServerOk, PendingOk, InHand, PairsOk;
  }

  /** The server goes on without a message. */
  lemma StepPasses(n: nat, i: nat, s: Server, sent: set<Packet>)
    requires n > 0 && !Waiting(s) && !Scanning(s) && (s.pc.Receiving() && !s.decided ==> s.pc.scan <= |s.stash|)
    requires PassedOn(n, i, s, sent)
    ensures PassedOn(n, i, Step(n, i, s).0, sent)
  {
    hide Refused;
  }

  ghost predicate AllPassed(st: State)
    requires |st.servers| > 0
  {
    forall i :: 0 <= i < |st.servers| ==> PassedOn(|st.servers|, i, st.servers[i], st.sent)
  }

  lemma ScanPasses(st: State, i: nat)
    requires Inv(st) && i < |st.servers| && Scanning(st.servers[i]) && PassedOn(|st.servers|, i, st.servers[i], st.sent)
    ensures PassedOn(|st.servers|, i, ScanOne(|st.servers|, st.servers[i]), st.sent)
  {
    hide SentOk, PairOk, ServerOk, OnMessage, Refused;
    var n, s, outside := |st.servers|, st.servers[i], st.inflight + st.lost;
    assert MemberOk(n, i, s, st.sent, outside);
    var s1 := s.(stash := s.stash[1..], pc := s.pc.(scan := s.pc.scan - 1));
    var p := s.stash[0];
    assert Held(i, p, st.sent, outside);
    TailPending(i, s, st.sent, outside);
    TailServer(n, i, s, st.sent);
    MessagePasses(n, i, s1, p, st.sent, outside);
  }

  lemma DeliverPasses(st: State, i: nat, p: Packet)
    requires Inv(st) && Enabled(st, Deliver(i, p)) && PassedOn(|st.servers|, i, st.servers[i], st.sent)
    ensures PassedOn(|st.servers|, i, OnMessage(|st.servers|, st.servers[i], p), st.sent)
  {
    hide SentOk, PairOk, ServerOk, OnMessage, Refused;
    var n, s := |st.servers|, st.servers[i];
    var outside, outside' := st.inflight + st.lost, st.inflight - {p} + st.lost;
    assert MemberOk(n, i, s, st.sent, outside);
    forall k | 0 <= k < |s.stash| ensures Held(i, s.stash[k], st.sent, outside') && s.stash[k] != p {
      assert Held(i, s.stash[k], st.sent, outside);
    }
    forall q | q in s.taken ensures Held(i, q, st.sent, outside') && q != p { assert Held(i, q, st.sent, outside); }
    assert PendingOk(i, s, st.sent, outside');
    MessagePasses(n, i, s, p, st.sent, outside');
  }

  lemma NextPasses(st: State, e: Event)
    requires Inv(st) && Enabled(st, e) && AllPassed(st)
    ensures AllPassed(Apply(st, e))
  {
    hide Inv, PassedOn, Step, OnMessage, Waiting, Scanning;
    var st' := Apply(st, e);
    var n := |st.servers|;
    forall i | 0 <= i < n ensures PassedOn(n, i, st'.servers[i], st'.sent) {
      assert PassedOn(n, i, st.servers[i], st.sent);
      ServerPasses(st, e, i);
      RefusedGrows(n, i, st'.servers[i], st.sent, st'.sent);
    }
  }

  lemma ServerPasses(st: State, e: Event, i: nat)
    requires Inv(st) && Enabled(st, e) && i < |st.servers| && PassedOn(|st.servers|, i, st.servers[i], st.sent)
    ensures PassedOn(|st.servers|, i, Apply(st, e).servers[i], st.sent)
  {
    hide Inv, PassedOn, OnMessage, Consume;
    match e
    case Local(k) => if i == k { if Scanning(st.servers[i]) { ScanPasses(st, i); } else { StepPasses(|st.servers|, i, st.servers[i], st.sent); } }
    case Deliver(k, p) => if i == k { DeliverPasses(st, i, p); }
    case Expire(k) => if i == k { ExpirePasses(|st.servers|, i, st.servers[i], st.sent); }
    case _ =>
  }

  lemma ExpirePasses(n: nat, i: nat, s: Server, sent: set<Packet>)
    requires n > 0 && Waiting(s) && s.pc.AwaitPropose? && PassedOn(n, i, s, sent)
    ensures PassedOn(n, i, TimeOut(s), sent)
  {
  }

  lemma {:induction false} RunPasses(colors: seq<string>, run: seq<State>, k: nat)
    requires IsRun(colors, run) && k < |run|
    ensures |run[k].servers| == |colors| > 0 && AllPassed(run[k])
  {
    hide Inv, AllPassed, Apply, Enabled;
    RunInv(colors, run, k);
    if k == 0 {
      StartPasses(colors, run[0]);
    } else {
      RunPasses(colors, run, k - 1);
      RunInv(colors, run, k - 1);
      assert Next(run[k - 1], run[k - 1 + 1]);
      var e :| Enabled(run[k - 1], e) && run[k] == Apply(run[k - 1], e);
      NextPasses(run[k - 1], e);
    }
  }

  lemma StartPasses(colors: seq<string>, st: State)
    requires Init(colors, st)
    ensures AllPassed(st)
  {
  }

  /** A leader decides unless it is refused: a server that has left a round it led without having decided has
      been sent a negative acknowledgement for that round. */
  lemma UndecidedMeansRefused(colors: seq<string>, run: seq<State>, k: nat, i: nat, r: nat)
    requires IsRun(colors, run) && k < |run| && i < |run[k].servers| && r >= 1 && |colors| > 0
    requires Leader(|colors|, r) == i && !run[k].servers[i].decided && run[k].servers[i].round > r
    ensures exists p :: p in run[k].sent && p.dst == i && p.msg == Ack(r, false)
  {
    RunPasses(colors, run, k);
    assert PassedOn(|colors|, i, run[k].servers[i], run[k].sent);
    assert Refused(run[k].sent, r, i);
  }
}
