/**
 Safety of the consensus protocol over every run: agreement, the colour lock, validity, distinct
 voters, conservation of messages.
 */
module CtAgreement {
  import opened Options
  import opened CtServer
  import opened CtSystem
  import opened CtProofs

  // ---- the invariant holds in every run ----

  lemma InitInv(colors: seq<string>, st: State)
    requires Init(colors, st)
    ensures Inv(st)
  {
  }

  /** Packets already sent stay good when server `i` makes progress. */
  lemma SentAllKept(servers: seq<Server>, i: nat, t: Server, sent: set<Packet>, out: Option<Packet>)
    requires i < |servers| && SentAll(servers, sent) && Progress(servers[i], t)
    requires out.Some? ==> out.value.src == i && SentOk(|servers|, out.value, t, sent + SetOf(out))
    ensures SentAll(servers[i := t], sent + SetOf(out))
  {
    var n, servers', sent' := |servers|, servers[i := t], sent + SetOf(out);
    forall p | p in sent'
      ensures p.src < n && SentOk(n, p, servers'[p.src], sent')
    {
      if p in sent {
        assert SentOk(n, p, servers[p.src], sent);
        SentOkKept(n, p, servers[p.src], servers'[p.src], sent, sent');
      }
    }
  }

  /** The other servers do not notice: what changed outside is new or was addressed to server `i`. */
  lemma OthersKept(servers: seq<Server>, i: nat, t: Server, sent: set<Packet>, outside: set<Packet>,
                   sent': set<Packet>, outside': set<Packet>)
    requires i < |servers| && MembersOk(servers, sent, outside) && sent <= sent'
    requires MemberOk(|servers|, i, t, sent', outside')
    requires forall p :: p in outside' && p !in outside ==> p !in sent
    requires forall p :: p in outside && p !in outside' ==> p.dst == i
    requires forall p :: p in sent' && p !in sent ==> p in outside'
    ensures MembersOk(servers[i := t], sent', outside')
  {
    var n, servers' := |servers|, servers[i := t];
    forall j | 0 <= j < n
      ensures MemberOk(n, j, servers'[j], sent', outside')
    {
      if j != i {
        assert MemberOk(n, j, servers[j], sent, outside);
        ServerOkKept(n, j, servers[j], sent, sent');
        OthersPending(j, servers[j], sent, outside, sent', outside');
      }
    }
  }

  lemma OthersPending(j: nat, s: Server, sent: set<Packet>, outside: set<Packet>,
                      sent': set<Packet>, outside': set<Packet>)
    requires PendingOk(j, s, sent, outside) && sent <= sent'
    requires forall p :: p in sent ==> Kept(p, j, s, outside)
    requires forall p :: p in outside' && p !in outside ==> p !in sent
    requires forall p :: p in outside && p !in outside' ==> p.dst != j
    requires forall p :: p in sent' && p !in sent ==> p in outside'
    ensures PendingOk(j, s, sent', outside')
    ensures forall p :: p in sent' ==> Kept(p, j, s, outside')
  {
    forall k | 0 <= k < |s.stash|
      ensures Held(j, s.stash[k], sent', outside') && s.stash[k] !in s.taken
    {
      assert Held(j, s.stash[k], sent, outside);
    }
    forall p | p in s.taken
      ensures Held(j, p, sent', outside')
    {
      assert Held(j, p, sent, outside);
    }
  }

  /** The server looks at the oldest message in its stash. */
  lemma ScanOneOk(st: State, i: nat)
    requires Inv(st) && i < |st.servers| && Scanning(st.servers[i])
    ensures MemberOk(|st.servers|, i, ScanOne(|st.servers|, st.servers[i]), st.sent, st.inflight + st.lost)
    ensures Progress(st.servers[i], ScanOne(|st.servers|, st.servers[i]))
  {
    hide SentOk, PairOk, ServerOk, OnMessage, Progress;
    var n, s, outside := |st.servers|, st.servers[i], st.inflight + st.lost;
    assert MemberOk(n, i, s, st.sent, outside);
    var s1 := s.(stash := s.stash[1..], pc := s.pc.(scan := s.pc.scan - 1));
    var p := s.stash[0];
    assert Held(i, p, st.sent, outside);
    TailPending(i, s, st.sent, outside);
    TailServer(n, i, s, st.sent);
    OnMessageOk(n, i, s1, p, st.servers[p.src], st.sent, outside);
    OnMessagePending(n, i, s1, p, st.sent, outside);
    forall q | q in st.sent ensures Kept(q, i, ScanOne(n, s), outside) {
      assert Kept(q, i, s, outside) && s.stash == [p] + s1.stash;
      if q != p { assert Kept(q, i, s1, outside); }
    }
  }

  /** The server sends a packet or moves on without one. */
  lemma QuietStepOk(st: State, i: nat)
    requires Inv(st) && Enabled(st, Local(i)) && !Scanning(st.servers[i])
    ensures var (t, out) := Step(|st.servers|, i, st.servers[i]);
            && MemberOk(|st.servers|, i, t, st.sent + SetOf(out), st.inflight + st.lost + SetOf(out))
            && Progress(st.servers[i], t)
            && (out.Some? ==> out.value !in st.sent && out.value.src == i
                              && SentOk(|st.servers|, out.value, t, st.sent + SetOf(out)))
            && PairsOk(st.sent + SetOf(out))
  {
    hide SentOk, PairOk, ServerOk, Progress;
    var n, s, outside := |st.servers|, st.servers[i], st.inflight + st.lost;
    var (t, out) := Step(n, i, s);
    assert MemberOk(n, i, s, st.sent, outside);
    StepServerOk(n, i, s, st.sent, st.sent + SetOf(out));
    forall q | q in st.sent ensures Kept(q, i, t, outside) {
      assert Kept(q, i, s, outside);
      StepPending(n, i, s, st.sent, outside, q);
    }
    StepPending(n, i, s, st.sent, outside, Packet(0, 0, Decide("")));
    match out
    case Some(p) =>
      forall a | a in st.sent && a.src == i ensures SentOk(n, a, s, st.sent) {
        assert SentOk(n, a, st.servers[a.src], st.sent);
      }
      SendOk(n, i, s, p, st.sent);
      SentPending(i, t, st.sent, outside, p);
      forall q | q in st.sent + {p} ensures Kept(q, i, t, outside + {p}) {
        if q != p { assert Kept(q, i, t, outside); }
      }
    case None =>
      assert st.sent + SetOf(out) == st.sent && outside + SetOf(out) == outside;
  }

  lemma InstallInv(st: State, i: nat, t: Server, out: Option<Packet>)
    requires Inv(st) && i < |st.servers| && Progress(st.servers[i], t)
    requires MemberOk(|st.servers|, i, t, st.sent + SetOf(out), st.inflight + st.lost + SetOf(out))
    requires out.Some? ==> out.value !in st.sent && out.value.src == i
                           && SentOk(|st.servers|, out.value, t, st.sent + SetOf(out))
    requires PairsOk(st.sent + SetOf(out))
    ensures Inv(st.(servers := st.servers[i := t], sent := st.sent + SetOf(out), inflight := st.inflight + SetOf(out)))
  {
    hide SentOk, MemberOk, PairsOk, Progress;
    var outside := st.inflight + st.lost;
    assert st.inflight + SetOf(out) + st.lost == outside + SetOf(out);
    SentAllKept(st.servers, i, t, st.sent, out);
    OthersKept(st.servers, i, t, st.sent, outside, st.sent + SetOf(out), outside + SetOf(out));
  }

  lemma LocalInv(st: State, i: nat)
    requires Inv(st) && Enabled(st, Local(i))
    ensures Inv(Apply(st, Local(i)))
  {
    hide MembersOk, SentAll, PairsOk, MemberOk, Progress, SentOk;
    var (t, out) := Step(|st.servers|, i, st.servers[i]);
    if Scanning(st.servers[i]) {
      ScanOneOk(st, i);
      assert out == None && st.sent + SetOf(out) == st.sent;
      assert st.inflight + st.lost + SetOf(out) == st.inflight + st.lost;
    } else {
      QuietStepOk(st, i);
    }
    InstallInv(st, i, t, out);
  }

  lemma TailPending(i: nat, s: Server, sent: set<Packet>, outside: set<Packet>)
    requires Scanning(s) && PendingOk(i, s, sent, outside)
    ensures PendingOk(i, s.(stash := s.stash[1..], pc := s.pc.(scan := s.pc.scan - 1)), sent, outside)
    ensures s.stash[0] !in s.stash[1..]
  {
    var s1 := s.(stash := s.stash[1..], pc := s.pc.(scan := s.pc.scan - 1));
    forall j | !s1.decided && (s1.pc.CollectPrepares? || s1.pc.CollectAcks?) && j in s1.heard
      ensures HeardFrom(s1, j)
    {
      assert HeardFrom(s, j);
      var q :| q in s.taken && Wanted(s.pc, q.msg) && q.msg.round == s.round && q.src == j;
      assert q in s1.taken && Wanted(s1.pc, q.msg);
    }
  }

  lemma TailServer(n: nat, i: nat, s: Server, sent: set<Packet>)
    requires n > 0 && Scanning(s) && ServerOk(n, i, s, sent)
    ensures ServerOk(n, i, s.(stash := s.stash[1..], pc := s.pc.(scan := s.pc.scan - 1)), sent)
    ensures forall t :: Progress(s.(stash := s.stash[1..], pc := s.pc.(scan := s.pc.scan - 1)), t) ==> Progress(s, t)
  {
  }

  /** Sending a new packet leaves the sender's own stash and taken packets inside. */
  lemma SentPending(i: nat, t: Server, sent: set<Packet>, outside: set<Packet>, p: Packet)
    requires PendingOk(i, t, sent, outside) && p !in sent
    ensures PendingOk(i, t, sent + {p}, outside + {p})
  {
    forall k | 0 <= k < |t.stash|
      ensures Held(i, t.stash[k], sent + {p}, outside + {p}) && t.stash[k] !in t.taken
    {
      assert Held(i, t.stash[k], sent, outside);
    }
    forall q | q in t.taken ensures Held(i, q, sent + {p}, outside + {p}) { assert Held(i, q, sent, outside); }
  }

  lemma DeliverInv(st: State, i: nat, p: Packet)
    requires Inv(st) && Enabled(st, Deliver(i, p))
    ensures Inv(Apply(st, Deliver(i, p)))
  {
    hide SentOk, PairOk, ServerOk, OnMessage, Progress;
    var n, s := |st.servers|, st.servers[i];
    var outside, outside' := st.inflight + st.lost, st.inflight - {p} + st.lost;
    var t := OnMessage(n, s, p);
    assert MemberOk(n, i, s, st.sent, outside);
    forall k | 0 <= k < |s.stash|
      ensures Held(i, s.stash[k], st.sent, outside') && s.stash[k] != p
    {
      assert Held(i, s.stash[k], st.sent, outside);
    }
    forall q | q in s.taken ensures Held(i, q, st.sent, outside') && q != p { assert Held(i, q, st.sent, outside); }
    assert PendingOk(i, s, st.sent, outside');
    OnMessageOk(n, i, s, p, st.servers[p.src], st.sent, outside');
    OnMessagePending(n, i, s, p, st.sent, outside');
    forall q | q in st.sent ensures Kept(q, i, t, outside') {
      assert Kept(q, i, s, outside);
      if q != p { assert Kept(q, i, s, outside'); }
    }
    SentAllKept(st.servers, i, t, st.sent, None);
    assert st.sent + SetOf(None) == st.sent;
    OthersKept(st.servers, i, t, st.sent, outside, st.sent, outside');
  }

  lemma ExpireInv(st: State, i: nat)
    requires Inv(st) && Enabled(st, Expire(i))
    ensures Inv(Apply(st, Expire(i)))
  {
    var n, s, outside := |st.servers|, st.servers[i], st.inflight + st.lost;
    assert MemberOk(n, i, s, st.sent, outside);
    var t := TimeOut(s);
    forall q | q in st.sent ensures Kept(q, i, t, outside) { assert Kept(q, i, s, outside); }
    SentAllKept(st.servers, i, t, st.sent, None);
    assert st.sent + SetOf(None) == st.sent;
    OthersKept(st.servers, i, t, st.sent, outside, st.sent, outside);
  }

  /** A packet lost stays outside all servers. */
  lemma LoseInv(st: State, p: Packet)
    requires Inv(st) && Enabled(st, Lose(p))
    ensures Inv(Apply(st, Lose(p)))
  {
    hide MembersOk, SentAll, PairsOk;
    var st' := Apply(st, Lose(p));
    assert st'.inflight + st'.lost == st.inflight + st.lost;
  }

  /** A packet for Nancy concerns no server. */
  lemma NancyInv(st: State, p: Packet)
    requires Inv(st) && Enabled(st, NancyGets(p))
    ensures Inv(Apply(st, NancyGets(p)))
  {
    hide SentAll, PairsOk, ServerOk, PendingOk, Kept;
    var st' := Apply(st, NancyGets(p));
    forall i | 0 <= i < |st.servers|
      ensures MemberOk(|st.servers|, i, st.servers[i], st'.sent, st'.inflight + st'.lost)
    {
      assert MemberOk(|st.servers|, i, st.servers[i], st.sent, st.inflight + st.lost);
      OthersPending(i, st.servers[i], st.sent, st.inflight + st.lost, st'.sent, st'.inflight + st'.lost);
    }
  }

  lemma NextInv(st: State, st': State)
    requires Inv(st) && Next(st, st')
    ensures Inv(st')
  {
    var e :| Enabled(st, e) && st' == Apply(st, e);
    match e
    case Local(i) => LocalInv(st, i);
    case Deliver(i, p) => DeliverInv(st, i, p);
    case Expire(i) => ExpireInv(st, i);
    case Lose(p) => LoseInv(st, p);
    case NancyGets(p) => NancyInv(st, p);
  }

  lemma {:induction false} RunInv(colors: seq<string>, run: seq<State>, k: nat)
    requires IsRun(colors, run) && k < |run|
    ensures Inv(run[k]) && |run[k].servers| == |colors|
  {
    if k == 0 {
      InitInv(colors, run[0]);
    } else {
      RunInv(colors, run, k - 1);
      assert Next(run[k - 1], run[k - 1 + 1]);
      NextInv(run[k - 1], run[k]);
    }
  }
}
