/** The results a user of the consensus protocol relies on, for every run. */
module CtTheorems {
  import opened Options
  import opened CtServer
  import opened CtSystem
  import opened CtProofs
  import opened CtAgreement

  // ---- quorums ----

  lemma {:induction false} BoundedSize(n: nat, q: set<nat>)
    requires Below(n, q)
    ensures |q| <= n
  {
    if n == 0 {
      assert q == {};
    } else {
      var rest := q - {n - 1};
      BoundedSize(n - 1, rest);
    }
  }

  /** Two majorities share a member. */
  lemma MajoritiesMeet(n: nat, a: set<nat>, b: set<nat>) returns (i: nat)
    requires Majority(n, a) && Majority(n, b)
    ensures i in a && i in b
  {
    if a * b == {} {
      BoundedSize(n, a + b);
      assert false;
    }
    i :| i in a * b;
  }

  // ---- the colour lock ----

  /** Once a majority has acknowledged round `r`, every later proposal has round `r`'s colour. */
  lemma {:induction false} ColorLock(st: State, r: nat, q: set<nat>, c: string, r': nat, c': string)
    requires Inv(st)
    requires ChosenIn(|st.servers|, st.sent, c, r, q)
    requires r' >= r && Proposed(|st.servers|, st.sent, r', c')
    ensures c' == c
    decreases r'
  {
    var n := |st.servers|;
    if r' == r {
      ProposalFits(n, r, c, c', st.sent);
    } else {
      var d :| Packet(Leader(n, r'), d, Propose(r', c')) in st.sent;
      var proposal := Packet(Leader(n, r'), d, Propose(r', c'));
      assert SentOk(n, proposal, st.servers[proposal.src], st.sent);
      var basis, cr :| JustifiedBy(n, st.sent, r', c', basis, cr);
      var i := MajoritiesMeet(n, q, basis);
      assert Acked(st.sent, r, i) && PreparedBelow(st.sent, r', i, cr);
      var ack :| ack in st.sent && ack.src == i && ack.msg == Ack(r, true);
      var prepare :| prepare in st.sent && prepare.src == i && prepare.msg.Prepare?
                     && prepare.msg.round == r' && prepare.msg.colorRound <= cr;
      assert PairOk(ack, prepare);
      assert SentOk(n, ack, st.servers[i], st.sent);
      ColorLock(st, r, q, c, cr, c');
    }
  }

  lemma ChosenUnique(st: State, c: string, c': string)
    requires Inv(st) && Chosen(|st.servers|, st.sent, c) && Chosen(|st.servers|, st.sent, c')
    ensures c == c'
  {
    var r, q :| ChosenIn(|st.servers|, st.sent, c, r, q);
    var r', q' :| ChosenIn(|st.servers|, st.sent, c', r', q');
    if r <= r' {
      ColorLock(st, r, q, c, r', c');
    } else {
      ColorLock(st, r', q', c', r, c);
    }
  }

  // ---- runs ----

  lemma {:induction false} SentGrows(colors: seq<string>, run: seq<State>, j: nat, k: nat)
    requires IsRun(colors, run) && j <= k < |run|
    ensures run[j].sent <= run[k].sent
  {
    if j < k {
      SentGrows(colors, run, j, k - 1);
      assert Next(run[k - 1], run[k - 1 + 1]);
    }
  }

  /** Agreement: no two DECIDE messages ever sent in a run carry different colours. */
  lemma Agreement(colors: seq<string>, run: seq<State>, j: nat, k: nat, p: Packet, q: Packet)
    requires IsRun(colors, run) && j < |run| && k < |run|
    requires p in run[j].sent && p.msg.Decide?
    requires q in run[k].sent && q.msg.Decide?
    ensures p.msg.color == q.msg.color
  {
    var last := |run| - 1;
    SentGrows(colors, run, j, last);
    SentGrows(colors, run, k, last);
    RunInv(colors, run, last);
    var st := run[last];
    assert SentOk(|st.servers|, p, st.servers[p.src], st.sent);
    assert SentOk(|st.servers|, q, st.servers[q.src], st.sent);
    ChosenUnique(st, p.msg.color, q.msg.color);
  }

  /** Colour lock over runs: a majority of positive acknowledgements of round `r` at any time fixes
      the colour of every proposal of round `r` or later, sent at any time. */
  lemma LockedForever(colors: seq<string>, run: seq<State>, j: nat, k: nat, r: nat, voters: set<nat>,
                      p: Packet, q: Packet)
    requires IsRun(colors, run) && j < |run| && k < |run|
    requires Locked(|colors|, run[j].sent, r, voters)
    requires p in run[k].sent && p.msg.Propose? && p.msg.round == r
    requires q in run[k].sent && q.msg.Propose? && q.msg.round >= r
    ensures q.msg.color == p.msg.color
  {
    var last := |run| - 1;
    SentGrows(colors, run, j, last);
    SentGrows(colors, run, k, last);
    RunInv(colors, run, last);
    var st := run[last];
    assert |st.servers| == |colors|;
    forall i | i in voters ensures Acked(st.sent, r, i) { assert Acked(run[j].sent, r, i); }
    assert SentOk(|colors|, p, st.servers[p.src], st.sent);
    assert SentOk(|colors|, q, st.servers[q.src], st.sent);
    assert Packet(Leader(|colors|, r), p.dst, Propose(r, p.msg.color)) in st.sent;
    assert Packet(Leader(|colors|, q.msg.round), q.dst, Propose(q.msg.round, q.msg.color)) in st.sent;
    assert ChosenIn(|colors|, st.sent, p.msg.color, r, voters);
    ColorLock(st, r, voters, p.msg.color, q.msg.round, q.msg.color);
  }

  // ---- validity ----

  predicate ColorsKnown(colors: seq<string>, st: State) {
    && (forall i :: 0 <= i < |st.servers| ==> st.servers[i].color in colors)
    && (forall p :: p in st.sent && !p.msg.Ack? ==> p.msg.color in colors)
  }

  lemma OnMessageColor(n: nat, s: Server, p: Packet)
    requires s.pc.Receiving() && !s.decided
    ensures OnMessage(n, s, p).color == s.color || (!p.msg.Ack? && OnMessage(n, s, p).color == p.msg.color)
  {
  }

  lemma LocalColors(colors: seq<string>, st: State, i: nat)
    requires Inv(st) && ColorsKnown(colors, st) && Enabled(st, Local(i))
    ensures var (t, out) := Step(|st.servers|, i, st.servers[i]);
            t.color in colors && (out.Some? && !out.value.msg.Ack? ==> out.value.msg.color in colors)
  {
    var n, s := |st.servers|, st.servers[i];
    if Scanning(s) {
      assert MemberOk(n, i, s, st.sent, st.inflight + st.lost);
      assert Held(i, s.stash[0], st.sent, st.inflight + st.lost);
      OnMessageColor(n, s.(stash := s.stash[1..], pc := s.pc.(scan := s.pc.scan - 1)), s.stash[0]);
    }
  }

  lemma InstallColors(colors: seq<string>, st: State, i: nat, t: Server, out: Option<Packet>, inflight: set<Packet>)
    requires ColorsKnown(colors, st) && i < |st.servers| && t.color in colors
    requires out.Some? && !out.value.msg.Ack? ==> out.value.msg.color in colors
    ensures ColorsKnown(colors, st.(servers := st.servers[i := t], sent := st.sent + SetOf(out), inflight := inflight))
  {
  }

  lemma NextColors(colors: seq<string>, st: State, e: Event)
    requires Inv(st) && ColorsKnown(colors, st) && Enabled(st, e)
    ensures ColorsKnown(colors, Apply(st, e))
  {
    assert st.sent + SetOf(None) == st.sent;
    match e
    case Local(i) =>
      LocalColors(colors, st, i);
      var (t, out) := Step(|st.servers|, i, st.servers[i]);
      InstallColors(colors, st, i, t, out, st.inflight + SetOf(out));
    case Deliver(i, p) =>
      var t := OnMessage(|st.servers|, st.servers[i], p);
      OnMessageColor(|st.servers|, st.servers[i], p);
      InstallColors(colors, st, i, t, None, st.inflight - {p});
    case Expire(i) =>
      InstallColors(colors, st, i, TimeOut(st.servers[i]), None, st.inflight);
    case _ =>
  }

  /** Validity: every colour in a run, so every decided colour, is some server's initial colour. */
  lemma {:induction false} Validity(colors: seq<string>, run: seq<State>, k: nat)
    requires IsRun(colors, run) && k < |run|
    ensures ColorsKnown(colors, run[k])
  {
    hide Inv, Apply, Enabled, ColorsKnown;
    if k == 0 {
      StartColors(colors, run[0]);
    } else {
      Validity(colors, run, k - 1);
      RunInv(colors, run, k - 1);
      assert Next(run[k - 1], run[k - 1 + 1]);
      var e :| Enabled(run[k - 1], e) && run[k] == Apply(run[k - 1], e);
      NextColors(colors, run[k - 1], e);
    }
  }

  lemma StartColors(colors: seq<string>, st: State)
    requires Init(colors, st)
    ensures ColorsKnown(colors, st)
  {
  }

  // ---- messages ----

  /** Conservation: a packet sent to server `i` that is neither a DECIDE nor outdated is in flight,
      lost, in the stash, or was returned by `receive`, and in only one of these places; the stash
      holds no packet twice. */
  lemma Conservation(colors: seq<string>, run: seq<State>, k: nat, i: nat, p: Packet)
    requires IsRun(colors, run) && k < |run| && i < |run[k].servers|
    requires p in run[k].sent && p.dst == i && !p.msg.Decide? && p.msg.round >= run[k].servers[i].round
    ensures var st, s := run[k], run[k].servers[i];
            && [p in st.inflight, p in st.lost, p in s.stash, p in s.taken]
               in {[true, false, false, false], [false, true, false, false],
                   [false, false, true, false], [false, false, false, true]}
            && forall a, b :: 0 <= a < b < |s.stash| ==> s.stash[a] != s.stash[b]
  {
    RunInv(colors, run, k);
    var st := run[k];
    var s, outside := st.servers[i], st.inflight + st.lost;
    assert MemberOk(|st.servers|, i, s, st.sent, outside);
    assert Kept(p, i, s, outside);
    if p in s.stash {
      var a :| 0 <= a < |s.stash| && s.stash[a] == p;
      assert Held(i, s.stash[a], st.sent, outside);
    }
    if p in s.taken { assert Held(i, p, st.sent, outside); }
  }

  /** Server `j` sent `i` a message of the kind and round that `s` is counting. */
  ghost predicate SpokeTo(sent: set<Packet>, s: Server, i: nat, j: nat) {
    exists p :: p in sent && p.src == j && p.dst == i && Wanted(s.pc, p.msg) && p.msg.round == s.round
  }

  /** Each message counted towards a quorum comes from a different server that really sent one. */
  lemma DistinctVoters(colors: seq<string>, run: seq<State>, k: nat, i: nat)
    requires IsRun(colors, run) && k < |run| && i < |run[k].servers|
    requires var s := run[k].servers[i]; !s.decided && (s.pc.CollectPrepares? || s.pc.CollectAcks?)
    ensures var st, s := run[k], run[k].servers[i];
            && |s.heard| == (if s.pc.CollectPrepares? then s.pc.received else s.pc.total)
            && Below(|st.servers|, s.heard)
            && (forall j :: j in s.heard ==> SpokeTo(st.sent, s, i, j))
            && (s.pc.CollectAcks? ==> |s.yes| == s.pc.success && s.yes <= s.heard
                                      && forall j :: j in s.yes ==> Acked(st.sent, s.round, j))
  {
    RunInv(colors, run, k);
    var st := run[k];
    var s, outside := st.servers[i], st.inflight + st.lost;
    assert MemberOk(|st.servers|, i, s, st.sent, outside);
    forall j | j in s.heard ensures SpokeTo(st.sent, s, i, j) {
      assert HeardFrom(s, j);
      var p :| p in s.taken && Wanted(s.pc, p.msg) && p.msg.round == s.round && p.src == j;
      assert Held(i, p, st.sent, outside);
    }
  }
}
