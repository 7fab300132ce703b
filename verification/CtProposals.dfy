/** Where the colour of a proposal comes from. */
module CtProposals {
  import opened Options
  import opened CtServer
  import opened CtSystem
  import opened CtProofs
  import opened CtAgreement

  /** The leader's own PREPARE of round `r`. */
  predicate Own(sent: set<Packet>, i: nat, r: nat, c: string, cr: nat) { Packet(i, i, Prepare(r, c, cr)) in sent }

  /** Some server's PREPARE of round `r` to the leader. */
  ghost predicate Reported(sent: set<Packet>, i: nat, r: nat, c: string, cr: nat) {
    exists src :: Packet(src, i, Prepare(r, c, cr)) in sent
  }

  ghost predicate From(sent: set<Packet>, i: nat, r: nat, c: string, cr: nat, c0: string, cr0: nat) {
    Own(sent, i, r, c0, cr0) && (c == c0 || (cr > cr0 && Reported(sent, i, r, c, cr)))
  }

  /** `c` is the leader's own colour, or one that was reported to it with a newer round. */
  ghost predicate OwnOrNewer(sent: set<Packet>, i: nat, r: nat, c: string) {
    exists cr: nat, c0: string, cr0: nat :: From(sent, i, r, c, cr, c0, cr0)
  }

  ghost predicate Chose(sent: set<Packet>, i: nat, r: nat, c: string, cr: nat, c0: string, cr0: nat) {
    Own(sent, i, r, c0, cr0) && ((c == c0 && cr == cr0) || (cr > cr0 && Reported(sent, i, r, c, cr)))
  }

  /** What a leader has while it collects and proposes. */
  ghost predicate Choosing(sent: set<Packet>, i: nat, r: nat, c: string, cr: nat) {
    exists c0: string, cr0: nat :: Chose(sent, i, r, c, cr, c0, cr0)
  }

  ghost predicate ChoiceOk(i: nat, s: Server, sent: set<Packet>) {
    !s.decided && (s.pc.CollectPrepares? || s.pc.SendProposes?) ==> Choosing(sent, i, s.round, s.color, s.colorRound)
  }

  ghost predicate ProposalsOk(sent: set<Packet>) {
    forall p :: p in sent && p.msg.Propose? ==> OwnOrNewer(sent, p.src, p.msg.round, p.msg.color)
  }

  lemma ReportedGrows(sent: set<Packet>, sent': set<Packet>, i: nat, r: nat, c: string, cr: nat)
    requires sent <= sent' && Reported(sent, i, r, c, cr)
    ensures Reported(sent', i, r, c, cr)
  {
    var src :| Packet(src, i, Prepare(r, c, cr)) in sent;
    assert Packet(src, i, Prepare(r, c, cr)) in sent';
  }

  lemma ChoosingGrows(sent: set<Packet>, sent': set<Packet>, i: nat, r: nat, c: string, cr: nat)
    requires sent <= sent' && Choosing(sent, i, r, c, cr)
    ensures Choosing(sent', i, r, c, cr)
  {
    var c0: string, cr0: nat :| Chose(sent, i, r, c, cr, c0, cr0);
    if Reported(sent, i, r, c, cr) { ReportedGrows(sent, sent', i, r, c, cr); }
    assert Chose(sent', i, r, c, cr, c0, cr0);
  }

  lemma OwnOrNewerGrows(sent: set<Packet>, sent': set<Packet>, i: nat, r: nat, c: string)
    requires sent <= sent' && OwnOrNewer(sent, i, r, c)
    ensures OwnOrNewer(sent', i, r, c)
  {
    var cr: nat, c0: string, cr0: nat :| From(sent, i, r, c, cr, c0, cr0);
    if Reported(sent, i, r, c, cr) { ReportedGrows(sent, sent', i, r, c, cr); }
    assert From(sent', i, r, c, cr, c0, cr0);
  }

  lemma ChosenIsOwnOrNewer(sent: set<Packet>, i: nat, r: nat, c: string, cr: nat)
    requires Choosing(sent, i, r, c, cr)
    ensures OwnOrNewer(sent, i, r, c)
  {
    var c0: string, cr0: nat :| Chose(sent, i, r, c, cr, c0, cr0);
    assert From(sent, i, r, c, cr, c0, cr0);
  }

  /** A PREPARE is counted, or something else arrives. */
  lemma MessageChoice(n: nat, i: nat, s: Server, p: Packet, sent: set<Packet>)
    requires s.pc.Receiving() && !s.decided && ChoiceOk(i, s, sent) && p in sent && p.dst == i
    ensures ChoiceOk(i, OnMessage(n, s, p), sent)
  {
    var t := OnMessage(n, s, p);
    if s.pc.CollectPrepares? && p.msg.Prepare? && p.msg.round == s.round {
      var r, c, cr := s.round, s.color, s.colorRound;
      var c0: string, cr0: nat :| Chose(sent, i, r, c, cr, c0, cr0);
      assert p == Packet(p.src, i, Prepare(r, p.msg.color, p.msg.colorRound));
      assert Reported(sent, i, r, p.msg.color, p.msg.colorRound);
      hide Own, Reported;
      assert Chose(sent, i, r, t.color, t.colorRound, c0, cr0);
    } else {
      hide Choosing;
    }
  }

  /** A step without a message, and the proposal it may send. */
  lemma StepChoice(n: nat, i: nat, s: Server, sent: set<Packet>)
    requires n > 0 && !Waiting(s) && !Scanning(s) && (s.pc.Receiving() && !s.decided ==> s.pc.scan <= |s.stash|)
    requires ChoiceOk(i, s, sent) && (s.pc.SendProposes? ==> !s.decided)
    ensures var (t, out) := Step(n, i, s);
            && ChoiceOk(i, t, sent + SetOf(out))
            && (out.Some? ==> out.value.src == i)
            && (out.Some? && out.value.msg.Propose? ==>
                  OwnOrNewer(sent + SetOf(out), i, out.value.msg.round, out.value.msg.color))
  {
    var (t, out) := Step(n, i, s);
    var sent' := sent + SetOf(out);
    if !s.decided && s.pc == StartRound && Leader(n, s.round) == i {
      assert Chose(sent', i, s.round, s.color, s.colorRound, s.color, s.colorRound);
    } else if !s.decided && (s.pc.CollectPrepares? || s.pc.SendProposes?) {
      ChoosingGrows(sent, sent', i, s.round, s.color, s.colorRound);
      ChosenIsOwnOrNewer(sent', i, s.round, s.color, s.colorRound);
      hide Choosing, OwnOrNewer;
    } else {
      hide Choosing, OwnOrNewer;
    }
  }

  ghost predicate ChoicesOk(st: State) {
    && ProposalsOk(st.sent)
    && forall i :: 0 <= i < |st.servers| ==> ChoiceOk(i, st.servers[i], st.sent)
  }

  lemma ScanChoice(st: State, i: nat)
    requires Inv(st) && i < |st.servers| && Scanning(st.servers[i]) && ChoiceOk(i, st.servers[i], st.sent)
    ensures ChoiceOk(i, ScanOne(|st.servers|, st.servers[i]), st.sent)
  {
    hide SentOk, PairOk, ServerOk, OnMessage, Choosing;
    var n, s, outside := |st.servers|, st.servers[i], st.inflight + st.lost;
    assert MemberOk(n, i, s, st.sent, outside);
    assert Held(i, s.stash[0], st.sent, outside);
    MessageChoice(n, i, s.(stash := s.stash[1..], pc := s.pc.(scan := s.pc.scan - 1)), s.stash[0], st.sent);
  }

  lemma NotDecidedYet(st: State, i: nat)
    requires Inv(st) && i < |st.servers|
    ensures st.servers[i].pc.SendProposes? ==> !st.servers[i].decided
  {
    assert MemberOk(|st.servers|, i, st.servers[i], st.sent, st.inflight + st.lost);
  }

  lemma LocalChoice(st: State, i: nat)
    requires Inv(st) && Enabled(st, Local(i)) && ChoiceOk(i, st.servers[i], st.sent)
    ensures var (t, out) := Step(|st.servers|, i, st.servers[i]);
            && ChoiceOk(i, t, st.sent + SetOf(out)) && (out.Some? ==> out.value.src == i)
            && (out.Some? && out.value.msg.Propose? ==>
                  OwnOrNewer(st.sent + SetOf(out), i, out.value.msg.round, out.value.msg.color))
  {
    NotDecidedYet(st, i);
    if Scanning(st.servers[i]) {
      ScanChoice(st, i);
      assert st.sent + SetOf(None) == st.sent;
    } else {
      StepChoice(|st.servers|, i, st.servers[i], st.sent);
    }
  }

  lemma DeliverChoice(st: State, i: nat, p: Packet)
    requires Inv(st) && Enabled(st, Deliver(i, p)) && ChoiceOk(i, st.servers[i], st.sent)
    ensures ChoiceOk(i, OnMessage(|st.servers|, st.servers[i], p), st.sent)
  {
    MessageChoice(|st.servers|, i, st.servers[i], p, st.sent);
  }

  lemma Installed(st: State, st': State, i: nat, out: Option<Packet>)
    requires ChoicesOk(st) && i < |st.servers| && st'.sent == st.sent + SetOf(out)
    requires |st'.servers| == |st.servers| && forall k :: 0 <= k < |st.servers| && k != i ==> st'.servers[k] == st.servers[k]
    requires ChoiceOk(i, st'.servers[i], st'.sent) && (out.Some? ==> out.value.src == i)
    requires out.Some? && out.value.msg.Propose? ==> OwnOrNewer(st'.sent, i, out.value.msg.round, out.value.msg.color)
    ensures ChoicesOk(st')
  {
    hide Choosing, OwnOrNewer;
    forall k | 0 <= k < |st.servers| ensures ChoiceOk(k, st'.servers[k], st'.sent) {
      if k != i {
        var s := st.servers[k];
        assert ChoiceOk(k, s, st.sent);
        if !s.decided && (s.pc.CollectPrepares? || s.pc.SendProposes?) {
          ChoosingGrows(st.sent, st'.sent, k, s.round, s.color, s.colorRound);
        }
      }
    }
    forall p | p in st'.sent && p.msg.Propose? ensures OwnOrNewer(st'.sent, p.src, p.msg.round, p.msg.color) {
      if p in st.sent { OwnOrNewerGrows(st.sent, st'.sent, p.src, p.msg.round, p.msg.color); }
    }
  }

  lemma NextChoices(st: State, e: Event)
    requires Inv(st) && Enabled(st, e) && ChoicesOk(st)
    ensures ChoicesOk(Apply(st, e))
  {
    hide Inv, Choosing, OwnOrNewer, ProposalsOk, OnMessage, Step;
    assert st.sent + SetOf(None) == st.sent;
    match e
    case Local(i) => {
      LocalChoice(st, i);
      Installed(st, Apply(st, e), i, Step(|st.servers|, i, st.servers[i]).1);
    }
    case Deliver(i, p) => {
      DeliverChoice(st, i, p);
      Installed(st, Apply(st, e), i, None);
    }
    case Expire(i) => Installed(st, Apply(st, e), i, None);
    case _ =>
  }

  lemma {:induction false} RunChoices(colors: seq<string>, run: seq<State>, k: nat)
    requires IsRun(colors, run) && k < |run|
    ensures ChoicesOk(run[k])
  {
    hide Inv, ChoiceOk, ProposalsOk, Apply, Enabled;
    if k == 0 {
      StartChoices(colors, run[0]);
    } else {
      RunChoices(colors, run, k - 1);
      RunInv(colors, run, k - 1);
      assert Next(run[k - 1], run[k - 1 + 1]);
      var e :| Enabled(run[k - 1], e) && run[k] == Apply(run[k - 1], e);
      NextChoices(run[k - 1], e);
    }
  }

  lemma StartChoices(colors: seq<string>, st: State)
    requires Init(colors, st)
    ensures ChoicesOk(st)
  {
  }

  /** A leader does not give up its colour without need: it proposes the colour of its own PREPARE of that round
      unless another server has reported one of a strictly newer round, and then such a one. */
  lemma ProposalFrom(colors: seq<string>, run: seq<State>, k: nat, p: Packet)
    requires IsRun(colors, run) && k < |run| && p in run[k].sent && p.msg.Propose?
    ensures exists c0: string, cr0: nat :: Packet(p.src, p.src, Prepare(p.msg.round, c0, cr0)) in run[k].sent
              && (p.msg.color == c0
                  || exists src: nat, cr: nat :: cr > cr0 && Packet(src, p.src, Prepare(p.msg.round, p.msg.color, cr)) in run[k].sent)
  {
    RunChoices(colors, run, k);
    var sent, i, r, c := run[k].sent, p.src, p.msg.round, p.msg.color;
    assert OwnOrNewer(sent, i, r, c);
    var cr: nat, c0: string, cr0: nat :| From(sent, i, r, c, cr, c0, cr0);
    assert Packet(i, i, Prepare(r, c0, cr0)) in sent;
    if c != c0 {
      var src :| Packet(src, i, Prepare(r, c, cr)) in sent;
      assert cr > cr0 && Packet(src, i, Prepare(r, c, cr)) in sent;
    }
  }
}
