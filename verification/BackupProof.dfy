/** One history, no split brain. */
module BackupProof {
  import opened Pancydb
  import opened BackupSystem

  /** The database after a log has been applied to the empty one. */
  function Replay(log: seq<Command>): Db {
    if log == [] then EMPTY else Process(Replay(log[..|log| - 1]), log[|log| - 1].body).0
  }

  lemma ReplayAppend(log: seq<Command>, c: Command)
    ensures Replay(log + [c]) == Process(Replay(log), c.body).0
  {
    assert (log + [c])[..|log|] == log;
  }

  /** The answer a single server would have given. */
  ghost predicate Answers(log: seq<Command>, r: Reply) {
    && r.pos < |log| && log[r.pos] == r.cmd
    && r.body == Process(Replay(log[..r.pos]), r.cmd.body).1
  }

  /** What a request still being forwarded, or an old copy of it, may be. */
  ghost predicate ForwardOk(st: State, m: Forward) {
    && 1 <= m.serial <= st.serial
    && (m.serial <= st.expected ==> m.serial <= |st.log| && st.log[m.serial - 1] == m.cmd)
    && (m.serial > st.expected ==> !st.primary.Idle? && m.cmd == st.primary.cmd)
  }

  /** Serial numbers count what has been applied. */
  ghost predicate CountsOk(st: State) {
    && (st.serial == st.expected || st.serial == st.expected + 1)
    && |st.applied| == (if st.primary.Idle? then st.serial else st.serial - 1)
    && (st.primary.Idle? ==> st.serial == st.expected)
    && |st.applied| <= st.expected <= |st.log|
    && (!st.promoted ==> |st.log| == st.expected)
    && (forall n :: n in st.b2p ==> n <= st.expected)
    && (!st.primary.Idle? ==> st.serial >= 1 && st.primary.taken <= |st.replies|)
  }

  ghost predicate LogsOk(st: State)
    requires CountsOk(st)
  {
    && st.applied <= st.log
    && (!st.primary.Idle? && st.serial == st.expected ==> st.log[st.serial - 1] == st.primary.cmd)
    && st.pdb == Replay(st.applied) && st.bdb == Replay(st.log)
  }

  /** Before promotion every answered position is the primary's; afterwards the backup's come behind
      everything the backup had when it took over. */
  ghost predicate RepliesOk(st: State) {
    && (forall i :: 0 <= i < |st.replies| ==> Answers(st.log, st.replies[i]))
    && (forall i :: 0 <= i < |st.replies| ==> st.replies[i].pos < |st.applied| || st.replies[i].pos >= st.expected)
    && (forall i, j :: 0 <= i < j < |st.replies| ==> st.replies[i].pos != st.replies[j].pos)
    && (forall j :: 0 <= j < |st.replies| ==> Ordered(st.replies, st.replies[j].taken, st.replies[j].pos))
  }

  /** The first `taken` answers are to requests before position `pos`. */
  ghost predicate Ordered(replies: seq<Reply>, taken: nat, pos: nat) {
    taken <= |replies| && forall i :: 0 <= i < taken ==> replies[i].pos < pos
  }

  /** A request the backup has for certain, taken before anything the backup answers. */
  ghost predicate PendingOk(st: State)
    requires CountsOk(st)
  {
    !st.primary.Idle? && st.serial == st.expected ==> Ordered(st.replies, st.primary.taken, st.serial - 1)
  }

  ghost predicate Inv(st: State) {
    CountsOk(st) && LogsOk(st) && RepliesOk(st) && PendingOk(st) && forall m :: m in st.p2b ==> ForwardOk(st, m)
  }

  lemma AnswersStay(log: seq<Command>, log': seq<Command>, r: Reply)
    requires Answers(log, r) && log <= log'
    ensures Answers(log', r)
  {
    assert log'[..r.pos] == log[..r.pos];
  }

  /** One more answer, to a position nobody has answered. */
  lemma ReplyAdded(st: State, st': State, r: Reply)
    requires RepliesOk(st) && st'.replies == st.replies + [r] && st.log <= st'.log && st'.expected == st.expected
    requires Answers(st'.log, r) && |st.applied| <= |st'.applied| <= st.expected
    requires forall i :: 0 <= i < |st.replies| ==>
               st.replies[i].pos != r.pos && (i < r.taken ==> st.replies[i].pos < r.pos)
    requires r.taken <= |st.replies| && (r.pos < |st'.applied| || r.pos >= st.expected)
    ensures RepliesOk(st')
  {
    hide Replay, Process;
    forall i | 0 <= i < |st'.replies| ensures Answers(st'.log, st'.replies[i]) {
      if i < |st.replies| { AnswersStay(st.log, st'.log, st.replies[i]); }
    }
    hide Answers;
    forall j | 0 <= j < |st'.replies| ensures Ordered(st'.replies, st'.replies[j].taken, st'.replies[j].pos) {
      assert j < |st.replies| ==> Ordered(st.replies, st.replies[j].taken, st.replies[j].pos);
    }
  }

  /** The primary's next answer is to a position of its own. */
  lemma AckPosition(st: State)
    requires Inv(st) && !st.primary.Idle? && st.serial == st.expected
    ensures st.primary.taken <= |st.replies|
    ensures forall i :: 0 <= i < |st.replies| ==>
              st.replies[i].pos != |st.applied| && (i < st.primary.taken ==> st.replies[i].pos < |st.applied|)
  {
    hide Replay, Process, Answers;
    assert Ordered(st.replies, st.primary.taken, st.serial - 1);
  }

  lemma SameForwards(st: State, st': State)
    requires forall m :: m in st.p2b ==> ForwardOk(st, m)
    requires st'.serial == st.serial && st'.expected == st.expected && st.log <= st'.log && st'.p2b == st.p2b
    requires st.expected <= |st.log|
    requires st'.primary.Idle? ==> st.primary.Idle? || st.serial == st.expected
    requires !st'.primary.Idle? ==> !st.primary.Idle? && st'.primary.cmd == st.primary.cmd
    ensures forall m :: m in st'.p2b ==> ForwardOk(st', m)
  {
    forall m | m in st.p2b ensures ForwardOk(st', m) { assert ForwardOk(st, m); }
  }

  lemma AckLogs(st: State)
    requires Inv(st) && st.primary.Waiting? && st.serial == st.expected
    ensures var st' := Apply(st.(b2p := st.b2p + {st.serial}), Acknowledged(st.serial));
            && st'.applied <= st.log && st'.pdb == Replay(st'.applied)
            && Answers(st.log, st'.replies[|st.replies|])
  {
    ReplayAppend(st.applied, st.primary.cmd);
    assert st.log[..|st.applied|] == st.applied;
  }

  lemma AckInv(st: State, n: nat)
    requires Inv(st) && Enabled(st, Acknowledged(n))
    ensures Inv(Apply(st, Acknowledged(n)))
  {
    hide Replay, Process, Answers, ForwardOk;
    var st' := Apply(st, Acknowledged(n));
    SameForwards(st, st');
    if n == st.serial {
      AckPosition(st);
      AckLogs(st);
      ReplyAdded(st, st', st'.replies[|st.replies|]);
      hide RepliesOk;
    }
  }

  /** While it is a backup, everything answered has been answered by the primary. */
  lemma DeliverReplies(st: State, m: Forward)
    requires Inv(st) && Enabled(st, Deliver(m)) && m.serial == st.expected + 1
    ensures RepliesOk(Apply(st, Deliver(m)))
    ensures forall i :: 0 <= i < |st.replies| ==> st.replies[i].pos < |st.applied|
    ensures Apply(st, Deliver(m)).bdb == Replay(st.log + [m.cmd])
  {
    ReplayAppend(st.log, m.cmd);
    assert forall i :: 0 <= i < |st.replies| ==> st.replies[i].pos < |st.log|;
    hide Replay, Process;
    forall i | 0 <= i < |st.replies| ensures Answers(st.log + [m.cmd], st.replies[i]) {
      AnswersStay(st.log, st.log + [m.cmd], st.replies[i]);
    }
  }

  lemma DeliverInv(st: State, m: Forward)
    requires Inv(st) && Enabled(st, Deliver(m))
    ensures Inv(Apply(st, Deliver(m)))
  {
    hide Replay, Process, Answers;
    var st' := Apply(st, Deliver(m));
    if m.serial == st.expected + 1 {
      assert ForwardOk(st, m);
      DeliverReplies(st, m);
      hide RepliesOk;
      forall x | x in st.p2b ensures ForwardOk(st', x) { assert ForwardOk(st, x); }
    } else {
      hide RepliesOk;
      forall x | x in st.p2b ensures ForwardOk(st', x) { assert ForwardOk(st, x); }
    }
  }

  lemma ServeLogs(st: State, cmd: Command, taken: nat)
    requires Inv(st) && Enabled(st, Serve(cmd, taken))
    ensures var st' := Apply(st, Serve(cmd, taken));
            st'.bdb == Replay(st'.log) && Answers(st'.log, st'.replies[|st.replies|])
    ensures forall i :: 0 <= i < |st.replies| ==> st.replies[i].pos < |st.log|
  {
    ReplayAppend(st.log, cmd);
    assert (st.log + [cmd])[..|st.log|] == st.log;
  }

  lemma ServeInv(st: State, cmd: Command, taken: nat)
    requires Inv(st) && Enabled(st, Serve(cmd, taken))
    ensures Inv(Apply(st, Serve(cmd, taken)))
  {
    hide Replay, Process, Answers, ForwardOk;
    var st' := Apply(st, Serve(cmd, taken));
    ServeLogs(st, cmd, taken);
    SameForwards(st, st');
    ReplyAdded(st, st', st'.replies[|st.replies|]);
    hide RepliesOk;
  }

  lemma SendInv(st: State)
    requires Inv(st) && Enabled(st, Send)
    ensures Inv(Apply(st, Send))
  {
    var st' := Apply(st, Send);
    forall x | x in st'.p2b ensures ForwardOk(st', x) { assert x in st.p2b ==> ForwardOk(st, x); }
  }

  lemma TakeInv(st: State, cmd: Command, taken: nat)
    requires Inv(st) && Enabled(st, Take(cmd, taken))
    ensures Inv(Apply(st, Take(cmd, taken)))
  {
    var st' := Apply(st, Take(cmd, taken));
    forall x | x in st.p2b ensures ForwardOk(st', x) { assert ForwardOk(st, x); }
  }

  lemma NextInv(st: State, e: Event)
    requires Inv(st) && Enabled(st, e)
    ensures Inv(Apply(st, e))
  {
    hide Replay, Process, Answers;
    match e
    case Take(cmd, taken) => TakeInv(st, cmd, taken);
    case Send => SendInv(st);
    case Acknowledged(n) => AckInv(st, n);
    case Deliver(m) => DeliverInv(st, m);
    case Serve(cmd, taken) => ServeInv(st, cmd, taken);
    case Expire => ExpireInv(st);
    case Redirect =>
    case Promote => assert forall x :: x in st.p2b ==> ForwardOk(Apply(st, Promote), x) by {
      forall x | x in st.p2b ensures ForwardOk(Apply(st, Promote), x) { assert ForwardOk(st, x); }
    }
  }

  lemma ExpireInv(st: State)
    requires Inv(st) && st.primary.Waiting?
    ensures Inv(st.(primary := Sending(st.primary.cmd, st.primary.taken)))
  {
    var st' := st.(primary := Sending(st.primary.cmd, st.primary.taken));
    forall x | x in st.p2b ensures ForwardOk(st', x) { assert ForwardOk(st, x); }
  }

  lemma {:induction false} RunInv(run: seq<State>, k: nat)
    requires IsRun(run) && k < |run|
    ensures Inv(run[k])
  {
    hide Inv, Apply, Enabled;
    if k == 0 {
      assert Inv(START) by { StartInv(); }
    } else {
      RunInv(run, k - 1);
      assert Next(run[k - 1], run[k - 1 + 1]);
      var e :| Enabled(run[k - 1], e) && run[k] == Apply(run[k - 1], e);
      NextInv(run[k - 1], e);
    }
  }

  lemma StartInv()
    ensures Inv(START)
  {
  }

  // ---- the results ----

  /** One history: every answer, from primary or backup, is the one a single server would have given at
      its position in the backup's log; no two answers share a position; what the primary has applied is
      a prefix of that log, so nothing answered is missing from the backup. */
  lemma OneHistory(run: seq<State>, k: nat)
    requires IsRun(run) && k < |run|
    ensures var st := run[k];
            && st.applied <= st.log && st.pdb == Replay(st.applied) && st.bdb == Replay(st.log)
            && (forall i :: 0 <= i < |st.replies| ==> Answers(st.log, st.replies[i]))
            && forall i, j :: 0 <= i < j < |st.replies| ==> st.replies[i].pos != st.replies[j].pos
  {
    RunInv(run, k);
  }

  /** The order of the history is real: a request that arrives after an answer was given comes behind
      the answered request. */
  lemma RealTime(run: seq<State>, k: nat, i: nat, j: nat)
    requires IsRun(run) && k < |run| && i < |run[k].replies| && j < |run[k].replies|
    requires i < run[k].replies[j].taken
    ensures run[k].replies[i].pos < run[k].replies[j].pos
  {
    RunInv(run, k);
    assert Ordered(run[k].replies, run[k].replies[j].taken, run[k].replies[j].pos);
  }

  lemma Grows(st: State, e: Event)
    requires Enabled(st, e)
    ensures st.log <= Apply(st, e).log && st.replies <= Apply(st, e).replies
  {
    hide Process;
  }

  /** The log only grows, so an answer stays right forever. */
  lemma {:induction false} LogGrows(run: seq<State>, k: nat, l: nat)
    requires IsRun(run) && k <= l < |run|
    ensures run[k].log <= run[l].log && run[k].replies <= run[l].replies
    decreases l
  {
    if k < l {
      hide Apply, Enabled;
      LogGrows(run, k, l - 1);
      assert Next(run[l - 1], run[l - 1 + 1]);
      var e :| Enabled(run[l - 1], e) && run[l] == Apply(run[l - 1], e);
      Grows(run[l - 1], e);
    }
  }

  /** The primary is never more than one request ahead of the backup. */
  lemma InStep(run: seq<State>, k: nat)
    requires IsRun(run) && k < |run|
    ensures run[k].serial == run[k].expected || run[k].serial == run[k].expected + 1
  {
    RunInv(run, k);
  }

  /** After the backup has taken over, the primary answers at most the request it was working on. */
  lemma NoSplitBrain(run: seq<State>, k: nat, l: nat)
    requires IsRun(run) && k <= l < |run| && run[k].promoted
    ensures run[l].promoted && run[l].expected == run[k].expected
    ensures |run[l].applied| <= run[k].expected <= |run[k].applied| + 1
  {
    RunInv(run, k);
    RunInv(run, l);
    StaysPromoted(run, k, l);
  }

  lemma {:induction false} StaysPromoted(run: seq<State>, k: nat, l: nat)
    requires IsRun(run) && k <= l < |run| && run[k].promoted
    ensures run[l].promoted && run[l].expected == run[k].expected
    decreases l
  {
    if k < l {
      StaysPromoted(run, k, l - 1);
      assert Next(run[l - 1], run[l - 1 + 1]);
      var e :| Enabled(run[l - 1], e) && run[l] == Apply(run[l - 1], e);
      hide Process;
    }
  }

  // ---- on the program's channels ----

  /** What is on its way was sent, in order, and is no older than what has been received. */
  ghost predicate WiredInv(w: Wired) {
    && Inv(w.st) && !w.st.broken
    && (forall i :: 0 <= i < |w.toBackup| ==> w.toBackup[i] in w.st.p2b)
    && (forall i :: 0 <= i < |w.toPrimary| ==> w.toPrimary[i] in w.st.b2p)
    && (!w.st.promoted ==> forall i :: 0 <= i < |w.toBackup| ==> w.st.expected <= w.toBackup[i].serial)
    && (forall i, j :: 0 <= i < j < |w.toBackup| ==> w.toBackup[i].serial <= w.toBackup[j].serial)
    && (forall i :: 0 <= i < |w.toBackup| ==> w.toBackup[i].serial <= w.st.serial)
  }

  lemma WiredDeliver(w: Wired, m: Forward, lost: bool)
    requires WiredInv(w) && WiredEnabled(w, Deliver(m)) && Inv(Apply(w.st, Deliver(m)))
    ensures WiredInv(WiredApply(w, Deliver(m), lost))
  {
    hide Replay, Process, Inv;
    var w' := WiredApply(w, Deliver(m), lost);
    CountsNow(w.st);
    assert w.toBackup[0] in w.st.p2b;
    assert forall i :: 0 <= i < |w'.toBackup| ==> w'.toBackup[i] == w.toBackup[i + 1];
  }

  lemma WiredSend(w: Wired, lost: bool)
    requires WiredInv(w) && WiredEnabled(w, Send) && Inv(Apply(w.st, Send))
    ensures WiredInv(WiredApply(w, Send, lost))
  {
    hide Replay, Process, Inv;
    CountsNow(w.st);
  }

  lemma WiredNextInv(w: Wired, e: Event, lost: bool)
    requires WiredInv(w) && WiredEnabled(w, e)
    ensures WiredInv(WiredApply(w, e, lost))
    ensures Next(w.st, WiredApply(w, e, lost).st)
  {
    hide Inv, Process;
    CoreStep(w, e);
    NextInv(w.st, e);
    match e
    case Deliver(m) => WiredDeliver(w, m, lost);
    case Send => WiredSend(w, lost);
    case _ => WiredOther(w, e, lost);
  }

  lemma CoreStep(w: Wired, e: Event)
    requires WiredInv(w) && WiredEnabled(w, e)
    ensures Inv(w.st) && Next(w.st, Apply(w.st, e))
  {
    hide Inv, Apply;
  }

  lemma WiredOther(w: Wired, e: Event, lost: bool)
    requires WiredInv(w) && WiredEnabled(w, e) && !e.Deliver? && !e.Send? && Inv(Apply(w.st, e))
    ensures WiredInv(WiredApply(w, e, lost))
  {
    hide Replay, Process, Inv;
  }

  lemma CountsNow(st: State)
    requires Inv(st)
    ensures CountsOk(st)
  {
  }

  /** On channels that keep order the backup's assertion never fails, and the run is one of the runs
      above. */
  lemma {:induction false} AssertionHolds(run: seq<Wired>, k: nat)
    requires IsWiredRun(run) && k < |run|
    ensures WiredInv(run[k]) && !run[k].st.broken
    ensures IsRun(seq(k + 1, i requires 0 <= i <= k => run[i].st))
  {
    var core := seq(k + 1, i requires 0 <= i <= k => run[i].st);
    if k == 0 {
      StartInv();
    } else {
      AssertionHolds(run, k - 1);
      var before := seq(k, i requires 0 <= i <= k - 1 => run[i].st);
      assert WiredNext(run[k - 1], run[k - 1 + 1]);
      var e, lost :| WiredEnabled(run[k - 1], e) && run[k] == WiredApply(run[k - 1], e, lost);
      WiredNextInv(run[k - 1], e, lost);
      forall i | 0 <= i < |core| - 1 ensures Next(core[i], core[i + 1]) {
        if i < k - 1 { assert Next(before[i], before[i + 1]); }
      }
    }
  }
}
