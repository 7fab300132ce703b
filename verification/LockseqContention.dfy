/** What contention for a lock does to a lock-sequence client. */
module LockseqContention {
  import opened LockseqKeys
  import opened Pancydb
  import opened LockseqClient
  import opened LockseqSystem
  import opened LockseqProof
  import opened LockseqTheorem

  ghost function Last(run: seq<State>): State
    requires |run| > 0
  {
    run[|run| - 1]
  }

  lemma Longer(run: seq<State>, e: Event)
    requires IsRun(run) && Enabled(Last(run), e)
    ensures IsRun(run + [Apply(Last(run), e)]) && Last(run + [Apply(Last(run), e)]) == Apply(Last(run), e)
  {
    hide Apply, Enabled, Init;
    var run' := run + [Apply(Last(run), e)];
    forall k | 0 <= k < |run'| - 1 ensures Next(run'[k], run'[k + 1]) {
      if k < |run| - 1 { assert Next(run[k], run[k + 1]); }
    }
  }

  function LockText(i: nat, hex: string): string { ClientKey(i) + " " + hex }

  /** Client `i` has asked for the lock of `gid` for the first time, and everything else is as it was. */
  ghost predicate HasAsked(st: State, st': State, i: nat, gid: nat, hex: string) {
    && i < |st.clients| == |st.queues|
    && st'.clients == st.clients[i := Begin(InitClient(i), gid, hex, 1).(waiting := true)]
    && st'.queues == st.queues[i := [Envelope(1, LockOp(gid, LockText(i, hex)))]]
    && st'.db == st.db && st'.groups == st.groups
  }

  lemma Asks(run: seq<State>, i: nat, gid: nat, hex: string) returns (run': seq<State>)
    requires |run| > 0 && IsRun(run) && i < |Last(run).clients| == |Last(run).queues| && WellSized(Last(run))
    requires Last(run).clients[i] == InitClient(i) && Last(run).queues[i] == [] && gid < NGROUPS && |hex| == 7
    ensures |run'| > 0 && IsRun(run') && run'[0] == run[0] && HasAsked(Last(run), Last(run'), i, gid, hex)
    ensures WellSized(Last(run'))
  {
    hide IsRun;
    var st := Last(run);
    Longer(run, BeginRound(i, gid, hex, 1));
    run' := run + [Apply(st, BeginRound(i, gid, hex, 1))];
    var st1 := Last(run');
    Longer(run', SendRequest(i, false));
    run' := run' + [Apply(st1, SendRequest(i, false))];
    assert [] + [Envelope(1, LockOp(gid, LockText(i, hex)))] == [Envelope(1, LockOp(gid, LockText(i, hex)))];
  }

  /** A lock request is executed: it gets a free lock, and otherwise is told who has it. */
  lemma ServedLock(run: seq<State>, i: nat, gid: nat, hex: string) returns (run': seq<State>)
    requires |run| > 0 && IsRun(run) && i < |Last(run).clients| == |Last(run).queues| && WellSized(Last(run))
    requires gid < NGROUPS && |hex| == 7 && Last(run).queues[i] == [Envelope(1, LockOp(gid, LockText(i, hex)))]
    ensures |run'| > 0 && IsRun(run') && run'[0] == run[0] && WellSized(Last(run'))
    ensures var st, st' := Last(run), Last(run');
            && st'.clients == st.clients && st'.queues == st.queues[i := []]
            && (st.groups[gid].hold.Free? ==> st'.groups[gid].hold.HeldBy? && st'.groups[gid].v == LockText(i, hex))
            && (st.groups[gid].hold.HeldBy? ==>
                  exists r :: Reply(i, 1, r) in st'.replies && r.errc == NoMatch && r.text == st.groups[gid].v)
  {
    hide IsRun, Process, Render, DbMatches, ClientsOk, GroupMatches;
    var st := Last(run);
    assert st.queues[i][1..] == [];
    LockseqTheorem.RunInv(run, |run| - 1);
    OfGroup(st.db, st.groups, gid);
    ServeLock(st.db, gid, st.groups[gid], i, LockText(i, hex));
    Longer(run, Serve(i));
    run' := run + [Apply(st, Serve(i))];
    var (db, r) := Process(st.db, Render(LockOp(gid, LockText(i, hex))));
    assert Reply(i, 1, r) in Last(run').replies;
  }

  /** From every initial state with two clients or more, a run in which two of them ask for the same lock
      and the second, which the lock is not free for, throws. */
  lemma LoserThrows(start: State, gid: nat, hex: string, hex': string) returns (run: seq<State>)
    requires Init(start) && |start.clients| >= 2 && gid < NGROUPS && |hex| == |hex'| == 7
    ensures |run| > 0 && IsRun(run) && run[0] == start && |Last(run).clients| >= 2 && Last(run).clients[1].dead
  {
    hide Process, Render, Inv;
    run := [start];
    assert IsRun(run);
    run := Asks(run, 0, gid, hex);
    run := ServedLock(run, 0, gid, hex);
    run := Asks(run, 1, gid, hex');
    run := ServedLock(run, 1, gid, hex');
    var st := Last(run);
    var r :| Reply(1, 1, r) in st.replies && r.errc == NoMatch && r.text == LockText(0, hex);
    Longer(run, Answer(1, Reply(1, 1, r)));
    NotMine(hex);
    run := run + [Apply(st, Answer(1, Reply(1, 1, r)))];
  }

  lemma NotMine(hex: string)
    ensures !(ClientKey(1) + " " <= LockText(0, hex))
  {
    if ClientKey(1) + " " <= LockText(0, hex) {
      var rest := LockText(0, hex)[|ClientKey(1) + " "|..];
      assert LockText(0, hex) == ClientKey(1) + " " + rest;
      ClientPrefix(0, 1, hex, rest);
    }
  }
}
