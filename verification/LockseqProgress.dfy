/** What a lock-sequence client gets done when its requests get through. */
module LockseqProgress {
  import opened LockseqKeys
  import opened Pancydb
  import opened LockseqClient
  import opened LockseqSystem
  import opened LockseqProof
  import opened LockseqTheorem
  import opened LockseqContention

  /** Client `i` is about to send a new request of its round, and nothing of it is on its way. */
  ghost predicate Ready(st: State, i: nat, gid: nat, value: string, nvalues: nat) {
    && WellSized(st) && i < |st.clients| && st.queues[i] == []
    && var c := st.clients[i];
       && !c.dead && !c.waiting && c.phase != Idle && c.tries == 0 && st.past[i].execs == 0
       && c.gid == gid && c.value == value && c.nvalues == nvalues
  }

  /** The request of `c` has been sent, executed and answered. */
  ghost predicate Exchanged(st: State, st': State, i: nat, r: Response)
    requires WellSized(st) && i < |st.clients| && Servable(st.clients[i].op)
  {
    var c := st.clients[i];
    && WellSized(st') && |st'.clients| == |st.clients| && st'.queues == st.queues
    && r == Process(st.db, Render(c.op)).1
    && st'.groups == st.groups[c.op.gid := Observe(st.groups[c.op.gid], i, c.op, r)]
    && st'.clients == st.clients[i := OnReply(c.(waiting := true), r)]
    && (st'.clients[i].serial != c.serial ==> st'.past[i].execs == 0)
  }

  lemma Exchange(run: seq<State>, i: nat) returns (run': seq<State>, r: Response)
    requires |run| > 0 && IsRun(run) && WellSized(Last(run)) && i < |Last(run).clients| && Last(run).queues[i] == []
    requires var c := Last(run).clients[i]; !c.dead && !c.waiting && c.phase != Idle && Servable(c.op)
    ensures |run'| > 0 && IsRun(run') && run <= run' && Exchanged(Last(run), Last(run'), i, r)
  {
    hide IsRun, Process, Render, Observe, OnReply, Init;
    var st := Last(run);
    var c := st.clients[i];
    Longer(run, SendRequest(i, false));
    run' := run + [Apply(st, SendRequest(i, false))];
    assert st.queues[i] + [Envelope(c.serial, c.op)] == [Envelope(c.serial, c.op)];
    var st1 := Last(run');
    r := Process(st1.db, Render(c.op)).1;
    assert st1.queues[i][1..] == [];
    Longer(run', Serve(i));
    run' := run' + [Apply(st1, Serve(i))];
    var st2 := Last(run');
    assert st2.queues == st.queues;
    Longer(run', Answer(i, Reply(i, c.serial, r)));
    run' := run' + [Apply(st2, Answer(i, Reply(i, c.serial, r)))];
  }

  /** What the invariant says of a client about to send. */
  lemma Standing(run: seq<State>, i: nat)
    requires |run| > 0 && IsRun(run) && i < |Last(run).clients|
    ensures var st := Last(run);
            && WellSized(st) && DbMatches(st.db, st.groups) && |st.groups| == NGROUPS
            && ClientOk(st.db, st.groups, st.replies, i, st.clients[i], st.queues[i], st.past[i])
  {
    LockseqTheorem.RunInv(run, |run| - 1);
  }

  /** The lock is taken. */
  lemma Locks(run: seq<State>, i: nat, gid: nat, hex: string, nvalues: nat) returns (run': seq<State>)
    requires |run| > 0 && IsRun(run) && WellSized(Last(run)) && i < |Last(run).clients|
    requires Last(run).clients[i].phase == Idle && !Last(run).clients[i].dead && Last(run).queues[i] == []
    requires gid < NGROUPS && |hex| == 7 && 1 <= nvalues <= MAX_SEQUENCE && Last(run).groups[gid].hold.Free?
    ensures |run'| > 0 && IsRun(run') && run <= run' && Ready(Last(run'), i, gid, LockText(i, hex), nvalues)
    ensures Last(run').clients[i].phase == Writing && Last(run').clients[i].n == 0
  {
    hide IsRun, Process, Render, DbMatches, ClientOk, GroupMatches;
    var st := Last(run);
    Standing(run, i);
    IdleIs(st.db, st.groups, st.replies, i, st.clients[i], st.queues[i], st.past[i]);
    Longer(run, BeginRound(i, gid, hex, nvalues));
    run' := run + [Apply(st, BeginRound(i, gid, hex, nvalues))];
    var st1 := Last(run');
    OfGroup(st1.db, st1.groups, gid) by { Standing(run', i); }
    ServeLock(st1.db, gid, st1.groups[gid], i, LockText(i, hex));
    var r;
    run', r := Exchange(run', i);
  }

  lemma IdleIs(db: Db, groups: seq<Group>, replies: set<Reply>, i: nat, c: Client, q: seq<Envelope>, past: History)
    requires |groups| == NGROUPS && ClientOk(db, groups, replies, i, c, q, past)
    ensures c.id == i && (c.phase == Idle ==> !c.waiting)
  {
  }

  /** One value is written. */
  lemma Writes(run: seq<State>, i: nat, gid: nat, value: string, nvalues: nat) returns (run': seq<State>)
    requires |run| > 0 && IsRun(run) && Ready(Last(run), i, gid, value, nvalues) && Last(run).clients[i].phase == Writing
    ensures |run'| > 0 && IsRun(run') && run <= run' && Ready(Last(run'), i, gid, value, nvalues)
    ensures var n, c' := Last(run).clients[i].n, Last(run').clients[i];
            && n < nvalues
            && (if n + 1 < nvalues then c'.phase == Writing && c'.n == n + 1
                else if n + 1 < MAX_SEQUENCE then c'.phase == Clearing && c'.n == n + 1
                else c'.phase == Unlocking)
  {
    hide IsRun, Process, Render, DbMatches, GroupMatches, RepliesOk, QueueOk, HarmlessHere, Harmless;
    var st := Last(run);
    var c := st.clients[i];
    Standing(run, i);
    OfGroup(st.db, st.groups, gid);
    ServePut(st.db, gid, st.groups[gid], i, c.n);
    var r;
    run', r := Exchange(run, i);
  }

  lemma {:induction false} WritesAll(run: seq<State>, i: nat, gid: nat, value: string, nvalues: nat) returns (run': seq<State>)
    requires |run| > 0 && IsRun(run) && Ready(Last(run), i, gid, value, nvalues) && Last(run).clients[i].phase == Writing
    ensures |run'| > 0 && IsRun(run') && run <= run' && Ready(Last(run'), i, gid, value, nvalues)
    ensures Last(run').clients[i].phase == Clearing || Last(run').clients[i].phase == Unlocking
    decreases nvalues - Last(run).clients[i].n
  {
    hide IsRun;
    run' := Writes(run, i, gid, value, nvalues);
    if Last(run').clients[i].phase == Writing {
      run' := WritesAll(run', i, gid, value, nvalues);
    }
  }

  /** One value that may be left of the previous sequence is cleared. */
  lemma Clears(run: seq<State>, i: nat, gid: nat, value: string, nvalues: nat) returns (run': seq<State>)
    requires |run| > 0 && IsRun(run) && Ready(Last(run), i, gid, value, nvalues) && Last(run).clients[i].phase == Clearing
    ensures |run'| > 0 && IsRun(run') && run <= run' && Ready(Last(run'), i, gid, value, nvalues)
    ensures var n, c' := Last(run).clients[i].n, Last(run').clients[i];
            n < MAX_SEQUENCE && (c'.phase == Unlocking || (c'.phase == Clearing && c'.n == n + 1))
  {
    hide IsRun, Process, Render, DbMatches, GroupMatches, RepliesOk, QueueOk, HarmlessHere, Harmless;
    var st := Last(run);
    var c := st.clients[i];
    Standing(run, i);
    OfGroup(st.db, st.groups, gid);
    ServeDel(st.db, gid, st.groups[gid], i, c.n);
    var r;
    run', r := Exchange(run, i);
  }

  lemma {:induction false} ClearsAll(run: seq<State>, i: nat, gid: nat, value: string, nvalues: nat) returns (run': seq<State>)
    requires |run| > 0 && IsRun(run) && Ready(Last(run), i, gid, value, nvalues)
    requires Last(run).clients[i].phase == Clearing || Last(run).clients[i].phase == Unlocking
    ensures |run'| > 0 && IsRun(run') && run <= run' && Ready(Last(run'), i, gid, value, nvalues)
    ensures Last(run').clients[i].phase == Unlocking
    decreases if Last(run).clients[i].phase == Unlocking then 0 else 1 + MAX_SEQUENCE - Last(run).clients[i].n
  {
    hide IsRun;
    run' := run;
    if Last(run).clients[i].phase == Clearing {
      run' := Clears(run, i, gid, value, nvalues);
      run' := ClearsAll(run', i, gid, value, nvalues);
    }
  }

  /** The lock is given back, and the sequence stands. */
  lemma Unlocks(run: seq<State>, i: nat, gid: nat, value: string, nvalues: nat) returns (run': seq<State>)
    requires |run| > 0 && IsRun(run) && Ready(Last(run), i, gid, value, nvalues) && Last(run).clients[i].phase == Unlocking
    ensures |run'| > 0 && IsRun(run') && run <= run' && i < |Last(run').clients| && WellSized(Last(run'))
    ensures Last(run').clients[i].phase == Idle && !Last(run').clients[i].dead && gid < NGROUPS
    ensures Last(run').groups[gid] == Group(Free, 0, 0, "", nvalues, value)
  {
    hide IsRun, Process, Render, DbMatches, GroupMatches, RepliesOk, QueueOk, HarmlessHere, Harmless;
    var st := Last(run);
    var c := st.clients[i];
    Standing(run, i);
    OfGroup(st.db, st.groups, gid);
    LockVersionPositive(st.db, gid, st.groups[gid]);
    ServeUnlock(st.db, gid, st.groups[gid], i, c.lockVersion);
    var r;
    run', r := Exchange(run, i);
  }

  lemma LockVersionPositive(db: Db, gid: nat, gr: Group)
    requires gid < NGROUPS && Valid(db) && GroupMatches(db, gid, gr) && gr.hold.HeldBy?
    ensures gr.hold.version > 0
  {
  }

  /** The database holds the sequence: `nvalues` values, all `value`, and no lock. */
  ghost predicate Stands(db: Db, gid: nat, value: string, nvalues: nat) {
    && LockKey(gid) !in db.m
    && forall n :: 0 <= n < MAX_SEQUENCE ==>
         && (ValueKey(gid, n) in db.m <==> n < nvalues)
         && (n < nvalues ==> db.m[ValueKey(gid, n)].value == value)
  }

  /** A client that gets a free lock can complete its round, and the database then holds exactly the sequence
      it wrote, whatever the group held before: from every reachable state in which the client is idle with
      nothing on its way, for every group that is not locked, every length and every text. */
  lemma RoundCompletes(run: seq<State>, i: nat, gid: nat, hex: string, nvalues: nat) returns (run': seq<State>)
    requires |run| > 0 && IsRun(run) && i < |Last(run).clients| && WellSized(Last(run))
    requires Last(run).clients[i].phase == Idle && !Last(run).clients[i].dead && Last(run).queues[i] == []
    requires gid < NGROUPS && |hex| == 7 && 1 <= nvalues <= MAX_SEQUENCE && LockKey(gid) !in Last(run).db.m
    ensures |run'| > 0 && IsRun(run') && run <= run' && i < |Last(run').clients|
    ensures Last(run').clients[i].phase == Idle && !Last(run').clients[i].dead
    ensures Stands(Last(run').db, gid, LockText(i, hex), nvalues)
  {
    hide IsRun, ClientOk, DbMatches, Ready;
    Standing(run, i);
    OfGroup(Last(run).db, Last(run).groups, gid);
    run' := Locks(run, i, gid, hex, nvalues);
    run' := WritesAll(run', i, gid, LockText(i, hex), nvalues);
    run' := ClearsAll(run', i, gid, LockText(i, hex), nvalues);
    run' := Unlocks(run', i, gid, LockText(i, hex), nvalues);
    Standing(run', i);
    OfGroup(Last(run').db, Last(run').groups, gid);
  }

  /** Every answer to a put, a removal or an unlock, first or repeated, takes the client one request further.
      When it goes on to unlock exactly its own sequence is in the database, and while it is never in doubt
      about its removals it goes on only as long as the previous sequence lasts. */
  lemma AnswersAdvance(run: seq<State>, k: nat, e: Event)
    requires IsRun(run) && k < |run| && Enabled(run[k], e) && e.Answer?
    requires run[k].clients[e.i].phase in {Writing, Clearing, Unlocking}
    ensures var st, c, c' := run[k], run[k].clients[e.i], Apply(run[k], e).clients[e.i];
            && !c'.dead && c.gid < NGROUPS
            && (c'.phase == Idle <==> c.phase == Unlocking) && (c'.phase != Idle ==> c'.serial == c.serial + 1)
            && (c'.phase == Writing <==> c.phase == Writing && c.n + 1 < c.nvalues)
            && (c'.phase == Writing || c'.phase == Clearing ==> c'.n == c.n + 1)
            && (c.phase == Clearing && c'.phase == Clearing && c.tries == 0 ==> c.n < st.groups[c.gid].m)
            && (c'.phase == Unlocking ==>
                  forall n :: 0 <= n < MAX_SEQUENCE ==>
                    && (ValueKey(c.gid, n) in st.db.m <==> n < c.nvalues)
                    && (n < c.nvalues ==> st.db.m[ValueKey(c.gid, n)].value == c.value))
  {
    hide Inv, IsRun, ClientOk;
    var st, i, c, r := run[k], e.i, run[k].clients[e.i], e.r.body;
    var st' := Apply(st, e);
    LockseqTheorem.RunInv(run, k);
    AnswerInv(st, e);
    AnswerMeans(st, i, r);
    UnlocksOwn(st', i);
  }

  lemma AnswerMeans(st: State, i: nat, r: Response)
    requires Inv(st) && i < |st.clients| && st.clients[i].phase in {Writing, Clearing, Unlocking} && st.clients[i].waiting
    requires Reply(i, st.clients[i].serial, r) in st.replies
    ensures var c := st.clients[i];
            && c.gid < NGROUPS && (c.phase == Writing ==> r.errc == Ok && c.n < c.nvalues <= MAX_SEQUENCE)
            && (c.phase == Clearing ==> r.errc != NoMatch && c.n < MAX_SEQUENCE)
            && (c.phase == Clearing && r.errc == Ok ==> c.n < st.groups[c.gid].m)
            && (c.phase == Clearing && r.errc == NotFound && st.past[i].execs == 1 ==> st.groups[c.gid].m <= c.n)
            && (c.phase == Unlocking && c.tries == 0 ==> r.errc == Ok)
  {
    var c := st.clients[i];
    assert ClientOk(st.db, st.groups, st.replies, i, c, st.queues[i], st.past[i]);
    assert ReplyOk(st.groups, i, c, st.past[i].execs, r);
  }

  lemma UnlocksOwn(st: State, i: nat)
    requires Inv(st) && i < |st.clients| && (st.clients[i].phase == Unlocking ==> st.past[i].execs == 0)
    ensures var c := st.clients[i];
            && c.gid < NGROUPS
            && (c.phase == Unlocking ==>
                  forall n :: 0 <= n < MAX_SEQUENCE ==>
                    && (ValueKey(c.gid, n) in st.db.m <==> n < c.nvalues)
                    && (n < c.nvalues ==> st.db.m[ValueKey(c.gid, n)].value == c.value))
  {
    var c := st.clients[i];
    assert ClientOk(st.db, st.groups, st.replies, i, c, st.queues[i], st.past[i]);
    OfGroup(st.db, st.groups, c.gid);
  }
}
