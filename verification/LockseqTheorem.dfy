/** Executing requests keeps the invariant, and every reachable database passes `check`. */
module LockseqTheorem {
  import opened Options
  import opened Strings
  import opened LockseqKeys
  import opened Pancydb
  import opened LockseqCheck
  import opened LockseqClient
  import opened LockseqSystem
  import opened LockseqProof

  /** What executing one request of client `i` on group `g` may do to database and history. */
  ghost predicate Effect(db: Db, groups: seq<Group>, db': Db, groups': seq<Group>, i: nat, g: nat)
    requires |groups| == |groups'| == NGROUPS && g < NGROUPS
  {
    && db'.next >= db.next
    && (forall g': nat, v :: g' < NGROUPS && Gone(db, g', v) ==> Gone(db', g', v))
    && (forall g' :: 0 <= g' < NGROUPS && g' != g ==> groups'[g'] == groups[g'])
    && (groups'[g] == groups[g]
        || ((groups[g].hold.Free? || groups[g].hold.client == i) && (groups'[g].hold.Free? || groups'[g].hold.client == i)))
  }

  lemma HarmlessStays(db: Db, groups: seq<Group>, db': Db, groups': seq<Group>, i: nat, g: nat, op: Op)
    requires |groups| == |groups'| == NGROUPS && g < NGROUPS && Effect(db, groups, db', groups', i, g)
    requires Harmless(db, groups, op) && (op.UnlockOp? || groups'[op.gid] == groups[op.gid])
    ensures Harmless(db', groups', op)
  {
  }

  lemma OtherPhase(db: Db, groups: seq<Group>, db': Db, groups': seq<Group>, i: nat, g: nat,
                   j: nat, c: Client, past: History)
    requires |groups| == |groups'| == NGROUPS && g < NGROUPS && Effect(db, groups, db', groups', i, g) && j != i
    requires HoldsOnly(groups, j, c) && PhaseOk(db, groups, j, c, past.execs, past.previous)
    ensures HoldsOnly(groups', j, c) && PhaseOk(db', groups', j, c, past.execs, past.previous)
    ensures Holds(groups, j, c.gid) ==> groups'[c.gid] == groups[c.gid]
  {
    assert Holds(groups, j, c.gid) ==> groups'[c.gid] == groups[c.gid];
    forall g' | 0 <= g' < NGROUPS ensures Holds(groups', j, g') <==> Holds(groups, j, g') {}
    match c.phase
    case Idle => HarmlessStays(db, groups, db', groups', i, g, c.op);
    case Unlocking =>
      HarmlessStays(db, groups, db', groups', i, g, if past.execs == 0 then past.previous else c.op);
    case _ => HarmlessStays(db, groups, db', groups', i, g, past.previous);
  }

  /** Other clients do not notice. */
  lemma OtherClient(db: Db, groups: seq<Group>, db': Db, groups': seq<Group>, i: nat, g: nat,
                    replies: set<Reply>, r: Reply, j: nat, c: Client, q: seq<Envelope>, past: History)
    requires |groups| == |groups'| == NGROUPS && g < NGROUPS && Effect(db, groups, db', groups', i, g)
    requires j != i && r.client == i && ClientOk(db, groups, replies, j, c, q, past)
    ensures ClientOk(db', groups', replies + {r}, j, c, q, past)
  {
    OtherPhase(db, groups, db', groups', i, g, j, c, past);
    forall s | s in replies && s.client == j && s.serial == c.serial && c.phase != Idle
      ensures ReplyOk(groups', j, c, past.execs, s.body)
    {
      assert ReplyOk(groups, j, c, past.execs, s.body);
    }
  }

  /** The database key a request is about. */
  function KeyFor(op: Op): string
    requires Servable(op)
  {
    Render(op).key
  }

  lemma OneKey(db: Db, op: Op)
    requires Servable(op)
    ensures var db' := Process(db, Render(op)).0;
            forall k :: k != KeyFor(op) ==> (k in db'.m <==> k in db.m) && (k in db.m ==> db'.m[k] == db.m[k])
  {
  }

  lemma ForeignKey(op: Op, g: nat)
    requires Servable(op) && g < NGROUPS && g != op.gid
    ensures KeyFor(op) != LockKey(g) && forall n :: 0 <= n < MAX_SEQUENCE ==> KeyFor(op) != ValueKey(g, n)
  {
    DistinctKeys();
  }

  lemma OtherGroups(db: Db, groups: seq<Group>, op: Op, gr: Group)
    requires DbMatches(db, groups) && Servable(op)
    requires GroupMatches(Process(db, Render(op)).0, op.gid, gr)
    ensures DbMatches(Process(db, Render(op)).0, groups[op.gid := gr])
  {
    hide Process, Valid, GroupMatches, Render, Known;
    var db' := Process(db, Render(op)).0;
    ProcessValid(db, Render(op));
    OneKey(db, op);
    forall g | 0 <= g < NGROUPS && g != op.gid ensures GroupMatches(db', g, groups[g]) {
      ForeignKey(op, g);
      FrameGroup(db, db', KeyFor(op), g, groups[g]);
    }
    KnownKey(op);
  }

  lemma KnownKey(op: Op)
    requires Servable(op)
    ensures Known(KeyFor(op))
  {
    assert KeyIn(KeyFor(op), op.gid);
  }

  lemma LocksStay(db: Db, op: Op, g: nat, v: int)
    requires Valid(db) && Servable(op) && g < NGROUPS && Gone(db, g, v)
    ensures Gone(Process(db, Render(op)).0, g, v)
  {
  }

  /** A leftover, or a repetition after the work is done: nothing changes but, for a put, a version. */
  lemma ServeHarmless(db: Db, groups: seq<Group>, i: nat, op: Op)
    requires DbMatches(db, groups) && Harmless(db, groups, op)
    ensures var (db', r) := Process(db, Render(op));
            && Observe(groups[op.gid], i, op, r) == groups[op.gid]
            && DbMatches(db', groups)
            && Effect(db, groups, db', groups, i, op.gid)
  {
    var gr := groups[op.gid];
    var (db', r) := Process(db, Render(op));
    assert GroupMatches(db, op.gid, gr);
    match op {
      case LockOp(g, value) => assert db.m[LockKey(g)].value != "";
      case PutOp(g, n, v) => ServePut(db, g, gr, i, n);
      case DelOp(g, n) => ServeDel(db, g, gr, i, n);
      case UnlockOp(g, version) => ServeUnlock(db, g, gr, i, version);
    }
    assert GroupMatches(db', op.gid, gr);
    OtherGroups(db, groups, op, gr);
    assert groups[op.gid := gr] == groups;
    ProcessValid(db, Render(op));
    forall g': nat, v | g' < NGROUPS && Gone(db, g', v) ensures Gone(db', g', v) { LocksStay(db, op, g', v); }
  }

  /** The current request of a client has been executed, for the first time or again. */
  ghost predicate Served(db: Db, groups: seq<Group>, i: nat, c: Client, execs: nat, previous: Op)
    requires |groups| == NGROUPS && Servable(c.op) && c.gid < NGROUPS
  {
    var (db', r) := Process(db, Render(c.op));
    var groups' := groups[c.op.gid := Observe(groups[c.op.gid], i, c.op, r)];
    && DbMatches(db', groups')
    && Effect(db, groups, db', groups', i, c.op.gid)
    && HoldsOnly(groups', i, c)
    && PhaseOk(db', groups', i, c, execs + 1, previous)
    && (c.phase == Clearing ==> groups'[c.gid].m == groups[c.gid].m
                                && (r.errc == NotFound && execs == 0 ==> groups[c.gid].m <= c.n))
    && (c.phase == Writing ==> r.errc == Ok)
    && (c.phase == Clearing ==> r.errc != NoMatch && (r.errc == Ok ==> c.n < groups[c.gid].m))
    && (c.phase == Unlocking && execs == 0 ==> r.errc == Ok)
    && (c.phase == Locking && r.errc == Ok ==>
          groups[c.gid].hold.Free? && groups'[c.gid].hold == HeldBy(i, r.version))
    && (c.phase == Locking && r.errc != Ok ==>
          && r.errc == NoMatch && groups' == groups && groups[c.gid].hold.HeldBy?
          && r.text == groups[c.gid].v && r.version == groups[c.gid].hold.version)
  }

  /** What the four kinds of request have in common. */
  lemma Executed(db: Db, groups: seq<Group>, i: nat, op: Op)
    requires DbMatches(db, groups) && Servable(op)
    requires var (db', r) := Process(db, Render(op));
             var gr' := Observe(groups[op.gid], i, op, r);
             && GroupMatches(db', op.gid, gr')
             && (gr' == groups[op.gid] || ((groups[op.gid].hold.Free? || groups[op.gid].hold.client == i)
                                            && (gr'.hold.Free? || gr'.hold.client == i)))
    ensures var (db', r) := Process(db, Render(op));
            var groups' := groups[op.gid := Observe(groups[op.gid], i, op, r)];
            DbMatches(db', groups') && Effect(db, groups, db', groups', i, op.gid)
  {
    var (db', r) := Process(db, Render(op));
    OtherGroups(db, groups, op, Observe(groups[op.gid], i, op, r));
    ProcessValid(db, Render(op));
    forall g: nat, v | g < NGROUPS && Gone(db, g, v) ensures Gone(db', g, v) { LocksStay(db, op, g, v); }
  }

  lemma HoldsStill(groups: seq<Group>, i: nat, c: Client, gr: Group)
    requires |groups| == NGROUPS && HoldsOnly(groups, i, c) && c.phase != Idle
    requires gr.hold.HeldBy? && gr.hold.client == i ==> gr.v == c.value
    ensures HoldsOnly(groups[c.gid := gr], i, c)
  {
    var groups' := groups[c.gid := gr];
    forall g | 0 <= g < NGROUPS && Holds(groups', i, g) ensures g == c.gid {
      if g != c.gid { assert Holds(groups, i, g); }
    }
  }

  lemma ServeRepeat(db: Db, groups: seq<Group>, i: nat, c: Client, execs: nat, previous: Op)
    requires DbMatches(db, groups) && HoldsOnly(groups, i, c) && PhaseOk(db, groups, i, c, execs, previous)
    requires c.phase == Idle || (c.phase == Unlocking && execs > 0)
    ensures c.gid < NGROUPS && Servable(c.op) && Served(db, groups, i, c, execs, previous)
  {
    hide DbMatches;
    ServeHarmless(db, groups, i, c.op);
    assert groups[c.op.gid := groups[c.op.gid]] == groups;
    HarmlessStays(db, groups, Process(db, Render(c.op)).0, groups, i, c.op.gid, c.op);
  }

  lemma OfGroup(db: Db, groups: seq<Group>, g: nat)
    requires DbMatches(db, groups) && g < NGROUPS
    ensures Valid(db) && |groups| == NGROUPS && GroupMatches(db, g, groups[g])
  {
  }

  lemma ServeLocking(db: Db, groups: seq<Group>, i: nat, c: Client, execs: nat, previous: Op)
    requires DbMatches(db, groups) && HoldsOnly(groups, i, c) && PhaseOk(db, groups, i, c, execs, previous)
    requires FormOk(i, c) && c.phase == Locking
    ensures c.gid < NGROUPS && Servable(c.op) && Served(db, groups, i, c, execs, previous)
  {
    hide DbMatches, GroupMatches, Render, Process, Gone, LockWord;
    OfGroup(db, groups, c.gid);
    var g, op, gr := c.gid, c.op, groups[c.gid];
    ValueIsLockWord(i, c);
    ServeLock(db, g, gr, i, c.value);
    var (db', r) := Process(db, Render(op));
    var groups' := groups[g := Observe(gr, i, op, r)];
    Executed(db, groups, i, op);
    StillHarmless(db, groups, db', groups', i, c, execs, previous);
    HoldsStill(groups, i, c, groups'[g]);
  }

  lemma ServeWriting(db: Db, groups: seq<Group>, i: nat, c: Client, execs: nat, previous: Op)
    requires DbMatches(db, groups) && HoldsOnly(groups, i, c) && PhaseOk(db, groups, i, c, execs, previous)
    requires FormOk(i, c) && c.phase == Writing
    ensures c.gid < NGROUPS && Servable(c.op) && Served(db, groups, i, c, execs, previous)
  {
    hide DbMatches, GroupMatches, Render, Process, Gone, LockWord;
    OfGroup(db, groups, c.gid);
    var g, op, gr := c.gid, c.op, groups[c.gid];
    ServePut(db, g, gr, i, c.n);
    var (db', r) := Process(db, Render(op));
    var groups' := groups[g := Observe(gr, i, op, r)];
    Executed(db, groups, i, op);
    StillHarmless(db, groups, db', groups', i, c, execs, previous);
    HoldsStill(groups, i, c, groups'[g]);
  }

  lemma ServeClearing(db: Db, groups: seq<Group>, i: nat, c: Client, execs: nat, previous: Op)
    requires DbMatches(db, groups) && HoldsOnly(groups, i, c) && PhaseOk(db, groups, i, c, execs, previous)
    requires FormOk(i, c) && c.phase == Clearing
    ensures c.gid < NGROUPS && Servable(c.op) && Served(db, groups, i, c, execs, previous)
  {
    hide DbMatches, GroupMatches, Render, Process, Gone, LockWord;
    OfGroup(db, groups, c.gid);
    var g, op, gr := c.gid, c.op, groups[c.gid];
    ServeDel(db, g, gr, i, c.n);
    var (db', r) := Process(db, Render(op));
    var groups' := groups[g := Observe(gr, i, op, r)];
    Executed(db, groups, i, op);
    StillHarmless(db, groups, db', groups', i, c, execs, previous);
    HoldsStill(groups, i, c, groups'[g]);
  }

  lemma ServeUnlocking(db: Db, groups: seq<Group>, i: nat, c: Client, execs: nat, previous: Op)
    requires DbMatches(db, groups) && HoldsOnly(groups, i, c) && PhaseOk(db, groups, i, c, execs, previous)
    requires c.phase == Unlocking && execs == 0
    ensures c.gid < NGROUPS && Servable(c.op) && Served(db, groups, i, c, execs, previous)
  {
    var g, op, gr := c.gid, c.op, groups[c.gid];
    assert GroupMatches(db, g, gr);
    assert db.m[LockKey(g)].version > 0;
    ServeUnlock(db, g, gr, i, c.lockVersion);
    assert Gone(Process(db, Render(op)).0, g, c.lockVersion);
    hide DbMatches, GroupMatches, Render, Process, Gone;
    var (db', r) := Process(db, Render(op));
    Executed(db, groups, i, op);
    HoldsStill(groups, i, c, Observe(gr, i, op, r));
  }

  lemma ServeCurrent(db: Db, groups: seq<Group>, i: nat, c: Client, execs: nat, previous: Op)
    requires DbMatches(db, groups) && HoldsOnly(groups, i, c) && PhaseOk(db, groups, i, c, execs, previous)
    requires FormOk(i, c)
    ensures c.gid < NGROUPS && Servable(c.op) && Served(db, groups, i, c, execs, previous)
  {
    hide DbMatches, PhaseOk, HoldsOnly, Served, FormOk;
    match c.phase
    case Idle => ServeRepeat(db, groups, i, c, execs, previous);
    case Locking => ServeLocking(db, groups, i, c, execs, previous);
    case Writing => ServeWriting(db, groups, i, c, execs, previous);
    case Clearing => ServeClearing(db, groups, i, c, execs, previous);
    case Unlocking =>
      if execs > 0 {
        ServeRepeat(db, groups, i, c, execs, previous);
      } else {
        ServeUnlocking(db, groups, i, c, execs, previous);
      }
  }

  lemma ValueIsLockWord(i: nat, c: Client)
    requires FormOk(i, c) && c.phase != Idle
    ensures LockWord(c.value)
  {
    var hex :| |hex| == 7 && c.value == ClientKey(i) + " " + hex;
  }

  lemma StillHarmless(db: Db, groups: seq<Group>, db': Db, groups': seq<Group>, i: nat, c: Client, execs: nat, previous: Op)
    requires |groups| == |groups'| == NGROUPS && c.gid < NGROUPS && Effect(db, groups, db', groups', i, c.gid)
    requires PhaseOk(db, groups, i, c, execs, previous) && c.phase in {Locking, Writing, Clearing}
    requires c.phase != Locking ==>
               && groups'[c.gid].hold == groups[c.gid].hold && groups'[c.gid].v == groups[c.gid].v
               && groups'[c.gid].b >= groups[c.gid].b && groups'[c.gid].a >= groups[c.gid].a
               && (c.phase == Clearing ==> groups'[c.gid].a == groups[c.gid].a)
    ensures Harmless(db', groups', previous)
  {
  }

  // ---- the event ----

  /** Whoever's value is in the lock holds it. */
  lemma OwnValueMeansOwnLock(st: State, i: nat)
    requires Inv(st) && i < |st.clients|
    requires st.clients[i].phase != Idle && st.clients[i].gid < NGROUPS
    requires st.groups[st.clients[i].gid].hold.HeldBy? && st.groups[st.clients[i].gid].v == st.clients[i].value
    ensures st.groups[st.clients[i].gid].hold.client == i
  {
    var c := st.clients[i];
    var j := st.groups[c.gid].hold.client;
    var d := st.clients[j];
    assert ClientOk(st.db, st.groups, st.replies, i, c, st.queues[i], st.past[i]);
    assert ClientOk(st.db, st.groups, st.replies, j, d, st.queues[j], st.past[j]);
    assert Holds(st.groups, j, c.gid);
    var x :| |x| == 7 && c.value == ClientKey(i) + " " + x;
    var y :| |y| == 7 && d.value == ClientKey(j) + " " + y;
    ClientPrefix(i, j, x, y);
  }

  lemma MineAfterServed(db: Db, groups: seq<Group>, i: nat, c: Client, execs: nat, previous: Op)
    requires |groups| == NGROUPS && c.gid < NGROUPS && PhaseOk(db, groups, i, c, execs, previous)
    requires c.phase == Locking && groups[c.gid].hold.HeldBy? && groups[c.gid].hold.client == i
    ensures execs > 0
  {
  }

  /** A lock that is held has the value of its holder. */
  lemma HeldText(st: State, g: nat)
    requires Inv(st) && g < NGROUPS && st.groups[g].hold.HeldBy?
    ensures SomebodysLock(st.groups[g].v)
  {
    var j := st.groups[g].hold.client;
    var d := st.clients[j];
    assert ClientOk(st.db, st.groups, st.replies, j, d, st.queues[j], st.past[j]);
    assert Holds(st.groups, j, g);
    var hex :| |hex| == 7 && d.value == ClientKey(j) + " " + hex;
    assert IsLockText(st.groups[g].v, j, hex);
  }

  /** The head of the queue is executed: what is left of it. */
  lemma QueueServed(c: Client, q: seq<Envelope>, past: History)
    requires QueueOk(c, q, past) && q != []
    ensures q[0].serial == c.serial ==> QueueOk(c, q[1..], past.(execs := past.execs + 1))
    ensures q[0].serial != c.serial ==> QueueOk(c, q[1..], past)
  {
    assert forall k :: 0 <= k < |q[1..]| ==> q[1..][k] == q[k + 1];
  }

  /** The client's current request is executed. */
  lemma ServedAsked(st: State, i: nat)
    requires Inv(st) && Enabled(st, Serve(i)) && st.queues[i][0].serial == st.clients[i].serial
    ensures var st' := Apply(st, Serve(i));
            && DbMatches(st'.db, st'.groups)
            && Effect(st.db, st.groups, st'.db, st'.groups, i, st.queues[i][0].op.gid)
            && ClientOk(st'.db, st'.groups, st'.replies, i, st.clients[i], st'.queues[i], st'.past[i])
  {
    hide DbMatches, PhaseOk, HoldsOnly, Effect, FormOk, QueueOk, Process, Render, RepliesOk, Observe;
    var st', c, q, past := Apply(st, Serve(i)), st.clients[i], st.queues[i], st.past[i];
    assert ClientOk(st.db, st.groups, st.replies, i, c, q, past);
    QueueServed(c, q, past);
    var r := Process(st.db, Render(q[0].op)).1;
    assert q[0].op == c.op by { FirstOfQueue(c, q, past); }
    ServeCurrent(st.db, st.groups, i, c, past.execs, past.previous);
    SameGroup(st.db, st.groups, i, c, past.execs, past.previous);
    if c.phase == Locking && r.errc != Ok {
      HeldText(st, c.gid);
      if r.text == c.value {
        OwnValueMeansOwnLock(st, i);
        MineAfterServed(st.db, st.groups, i, c, past.execs, past.previous);
      }
    }
    RepliesServed(st.groups, st'.groups, st.replies, i, c, past.execs, r);
  }

  lemma FirstOfQueue(c: Client, q: seq<Envelope>, past: History)
    requires QueueOk(c, q, past) && q != []
    ensures q[0].serial == c.serial ==> q[0].op == c.op
    ensures q[0].serial != c.serial ==>
              q[0].serial + 1 == c.serial && q[0].op == past.previous && past.execs == 0 && c.phase != Idle
  {
  }

  lemma SameGroup(db: Db, groups: seq<Group>, i: nat, c: Client, execs: nat, previous: Op)
    requires |groups| == NGROUPS && HoldsOnly(groups, i, c) && PhaseOk(db, groups, i, c, execs, previous)
    ensures c.phase != Idle ==> c.op.gid == c.gid
  {
  }

  /** A request left over from before is executed. */
  lemma ServedLeftover(st: State, i: nat)
    requires Inv(st) && Enabled(st, Serve(i)) && st.queues[i][0].serial != st.clients[i].serial
    ensures var st' := Apply(st, Serve(i));
            && DbMatches(st'.db, st'.groups)
            && Effect(st.db, st.groups, st'.db, st'.groups, i, st.queues[i][0].op.gid)
            && ClientOk(st'.db, st'.groups, st'.replies, i, st.clients[i], st'.queues[i], st'.past[i])
  {
    hide DbMatches, HoldsOnly, Effect, FormOk, QueueOk, Process, Render, Observe, Harmless;
    var st', c, q, past := Apply(st, Serve(i)), st.clients[i], st.queues[i], st.past[i];
    assert ClientOk(st.db, st.groups, st.replies, i, c, q, past);
    QueueServed(c, q, past);
    FirstOfQueue(c, q, past);
    assert Harmless(st.db, st.groups, q[0].op);
    ServeHarmless(st.db, st.groups, i, q[0].op);
    assert st.groups[q[0].op.gid := st.groups[q[0].op.gid]] == st.groups;
    LeftoverServed(st.db, st.groups, st'.db, i, c, past, q[0].op);
  }

  /** The client whose request it was. */
  lemma ServedClient(st: State, i: nat)
    requires Inv(st) && Enabled(st, Serve(i))
    ensures var st' := Apply(st, Serve(i));
            && DbMatches(st'.db, st'.groups)
            && Effect(st.db, st.groups, st'.db, st'.groups, i, st.queues[i][0].op.gid)
            && ClientOk(st'.db, st'.groups, st'.replies, i, st.clients[i], st'.queues[i], st'.past[i])
  {
    hide DbMatches, ClientOk, Effect, Process, Inv;
    if st.queues[i][0].serial == st.clients[i].serial {
      ServedAsked(st, i);
    } else {
      ServedLeftover(st, i);
    }
  }

  lemma RepliesServed(groups: seq<Group>, groups': seq<Group>, replies: set<Reply>, i: nat, c: Client,
                      execs: nat, r: Response)
    requires |groups| == |groups'| == NGROUPS && c.gid < NGROUPS && RepliesOk(groups, replies, i, c, execs)
    requires c.phase == Clearing ==> groups'[c.gid].m == groups[c.gid].m
                                     && (r.errc == NotFound && execs == 0 ==> groups[c.gid].m <= c.n)
    requires c.phase == Writing ==> r.errc == Ok
    requires c.phase == Clearing ==> r.errc != NoMatch && (r.errc == Ok ==> c.n < groups[c.gid].m)
    requires c.phase == Unlocking && execs == 0 ==> r.errc == Ok
    requires c.phase == Locking && r.errc == Ok ==>
               groups[c.gid].hold.Free? && groups'[c.gid].hold == HeldBy(i, r.version)
    requires c.phase == Locking && r.errc != Ok ==>
               && r.errc == NoMatch && groups' == groups && SomebodysLock(r.text)
               && (r.text == c.value ==> groups[c.gid].hold == HeldBy(i, r.version) && execs >= 1)
    ensures RepliesOk(groups', replies + {Reply(i, c.serial, r)}, i, c, execs + 1)
  {
    forall s | s in replies + {Reply(i, c.serial, r)} && s.client == i && s.serial == c.serial && c.phase != Idle
      ensures ReplyOk(groups', i, c, execs + 1, s.body)
    {
      if s in replies { assert ReplyOk(groups, i, c, execs, s.body); }
    }
  }

  lemma LeftoverServed(db: Db, groups: seq<Group>, db': Db, i: nat, c: Client, past: History, op: Op)
    requires |groups| == NGROUPS && op.gid < NGROUPS && HoldsOnly(groups, i, c)
    requires Effect(db, groups, db', groups, i, op.gid) && PhaseOk(db, groups, i, c, past.execs, past.previous)
    ensures PhaseOk(db', groups, i, c, past.execs, past.previous)
  {
    match c.phase
    case Idle => HarmlessStays(db, groups, db', groups, i, op.gid, c.op);
    case Unlocking =>
      HarmlessStays(db, groups, db', groups, i, op.gid, if past.execs == 0 then past.previous else c.op);
    case _ => HarmlessStays(db, groups, db', groups, i, op.gid, past.previous);
  }

  lemma ServeInv(st: State, i: nat)
    requires Inv(st) && Enabled(st, Serve(i))
    ensures Inv(Apply(st, Serve(i)))
  {
    var st', g, q := Apply(st, Serve(i)), st.queues[i][0].op.gid, st.queues[i][0];
    ServedClient(st, i);
    hide DbMatches, ClientOk, Process, Render, Observe;
    forall j | 0 <= j < |st.clients|
      ensures ClientOk(st'.db, st'.groups, st'.replies, j, st'.clients[j], st'.queues[j], st'.past[j])
    {
      if j != i {
        var r := Process(st.db, Render(q.op)).1;
        OtherClient(st.db, st.groups, st'.db, st'.groups, i, g, st.replies, Reply(i, q.serial, r), j,
                    st.clients[j], st.queues[j], st.past[j]);
      }
    }
  }

  /** The server can always execute what is on its way. */
  lemma NeverStuck(st: State, i: nat)
    requires Inv(st) && i < |st.clients| && st.queues[i] != []
    ensures Enabled(st, Serve(i))
  {
    var c, q, past := st.clients[i], st.queues[i], st.past[i];
    assert ClientOk(st.db, st.groups, st.replies, i, c, q, past);
    if q[0].serial == c.serial {
      ServeCurrent(st.db, st.groups, i, c, past.execs, past.previous);
    }
  }

  lemma NextInv(st: State, st': State)
    requires Inv(st) && Next(st, st')
    ensures Inv(st')
  {
    hide Inv;
    var e :| Enabled(st, e) && st' == Apply(st, e);
    match e
    case BeginRound(_, _, _, _) => BeginInv(st, e);
    case SendRequest(_, _) => SendInv(st, e);
    case TimeOut(_) => TimeOutInv(st, e);
    case Answer(_, _) => AnswerInv(st, e);
    case Serve(i) => ServeInv(st, i);
  }

  lemma {:induction false} RunInv(run: seq<State>, k: nat)
    requires IsRun(run) && k < |run|
    ensures Inv(run[k])
  {
    if k == 0 {
      InitInv(run[0]);
    } else {
      RunInv(run, k - 1);
      assert Next(run[k - 1], run[k - 1 + 1]);
      NextInv(run[k - 1], run[k]);
    }
  }

  // ---- the results ----

  lemma HasValue(db: Db, gid: nat, gr: Group, i: nat)
    requires gid < NGROUPS && GroupMatches(db, gid, gr) && forall k :: k in db.m ==> Known(k)
    ensures Has(Contents(db), GroupKey(gid) + "/", i) <==> i < MAX_SEQUENCE && (i < gr.a || gr.b <= i < gr.m)
    ensures i < MAX_SEQUENCE ==> ValueName(GroupKey(gid) + "/", i) == ValueKey(gid, i)
  {
    hide Known;
    var g := GroupKey(gid) + "/";
    if i < MAX_SEQUENCE {
      assert ValueName(g, i) == ValueKey(gid, i);
    } else if Has(Contents(db), g, i) {
      StrayValue(db, gid, i);
    }
  }

  lemma ContentsGroup(db: Db, groups: seq<Group>, gid: nat)
    requires DbMatches(db, groups) && gid < NGROUPS
    ensures GroupOk(Contents(db), GroupKey(gid) + "/")
  {
    hide Known, Valid;
    var m, g, gr := Contents(db), GroupKey(gid) + "/", groups[gid];
    assert GroupMatches(db, gid, gr);
    assert g + "lock" == LockKey(gid);
    forall i: nat ensures Has(m, g, i) <==> i < MAX_SEQUENCE && (i < gr.a || gr.b <= i < gr.m)
                  ensures i < MAX_SEQUENCE ==> ValueName(g, i) == ValueKey(gid, i)
    {
      HasValue(db, gid, gr, i);
    }
    hide LockKey, ValueKey, Pad3, ValueName, GroupKey;
    if gr.hold.Free? {
      assert UnlockedLayout(m, g, gr.m);
    } else {
      var b, c := if gr.b <= gr.m then gr.b else gr.a, if gr.b <= gr.m then gr.m else gr.a;
      assert LockedLayout(m, g, gr.a, b, c);
    }
  }

  lemma StrayValue(db: Db, gid: nat, i: nat)
    requires gid < NGROUPS && MAX_SEQUENCE <= i < 1000 && ValueName(GroupKey(gid) + "/", i) in db.m
    ensures !Known(ValueName(GroupKey(gid) + "/", i))
  {
    var k := ValueName(GroupKey(gid) + "/", i);
    forall g: nat | g < NGROUPS ensures k != LockKey(g) {
      if k == LockKey(g) {
        assert LockKey(g) == GroupKey(g) + "/" + "lock";
        KeysInjective(gid, "v" + Pad3(i), Value(i), g, "lock", Lock);
      }
    }
    forall g: nat, n: nat | g < NGROUPS && n < MAX_SEQUENCE ensures k != ValueKey(g, n) {
      if k == ValueKey(g, n) {
        assert ValueKey(g, n) == GroupKey(g) + "/" + ("v" + Pad3(n));
        KeysInjective(gid, "v" + Pad3(i), Value(i), g, "v" + Pad3(n), Value(n));
      }
    }
  }

  lemma LockIsKey(db: Db, gid: nat, gr: Group)
    requires gid < NGROUPS && GroupMatches(db, gid, gr) && LockKey(gid) in db.m
    ensures KeyOk(Contents(db), LockKey(gid))
    ensures Slash(LockKey(gid)) < |LockKey(gid)| && GroupOf(LockKey(gid)) == GroupKey(gid) + "/"
  {
    var g, k := GroupKey(gid) + "/", LockKey(gid);
    GroupKeyIsGroup(gid);
    assert k == g + "lock" && k[|g|..] == "lock";
    hide GroupKey, LockKey, IsGroup, Pad3, Slash;
    assert KeyOf(k, g, Lock);
    KeyGroup(k, g, Lock);
  }

  lemma ValueIsKey(db: Db, gid: nat, gr: Group, n: nat)
    requires gid < NGROUPS && n < MAX_SEQUENCE && GroupMatches(db, gid, gr) && ValueKey(gid, n) in db.m
    ensures KeyOk(Contents(db), ValueKey(gid, n))
    ensures Slash(ValueKey(gid, n)) < |ValueKey(gid, n)| && GroupOf(ValueKey(gid, n)) == GroupKey(gid) + "/"
  {
    var g, k := GroupKey(gid) + "/", ValueKey(gid, n);
    GroupKeyIsGroup(gid);
    assert k == g + ("v" + Pad3(n)) && k[|g|..] == "v" + Pad3(n);
    assert db.m[k].value != "" by {
      assert n < gr.a ==> db.m[k].value == gr.v && gr.hold.HeldBy?;
    }
    hide GroupKey, ValueKey, IsGroup, Pad3, Slash;
    assert KeyOf(k, g, Value(n));
    KeyGroup(k, g, Value(n));
  }

  lemma KnownIsKey(db: Db, groups: seq<Group>, k: string)
    requires DbMatches(db, groups) && k in db.m
    ensures KeyOk(Contents(db), k)
    ensures exists gid: nat :: gid < NGROUPS && Slash(k) < |k| && GroupOf(k) == GroupKey(gid) + "/"
  {
    hide KeyOk, GroupMatches, Slash, GroupOf;
    assert Known(k);
    var gid: nat :| gid < NGROUPS && KeyIn(k, gid);
    if k == LockKey(gid) {
      LockIsKey(db, gid, groups[gid]);
    } else {
      var n: nat :| n < MAX_SEQUENCE && k == ValueKey(gid, n);
      ValueIsKey(db, gid, groups[gid], n);
    }
  }

  /** A database in the state the history describes has the documented layout. */
  lemma ContentsOk(db: Db, groups: seq<Group>)
    requires DbMatches(db, groups)
    ensures DbOk(Contents(db))
  {
    var m := Contents(db);
    forall k | k in m ensures KeyOk(m, k) { KnownIsKey(db, groups, k); }
    forall g | IsGroup(g) ensures GroupOk(m, g) {
      if gid: nat :| gid < NGROUPS && g == GroupKey(gid) + "/" {
        ContentsGroup(db, groups, gid);
      } else {
        forall k | k in m ensures !(g <= k) {
          KnownIsKey(db, groups, k);
          if g <= k { GroupUnique(g, k); }
        }
        assert UnlockedLayout(m, g, 0);
      }
    }
  }

  /** Every database that any number of lock-sequence clients can produce passes `check`, whatever
      replies are lost, however often requests are repeated, wherever clients stop. */
  lemma ReachablePasses(run: seq<State>, k: nat)
    requires IsRun(run) && k < |run|
    ensures DbOk(Contents(run[k].db))
    ensures exists keys :: IsOrderOf(keys, Contents(run[k].db).Keys)
    ensures forall keys :: IsOrderOf(keys, Contents(run[k].db).Keys) ==> PassFrom(keys, Contents(run[k].db), 0, START) == None
  {
    hide DbOk, DbMatches, IsRun, Init, PassFrom;
    RunInv(run, k);
    ContentsOk(run[k].db, run[k].groups);
    var keys := OrderExists(Contents(run[k].db).Keys);
    forall keys | IsOrderOf(keys, Contents(run[k].db).Keys) ensures PassFrom(keys, Contents(run[k].db), 0, START) == None {
      StartJudges(keys, Contents(run[k].db));
    }
  }

  /** A group's lock has one holder at a time, whose writes are the only ones the group sees: a client
      that believes it holds a lock does hold it, at the version it remembers. */
  lemma Exclusion(run: seq<State>, k: nat, i: nat, j: nat)
    requires IsRun(run) && k < |run| && i < |run[k].clients| && j < |run[k].clients|
    requires run[k].clients[i].phase in {Writing, Clearing} && run[k].clients[j].phase in {Writing, Clearing}
    requires run[k].clients[i].gid == run[k].clients[j].gid
    ensures i == j
    ensures LockKey(run[k].clients[i].gid) in run[k].db.m
    ensures run[k].db.m[LockKey(run[k].clients[i].gid)] == VV(run[k].clients[i].value, run[k].clients[i].lockVersion)
  {
    RunInv(run, k);
    var st := run[k];
    assert ClientOk(st.db, st.groups, st.replies, i, st.clients[i], st.queues[i], st.past[i]);
    assert ClientOk(st.db, st.groups, st.replies, j, st.clients[j], st.queues[j], st.past[j]);
    assert GroupMatches(st.db, st.clients[i].gid, st.groups[st.clients[i].gid]);
  }

  /** A client throws exactly when it does not get a lock whose value is not its own, and then the lock has
      been written by somebody else: the assertions on put, clear and unlock hold. */
  lemma OnlyContentionKills(run: seq<State>, k: nat, e: Event)
    requires IsRun(run) && k < |run| && Enabled(run[k], e) && e.Answer?
    ensures Apply(run[k], e).clients[e.i].dead <==>
              run[k].clients[e.i].phase == Locking && e.r.body.errc == NoMatch && !(ClientKey(e.i) + " " <= e.r.body.text)
    ensures Apply(run[k], e).clients[e.i].dead ==>
              e.r.body.text != "" && exists j: nat, hex: string :: j != e.i && IsLockText(e.r.body.text, j, hex)
  {
    RunInv(run, k);
    var st, i, c := run[k], e.i, run[k].clients[e.i];
    assert ClientOk(st.db, st.groups, st.replies, i, c, st.queues[i], st.past[i]);
    assert c.phase != Idle && ReplyOk(st.groups, i, c, st.past[i].execs, e.r.body);
    var text := e.r.body.text;
    OwnPrefix(i, c);
    hide Inv;
    if Apply(st, e).clients[i].dead {
      var j: nat, hex: string :| IsLockText(text, j, hex);
      assert ClientKey(j) + " " <= text;
    }
  }

  lemma OwnPrefix(i: nat, c: Client)
    requires FormOk(i, c) && c.phase != Idle
    ensures ClientKey(i) + " " <= c.value
  {
    var hex :| |hex| == 7 && c.value == ClientKey(i) + " " + hex;
  }

  /** A client knows when it has got the lock, whether or not the answer to its first request was lost: an
      answer sends it on to write exactly if it is a success or shows the client's own value, and then the
      lock is its own at the version it remembers. */
  lemma LockRecovered(run: seq<State>, k: nat, e: Event)
    requires IsRun(run) && k < |run| && Enabled(run[k], e) && e.Answer? && run[k].clients[e.i].phase == Locking
    ensures var c, c' := run[k].clients[e.i], Apply(run[k], e).clients[e.i];
            && (c'.phase == Writing <==> e.r.body.errc == Ok || e.r.body.text == c.value)
            && (c'.phase == Writing ==>
                  && c'.gid == c.gid && c'.value == c.value && c'.n == 0 && LockKey(c.gid) in run[k].db.m
                  && run[k].db.m[LockKey(c.gid)] == VV(c.value, c'.lockVersion))
            && (c'.phase != Writing ==> c'.phase == Locking && (c'.dead || (!c'.waiting && c'.tries == c.tries + 1)))
  {
    RunInv(run, k);
    var st, i, c, r := run[k], e.i, run[k].clients[e.i], e.r.body;
    LockAnswer(st, i, r);
    OfGroup(st.db, st.groups, c.gid);
  }

  lemma LockAnswer(st: State, i: nat, r: Response)
    requires Inv(st) && i < |st.clients| && st.clients[i].phase == Locking && st.clients[i].waiting
    requires Reply(i, st.clients[i].serial, r) in st.replies
    ensures var c := st.clients[i];
            && c.gid < NGROUPS && r.errc != NotFound
            && (r.errc == Ok || (r.errc == NoMatch && r.text == c.value) ==>
                  st.groups[c.gid].hold == HeldBy(i, r.version) && st.groups[c.gid].v == c.value)
            && (r.errc == NoMatch && r.text == c.value ==> c.tries > 0)
  {
    var c := st.clients[i];
    assert ClientOk(st.db, st.groups, st.replies, i, c, st.queues[i], st.past[i]);
    assert ReplyOk(st.groups, i, c, st.past[i].execs, r);
    assert Holds(st.groups, i, c.gid) ==> st.groups[c.gid].v == c.value;
  }
}
