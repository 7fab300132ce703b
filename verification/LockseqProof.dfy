/** The invariant of the lock-sequence protocol and its preservation by every event. */
module LockseqProof {
  import opened LockseqKeys
  import opened Pancydb
  import opened LockseqCheck
  import opened LockseqClient
  import opened LockseqSystem

  // ---- keys ----

  lemma DistinctKeys()
    ensures forall g: nat, g': nat :: g < NGROUPS && g' < NGROUPS && LockKey(g) == LockKey(g') ==> g == g'
    ensures forall g: nat, g': nat, n: nat :: g < NGROUPS && g' < NGROUPS && n < MAX_SEQUENCE ==>
              LockKey(g) != ValueKey(g', n)
    ensures forall g: nat, n: nat, g': nat, n': nat ::
              (g < NGROUPS && g' < NGROUPS && n < MAX_SEQUENCE && n' < MAX_SEQUENCE
               && ValueKey(g, n) == ValueKey(g', n')) ==> g == g' && n == n'
  {
    forall g: nat, g': nat | g < NGROUPS && g' < NGROUPS && LockKey(g) == LockKey(g') ensures g == g' {
      assert LockKey(g) == GroupKey(g) + "/" + "lock" && LockKey(g') == GroupKey(g') + "/" + "lock";
      KeysInjective(g, "lock", Lock, g', "lock", Lock);
    }
    forall g: nat, g': nat, n: nat | g < NGROUPS && g' < NGROUPS && n < MAX_SEQUENCE
      ensures LockKey(g) != ValueKey(g', n)
    {
      if LockKey(g) == ValueKey(g', n) {
        assert LockKey(g) == GroupKey(g) + "/" + "lock" && ValueKey(g', n) == GroupKey(g') + "/" + ("v" + Pad3(n));
        KeysInjective(g, "lock", Lock, g', "v" + Pad3(n), Value(n));
      }
    }
    forall g: nat, n: nat, g': nat, n': nat | g < NGROUPS && g' < NGROUPS && n < MAX_SEQUENCE && n' < MAX_SEQUENCE
                                              && ValueKey(g, n) == ValueKey(g', n')
      ensures g == g' && n == n'
    {
      assert ValueKey(g, n) == GroupKey(g) + "/" + ("v" + Pad3(n));
      assert ValueKey(g', n') == GroupKey(g') + "/" + ("v" + Pad3(n'));
      KeysInjective(g, "v" + Pad3(n), Value(n), g', "v" + Pad3(n'), Value(n'));
    }
  }

  // ---- the invariant ----

  /** The database shows group `g` as its history says. */
  ghost predicate GroupMatches(db: Db, g: nat, gr: Group) {
    && gr.a <= gr.b && gr.a <= MAX_SEQUENCE && gr.m <= MAX_SEQUENCE
    && (LockKey(g) in db.m <==> gr.hold.HeldBy?)
    && (gr.hold.HeldBy? ==> db.m[LockKey(g)] == VV(gr.v, gr.hold.version) && LockWord(gr.v))
    && (gr.hold.Free? ==> gr.b == 0)
    && (gr.m > 0 ==> gr.w != "")
    && (forall n :: 0 <= n < MAX_SEQUENCE ==>
          && (ValueKey(g, n) in db.m <==> n < gr.a || gr.b <= n < gr.m)
          && (n < gr.a ==> db.m[ValueKey(g, n)].value == gr.v)
          && (gr.b <= n < gr.m ==> db.m[ValueKey(g, n)].value == gr.w))
  }

  ghost predicate KeyIn(k: string, g: nat) {
    k == LockKey(g) || exists n: nat :: n < MAX_SEQUENCE && k == ValueKey(g, n)
  }

  ghost predicate Known(k: string) {
    exists g: nat :: g < NGROUPS && KeyIn(k, g)
  }

  ghost predicate DbMatches(db: Db, groups: seq<Group>) {
    && Valid(db)
    && |groups| == NGROUPS
    && (forall g :: 0 <= g < NGROUPS ==> GroupMatches(db, g, groups[g]))
    && (forall k :: k in db.m ==> Known(k))
  }

  /** The lock record with this version is gone and will not come back. */
  predicate Gone(db: Db, g: nat, version: int) {
    version < db.next && version >= 0 && (LockKey(g) in db.m ==> db.m[LockKey(g)].version != version)
  }

  /** Executing `op` once more changes nothing the layout depends on. */
  ghost predicate Harmless(db: Db, groups: seq<Group>, op: Op)
    requires |groups| == NGROUPS
  {
    && Servable(op)
    && var gr := groups[op.gid];
       match op
       case LockOp(_, _) => gr.hold.HeldBy?
       case PutOp(_, n, v) => gr.hold.HeldBy? && n < gr.a && v == gr.v
       case DelOp(_, n) => gr.hold.HeldBy? && gr.a <= n < gr.b
       case UnlockOp(g, version) => Gone(db, g, version)
  }

  predicate Holds(groups: seq<Group>, i: nat, g: nat)
    requires g < |groups|
  {
    groups[g].hold.HeldBy? && groups[g].hold.client == i
  }

  /** How many copies of the current request are still on their way. */
  function Copies(q: seq<Envelope>, serial: nat): nat {
    if q == [] then 0 else (if q[0].serial == serial then 1 else 0) + Copies(q[1..], serial)
  }

  /** Client `i` holds no lock but that of the group it is working on, and that with its own value. */
  ghost predicate HoldsOnly(groups: seq<Group>, i: nat, c: Client)
    requires |groups| == NGROUPS
  {
    && c.id == i && c.gid < NGROUPS
    && (forall g :: 0 <= g < NGROUPS && Holds(groups, i, g) ==> c.phase != Idle && g == c.gid)
    && (Holds(groups, i, c.gid) ==> groups[c.gid].v == c.value)
  }

  /** Where the round of client `i` stands, as seen by the server. */
  ghost predicate PhaseOk(db: Db, groups: seq<Group>, i: nat, c: Client, execs: nat, previous: Op)
    requires |groups| == NGROUPS && c.gid < NGROUPS
  {
    var gr, mine := groups[c.gid], Holds(groups, i, c.gid);
    match c.phase
    case Idle =>
      c.op.UnlockOp? && Harmless(db, groups, c.op) && !c.waiting
    case Locking =>
      && c.op == LockOp(c.gid, c.value)
      && (mine ==> execs > 0 && gr.b == 0)
      && previous.UnlockOp? && Harmless(db, groups, previous)
    case Writing =>
      && c.op == PutOp(c.gid, c.n, c.value) && c.n < c.nvalues
      && mine && gr.hold.version == c.lockVersion
      && gr.a == gr.b == (if execs > 0 then c.n + 1 else c.n)
      && HarmlessHere(db, groups, c, previous)
    case Clearing =>
      && c.op == DelOp(c.gid, c.n) && gr.a == c.nvalues <= c.n < MAX_SEQUENCE
      && mine && gr.hold.version == c.lockVersion
      && gr.b == (if execs > 0 then c.n + 1 else c.n)
      && HarmlessHere(db, groups, c, previous)
    case Unlocking =>
      && c.op == UnlockOp(c.gid, c.lockVersion)
      && (execs == 0 ==> mine && gr.hold.version == c.lockVersion && gr.a == c.nvalues && gr.m <= gr.b
                         && HarmlessHere(db, groups, c, previous))
      && (execs > 0 ==> !mine && Harmless(db, groups, c.op))
  }

  ghost predicate HarmlessHere(db: Db, groups: seq<Group>, c: Client, op: Op)
    requires |groups| == NGROUPS
  {
    op.gid == c.gid && !op.UnlockOp? && Harmless(db, groups, op)
  }

  /** The value that client `j` writes into a lock. */
  ghost predicate IsLockText(text: string, j: nat, hex: string) {
    |hex| == 7 && text == ClientKey(j) + " " + hex
  }

  ghost predicate SomebodysLock(text: string) {
    exists j: nat, hex: string :: IsLockText(text, j, hex)
  }

  /** What an answer to the current request of client `i` tells. */
  ghost predicate ReplyOk(groups: seq<Group>, i: nat, c: Client, execs: nat, r: Response)
    requires |groups| == NGROUPS && c.gid < NGROUPS
  {
    && execs > 0
    && (c.phase == Locking && (r.errc == Ok || (r.errc == NoMatch && r.text == c.value)) ==>
          groups[c.gid].hold == HeldBy(i, r.version))
    && (c.phase == Locking ==> r.errc != NotFound)
    && (c.phase == Locking && r.errc == NoMatch ==> SomebodysLock(r.text))
    && (c.phase == Locking && r.errc == NoMatch && r.text == c.value ==> execs >= 2)
    && (c.phase == Writing ==> r.errc == Ok)
    && (c.phase == Clearing ==> r.errc != NoMatch && (r.errc == NotFound && execs == 1 ==> groups[c.gid].m <= c.n))
    && (c.phase == Clearing && r.errc == Ok ==> c.n < groups[c.gid].m)
    && (c.phase == Unlocking && execs == 1 ==> r.errc == Ok)
  }

  ghost predicate RepliesOk(groups: seq<Group>, replies: set<Reply>, i: nat, c: Client, execs: nat)
    requires |groups| == NGROUPS && c.gid < NGROUPS
  {
    forall r :: r in replies && r.client == i ==>
      && r.serial <= c.serial
      && (r.serial == c.serial && c.phase != Idle ==> ReplyOk(groups, i, c, execs, r.body))
  }

  /** The requests of a client still on their way: leftovers of the previous one, then copies of the
      current one; and no more copies have been executed or are coming than were sent. */
  ghost predicate QueueOk(c: Client, q: seq<Envelope>, past: History) {
    && (forall k :: 0 <= k < |q| ==>
          || (q[k].serial == c.serial && q[k].op == c.op)
          || (q[k].serial + 1 == c.serial && q[k].op == past.previous && past.execs == 0 && c.phase != Idle))
    && (forall j, k :: 0 <= j < k < |q| ==> q[j].serial <= q[k].serial)
    && (c.phase != Idle ==> past.execs + Copies(q, c.serial) <= Sends(c))
  }

  /** How often the current request has been sent. */
  function Sends(c: Client): nat {
    if c.waiting then c.tries + 1 else c.tries
  }

  /** The client's own bookkeeping. */
  ghost predicate FormOk(i: nat, c: Client) {
    && 1 <= c.nvalues <= MAX_SEQUENCE
    && (c.phase != Idle ==> exists hex :: |hex| == 7 && c.value == ClientKey(i) + " " + hex)
  }

  ghost predicate ClientOk(db: Db, groups: seq<Group>, replies: set<Reply>, i: nat, c: Client,
                           q: seq<Envelope>, past: History)
    requires |groups| == NGROUPS
  {
    && HoldsOnly(groups, i, c)
    && PhaseOk(db, groups, i, c, past.execs, past.previous)
    && RepliesOk(groups, replies, i, c, past.execs)
    && QueueOk(c, q, past)
    && FormOk(i, c)
  }

  ghost predicate ClientsOk(st: State)
    requires WellSized(st)
  {
    forall i :: 0 <= i < |st.clients| ==>
      ClientOk(st.db, st.groups, st.replies, i, st.clients[i], st.queues[i], st.past[i])
  }

  ghost predicate Inv(st: State) {
    && WellSized(st)
    && DbMatches(st.db, st.groups)
    && ClientsOk(st)
    && (forall g :: 0 <= g < NGROUPS && st.groups[g].hold.HeldBy? ==> st.groups[g].hold.client < |st.clients|)
  }

  lemma InitInv(st: State)
    requires Init(st)
    ensures Inv(st)
  {
  }

  // ---- executing a request ----

  /** Only the key of the request changes, so other groups do not. */
  lemma FrameGroup(db: Db, db': Db, key: string, g: nat, gr: Group)
    requires g < NGROUPS && GroupMatches(db, g, gr)
    requires forall k :: k != key ==> (k in db'.m <==> k in db.m) && (k in db.m ==> db'.m[k] == db.m[k])
    requires key != LockKey(g) && forall n :: 0 <= n < MAX_SEQUENCE ==> key != ValueKey(g, n)
    ensures GroupMatches(db', g, gr)
  {
  }

  lemma ServeLock(db: Db, g: nat, gr: Group, i: nat, value: string)
    requires g < NGROUPS && Valid(db) && GroupMatches(db, g, gr) && LockWord(value)
    ensures var (db', r) := Process(db, Render(LockOp(g, value)));
            && GroupMatches(db', g, Observe(gr, i, LockOp(g, value), r))
            && (r.errc == Ok <==> gr.hold.Free?)
            && (r.errc == Ok ==> r.version == db.next && db' == Write(db, LockKey(g), value))
            && (r.errc != Ok ==> db' == db && r == Response(NoMatch, gr.v, gr.hold.version, gr.hold.version))
  {
    DistinctKeys();
  }

  lemma ServePut(db: Db, g: nat, gr: Group, i: nat, n: nat)
    requires g < NGROUPS && n < MAX_SEQUENCE && GroupMatches(db, g, gr)
    requires gr.hold.HeldBy? && n <= gr.a && (n == gr.a ==> gr.a == gr.b)
    ensures var (db', r) := Process(db, Render(PutOp(g, n, gr.v)));
            && GroupMatches(db', g, Observe(gr, i, PutOp(g, n, gr.v), r))
            && r.errc == Ok && db' == Write(db, ValueKey(g, n), gr.v)
  {
    DistinctKeys();
  }

  lemma ServeDel(db: Db, g: nat, gr: Group, i: nat, n: nat)
    requires g < NGROUPS && n < MAX_SEQUENCE && GroupMatches(db, g, gr)
    requires gr.hold.HeldBy? && gr.a <= n <= gr.b
    ensures var (db', r) := Process(db, Render(DelOp(g, n)));
            && GroupMatches(db', g, Observe(gr, i, DelOp(g, n), r))
            && (r.errc == Ok || r.errc == NotFound)
            && (r.errc == NotFound ==> db' == db && (n == gr.b ==> gr.m <= n))
            && (r.errc == Ok ==> ValueKey(g, n) in db.m && db' == Erase(db, ValueKey(g, n)) && n == gr.b < gr.m)
  {
    DistinctKeys();
  }

  lemma ServeUnlock(db: Db, g: nat, gr: Group, i: nat, version: int)
    requires g < NGROUPS && Valid(db) && GroupMatches(db, g, gr) && version >= 0
    requires gr.hold.HeldBy? && gr.hold.version == version ==> gr.m <= gr.b
    ensures var (db', r) := Process(db, Render(UnlockOp(g, version)));
            && GroupMatches(db', g, Observe(gr, i, UnlockOp(g, version), r))
            && (r.errc == Ok <==> gr.hold.HeldBy? && gr.hold.version == version)
            && (r.errc == Ok ==> LockKey(g) in db.m && db' == Erase(db, LockKey(g)))
            && (r.errc != Ok ==> db' == db)
            && (version < db.next ==> Gone(db', g, version))
  {
    DistinctKeys();
  }

  // ---- events that do not touch the database ----

  lemma {:induction false} CopiesAppend(q: seq<Envelope>, e: Envelope, serial: nat)
    ensures Copies(q + [e], serial) == Copies(q, serial) + (if e.serial == serial then 1 else 0)
  {
    if q == [] {
      assert q + [e] == [e];
    } else {
      assert (q + [e])[1..] == q[1..] + [e];
      CopiesAppend(q[1..], e, serial);
    }
  }

  lemma {:induction false} NoCopies(q: seq<Envelope>, serial: nat)
    requires forall k :: 0 <= k < |q| ==> q[k].serial != serial
    ensures Copies(q, serial) == 0
  {
    if q != [] { NoCopies(q[1..], serial); }
  }

  /** Client `i` changes to `c` without the database noticing. */
  lemma Install(st: State, i: nat, c: Client, q: seq<Envelope>, past: History)
    requires Inv(st) && i < |st.clients|
    requires ClientOk(st.db, st.groups, st.replies, i, c, q, past)
    ensures Inv(st.(clients := st.clients[i := c], queues := st.queues[i := q], past := st.past[i := past]))
  {
    hide ClientOk, DbMatches;
  }

  /** Going on to the next request: what is on its way becomes leftovers. */
  lemma QueueNext(c: Client, d: Client, q: seq<Envelope>, past: History)
    requires QueueOk(c, q, past) && d.serial == c.serial + 1 && d.phase != Idle
    requires past.execs > 0 || q == [] || c.phase == Idle
    ensures QueueOk(d, q, History(0, c.op))
  {
    NoCopies(q, d.serial);
  }

  lemma QueueSend(c: Client, q: seq<Envelope>, past: History)
    requires QueueOk(c, q, past) && !c.waiting
    ensures QueueOk(c.(waiting := true), q, past)
    ensures QueueOk(c.(waiting := true), q + [Envelope(c.serial, c.op)], past)
  {
    CopiesAppend(q, Envelope(c.serial, c.op), c.serial);
  }

  /** An answered request has been executed, so nothing older is on its way. */
  lemma QueueAnswered(c: Client, d: Client, q: seq<Envelope>, past: History)
    requires QueueOk(c, q, past) && past.execs > 0 && d.serial == c.serial && d.op == c.op
    requires d.phase == Idle || (c.phase != Idle && Sends(d) == Sends(c))
    ensures QueueOk(d, q, past)
  {
  }

  lemma BeginInv(st: State, e: Event)
    requires Inv(st) && Enabled(st, e) && e.BeginRound?
    ensures Inv(Apply(st, e))
  {
    var i, c, past := e.i, st.clients[e.i], st.past[e.i];
    var d := Begin(c, e.gid, e.hex, e.nvalues);
    assert ClientOk(st.db, st.groups, st.replies, i, c, st.queues[i], past);
    QueueNext(c, d, st.queues[i], past);
    assert d.value == ClientKey(i) + " " + e.hex;
    Install(st, i, d, st.queues[i], History(0, c.op));
    assert st.queues[i := st.queues[i]] == st.queues;
  }

  lemma SentClient(db: Db, groups: seq<Group>, replies: set<Reply>, i: nat, c: Client, q: seq<Envelope>, past: History)
    requires |groups| == NGROUPS && ClientOk(db, groups, replies, i, c, q, past) && !c.waiting && c.phase != Idle
    ensures ClientOk(db, groups, replies, i, c.(waiting := true), q, past)
    ensures ClientOk(db, groups, replies, i, c.(waiting := true), q + [Envelope(c.serial, c.op)], past)
  {
    hide QueueOk, SomebodysLock, Harmless;
    QueueSend(c, q, past);
  }

  lemma SendInv(st: State, e: Event)
    requires Inv(st) && Enabled(st, e) && e.SendRequest?
    ensures Inv(Apply(st, e))
  {
    hide ClientOk, DbMatches;
    var i, c, q, past := e.i, st.clients[e.i], st.queues[e.i], st.past[e.i];
    assert ClientOk(st.db, st.groups, st.replies, i, c, q, past);
    SentClient(st.db, st.groups, st.replies, i, c, q, past);
    Install(st, i, c.(waiting := true), if e.lost then q else q + [Envelope(c.serial, c.op)], past);
    assert st.queues[i := q] == st.queues && st.past[i := past] == st.past;
  }

  lemma TimedOutClient(db: Db, groups: seq<Group>, replies: set<Reply>, i: nat, c: Client, q: seq<Envelope>, past: History)
    requires |groups| == NGROUPS && ClientOk(db, groups, replies, i, c, q, past) && c.waiting
    ensures ClientOk(db, groups, replies, i, Retry(c), q, past)
  {
    hide SomebodysLock, Harmless;
  }

  lemma TimeOutInv(st: State, e: Event)
    requires Inv(st) && Enabled(st, e) && e.TimeOut?
    ensures Inv(Apply(st, e))
  {
    hide ClientOk, DbMatches;
    var i, c, q, past := e.i, st.clients[e.i], st.queues[e.i], st.past[e.i];
    assert ClientOk(st.db, st.groups, st.replies, i, c, q, past);
    TimedOutClient(st.db, st.groups, st.replies, i, c, q, past);
    Install(st, i, Retry(c), q, past);
    assert st.queues[i := q] == st.queues && st.past[i := past] == st.past;
  }

  /** The phase a client is in after an answer is the one the server expects. */
  lemma AnswerPhase(db: Db, groups: seq<Group>, i: nat, c: Client, past: History, r: Response)
    requires |groups| == NGROUPS && c.gid < NGROUPS && GroupMatches(db, c.gid, groups[c.gid])
    requires HoldsOnly(groups, i, c) && PhaseOk(db, groups, i, c, past.execs, past.previous)
    requires c.waiting && ReplyOk(groups, i, c, past.execs, r) && 1 <= c.nvalues <= MAX_SEQUENCE
    requires c.tries == 0 ==> past.execs == 1
    ensures var d := OnReply(c, r);
            && d.gid == c.gid && d.value == c.value && d.nvalues == c.nvalues && d.id == c.id
            && (d.phase == Idle ==> c.phase == Unlocking && !Holds(groups, i, c.gid))
            && d.serial in {c.serial, c.serial + 1}
            && (d.serial == c.serial ==>
                  && d.op == c.op && (d.phase == Idle || (d.phase == c.phase && Sends(d) == Sends(c)))
                  && PhaseOk(db, groups, i, d, past.execs, past.previous))
            && (d.serial != c.serial ==> d.phase != Idle && PhaseOk(db, groups, i, d, 0, c.op))
  {
  }

  /** The record of requests after an answer to client `c` makes it `d`. */
  function PastAfter(c: Client, d: Client, past: History): History {
    if d.serial == c.serial then past else History(0, c.op)
  }

  lemma AnsweredClient(db: Db, groups: seq<Group>, replies: set<Reply>, i: nat, c: Client, q: seq<Envelope>, past: History,
                       r: Response)
    requires DbMatches(db, groups) && ClientOk(db, groups, replies, i, c, q, past)
    requires c.waiting && Reply(i, c.serial, r) in replies
    ensures ClientOk(db, groups, replies, i, OnReply(c, r), q, PastAfter(c, OnReply(c, r), past))
  {
    hide SomebodysLock, Harmless;
    var d := OnReply(c, r);
    assert c.phase != Idle && ReplyOk(groups, i, c, past.execs, r);
    assert GroupMatches(db, c.gid, groups[c.gid]);
    AnswerPhase(db, groups, i, c, past, r);
    hide DbMatches, GroupMatches;
    if d.serial != c.serial {
      QueueNext(c, d, q, past);
    } else {
      QueueAnswered(c, d, q, past);
    }
  }

  lemma AnswerInv(st: State, e: Event)
    requires Inv(st) && Enabled(st, e) && e.Answer?
    ensures Inv(Apply(st, e))
  {
    hide ClientOk, DbMatches, OnReply;
    var i, c, q, past := e.i, st.clients[e.i], st.queues[e.i], st.past[e.i];
    assert ClientOk(st.db, st.groups, st.replies, i, c, q, past);
    var d := OnReply(c, e.r.body);
    AnsweredClient(st.db, st.groups, st.replies, i, c, q, past, e.r.body);
    Install(st, i, d, q, PastAfter(c, d, past));
    assert st.queues[i := q] == st.queues && st.past[i := past] == st.past;
  }
}
