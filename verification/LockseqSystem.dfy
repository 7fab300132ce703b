/**
 Any number of lock-sequence clients and one Pancy server.  Requests travel in order on each client's
 lossy channel and are executed one at a time; an answer, once sent, may reach the client at any time
 later, more than once, or never.
 */
module LockseqSystem {
  import opened LockseqKeys
  import opened Pancydb
  import opened LockseqClient

  datatype Envelope = Envelope(serial: nat, op: Op)
  datatype Reply = Reply(client: nat, serial: nat, body: Response)

  /** History of one group: who holds its lock with which version; the holder's values are below `a`,
      the previous sequence, of `m` values `w`, is intact from `b` on. */
  datatype Hold = Free | HeldBy(client: nat, version: int)
  datatype Group = Group(hold: Hold, a: nat, b: nat, v: string, m: nat, w: string)

  /** `execs` counts how often the current request of a client has been executed; `previous` is the
      request before it.  Both, like `groups`, are history. */
  datatype History = History(execs: nat, previous: Op)

  datatype State = State(
    db: Db, clients: seq<Client>, queues: seq<seq<Envelope>>, replies: set<Reply>,
    groups: seq<Group>, past: seq<History>)

  datatype Event =
    | BeginRound(i: nat, gid: nat, hex: string, nvalues: nat)
    | SendRequest(i: nat, lost: bool)
    | TimeOut(i: nat)
    | Answer(i: nat, r: Reply)
    | Serve(i: nat)

  predicate Init(st: State) {
    && st.db == EMPTY
    && |st.clients| == |st.queues| == |st.past| < NOT_A_NUMBER
    && |st.groups| == NGROUPS
    && st.replies == {}
    && (forall i :: 0 <= i < |st.clients| ==>
          && st.clients[i] == InitClient(i) && st.queues[i] == []
          && st.past[i] == History(0, UnlockOp(0, NONEXISTENT)))
    && (forall g :: 0 <= g < NGROUPS ==> st.groups[g] == Group(Free, 0, 0, "", 0, ""))
  }

  predicate WellSized(st: State) {
    && |st.clients| == |st.queues| == |st.past| < NOT_A_NUMBER
    && |st.groups| == NGROUPS
  }

  predicate Servable(op: Op) {
    && op.gid < NGROUPS
    && (op.PutOp? || op.DelOp? ==> op.n < MAX_SEQUENCE)
  }

  predicate Enabled(st: State, e: Event) {
    && WellSized(st) && e.i < |st.clients|
    && var c := st.clients[e.i];
       match e
       case BeginRound(_, gid, hex, nvalues) =>
         c.phase == Idle && !c.dead && gid < NGROUPS && |hex| == 7 && 1 <= nvalues <= MAX_SEQUENCE
       case SendRequest(_, _) => c.phase != Idle && !c.dead && !c.waiting
       case TimeOut(_) => c.waiting && !c.dead
       case Answer(i, r) => c.waiting && !c.dead && r in st.replies && r.client == i && r.serial == c.serial
       case Serve(i) => st.queues[i] != [] && Servable(st.queues[i][0].op)
  }

  /** The history of a group when client `i`'s request has been executed with result `r`. */
  function Observe(g: Group, i: nat, op: Op, r: Response): Group {
    match op
    case LockOp(_, value) =>
      if r.errc == Ok then Group(HeldBy(i, r.version), 0, 0, value, g.m, g.w) else g
    case PutOp(_, n, _) =>
      g.(a := if g.a <= n then n + 1 else g.a, b := if g.b <= n then n + 1 else g.b)
    case DelOp(_, n) =>
      g.(b := if g.b <= n then n + 1 else g.b)
    case UnlockOp(_, _) =>
      if r.errc == Ok then Group(Free, 0, 0, "", g.a, g.v) else g
  }

  function Move(st: State, i: nat, c: Client): State
    requires i < |st.clients| == |st.past|
  {
    st.(clients := st.clients[i := c],
        past := if c.serial == st.clients[i].serial then st.past
                else st.past[i := History(0, st.clients[i].op)])
  }

  function Apply(st: State, e: Event): State
    requires Enabled(st, e)
  {
    var i, c := e.i, st.clients[e.i];
    match e
    case BeginRound(_, gid, hex, nvalues) => Move(st, i, Begin(c, gid, hex, nvalues))
    case SendRequest(_, lost) =>
      st.(clients := st.clients[i := c.(waiting := true)],
          queues := if lost then st.queues else st.queues[i := st.queues[i] + [Envelope(c.serial, c.op)]])
    case TimeOut(_) => Move(st, i, Retry(c))
    case Answer(_, r) => Move(st, i, OnReply(c, r.body))
    case Serve(_) =>
      var q := st.queues[i][0];
      var (db, r) := Process(st.db, Render(q.op));
      State(db, st.clients, st.queues[i := st.queues[i][1..]], st.replies + {Reply(i, q.serial, r)},
            st.groups[q.op.gid := Observe(st.groups[q.op.gid], i, q.op, r)],
            if q.serial == c.serial then st.past[i := st.past[i].(execs := st.past[i].execs + 1)] else st.past)
  }

  ghost predicate Next(st: State, st': State) {
    exists e :: Enabled(st, e) && st' == Apply(st, e)
  }

  ghost predicate IsRun(run: seq<State>) {
    |run| > 0 && Init(run[0]) && forall k :: 0 <= k < |run| - 1 ==> Next(run[k], run[k + 1])
  }

  /** The values stored, which is what `check` looks at. */
  function Contents(db: Db): map<string, string> {
    map k | k in db.m :: db.m[k].value
  }
}
