/**
 Primary-backup replication of a Pancy database.  The primary forwards each request to the backup until
 it is acknowledged, then applies and answers it.  A backup that has not heard anything for a while takes
 over, whether or not the primary has failed.

 `State` is the system on a network that may lose, repeat and reorder: `p2b` and `b2p` hold everything
 ever sent.  `Wired` is the same system on the program's own channels, which lose but keep order.
 */
module BackupSystem {
  import opened Pancydb

  /** A request as clients send it; the answer carries the same serial. */
  datatype Command = Command(serial: nat, body: Request)

  datatype Forward = Forward(serial: nat, cmd: Command)

  /** `taken` is the number of answers given before the request arrived. */
  datatype Primary =
    | Idle
    | Sending(cmd: Command, taken: nat)
    | Waiting(cmd: Command, taken: nat)

  /** The answer to the request at position `pos` of the log. */
  datatype Reply = Reply(pos: nat, cmd: Command, body: Response, taken: nat)

  /** `applied` and `log` are history: what primary and backup have applied.  `broken` records that the
      backup's assertion has failed. */
  datatype State = State(
    serial: nat, primary: Primary, pdb: Db, applied: seq<Command>,
    expected: nat, promoted: bool, bdb: Db, log: seq<Command>, broken: bool,
    p2b: set<Forward>, b2p: set<nat>, replies: seq<Reply>)

  datatype Event =
    | Take(cmd: Command, taken: nat)
    | Send
    | Acknowledged(n: nat)
    | Expire
    | Deliver(m: Forward)
    | Redirect
    | Promote
    | Serve(cmd: Command, taken: nat)

  const START: State := State(0, Idle, EMPTY, [], 0, false, EMPTY, [], false, {}, {}, [])

  /** `Deliver` and `Acknowledged` are receives; a client's request arrived at its server when `taken`
      answers had been given. */
  predicate Enabled(st: State, e: Event) {
    match e
    case Take(_, taken) => st.primary.Idle? && taken <= |st.replies|
    case Send => st.primary.Sending?
    case Acknowledged(n) => st.primary.Waiting? && n in st.b2p
    case Expire => st.primary.Waiting?
    case Deliver(m) => !st.promoted && m in st.p2b
    case Redirect => !st.promoted
    case Promote => !st.promoted
    case Serve(_, taken) => st.promoted && taken <= |st.replies|
  }

  function Apply(st: State, e: Event): State
    requires Enabled(st, e)
  {
    match e
    case Take(cmd, taken) => st.(serial := st.serial + 1, primary := Sending(cmd, taken))
    case Send =>
      st.(primary := Waiting(st.primary.cmd, st.primary.taken),
          p2b := st.p2b + {Forward(st.serial, st.primary.cmd)})
    case Acknowledged(n) =>
      if n != st.serial then st.(primary := Sending(st.primary.cmd, st.primary.taken))
      else
        var (db, r) := Process(st.pdb, st.primary.cmd.body);
        st.(primary := Idle, pdb := db, applied := st.applied + [st.primary.cmd],
            replies := st.replies + [Reply(|st.applied|, st.primary.cmd, r, st.primary.taken)])
    case Expire => st.(primary := Sending(st.primary.cmd, st.primary.taken))
    case Deliver(m) =>
      if m.serial == st.expected + 1 then
        st.(expected := st.expected + 1, bdb := Process(st.bdb, m.cmd.body).0, log := st.log + [m.cmd],
            b2p := st.b2p + {st.expected + 1})
      else st.(broken := st.broken || m.serial != st.expected, b2p := st.b2p + {st.expected})
    case Redirect => st
    case Promote => st.(promoted := true)
    case Serve(cmd, taken) =>
      var (db, r) := Process(st.bdb, cmd.body);
      st.(bdb := db, log := st.log + [cmd], replies := st.replies + [Reply(|st.log|, cmd, r, taken)])
  }

  ghost predicate Next(st: State, st': State) {
    exists e :: Enabled(st, e) && st' == Apply(st, e)
  }

  ghost predicate IsRun(run: seq<State>) {
    |run| > 0 && run[0] == START && forall k :: 0 <= k < |run| - 1 ==> Next(run[k], run[k + 1])
  }

  // ---- the program's channels ----

  /** `toBackup` and `toPrimary` are the messages on their way, in the order they were sent. */
  datatype Wired = Wired(st: State, toBackup: seq<Forward>, toPrimary: seq<nat>)

  const START_WIRED: Wired := Wired(START, [], [])

  /** Receives take the oldest message on its way. */
  predicate WiredEnabled(w: Wired, e: Event) {
    && Enabled(w.st, e)
    && (e.Deliver? ==> w.toBackup != [] && w.toBackup[0] == e.m)
    && (e.Acknowledged? ==> w.toPrimary != [] && w.toPrimary[0] == e.n)
  }

  /** `lost` says that the channel drops the message sent, if one is. */
  function WiredApply(w: Wired, e: Event, lost: bool): Wired
    requires WiredEnabled(w, e)
  {
    var st := Apply(w.st, e);
    match e
    case Send =>
      Wired(st, if lost then w.toBackup else w.toBackup + [Forward(w.st.serial, w.st.primary.cmd)], w.toPrimary)
    case Deliver(_) =>
      Wired(st, w.toBackup[1..], if lost then w.toPrimary else w.toPrimary + [st.expected])
    case Acknowledged(_) => Wired(st, w.toBackup, w.toPrimary[1..])
    case _ => w.(st := st)
  }

  ghost predicate WiredNext(w: Wired, w': Wired) {
    exists e, lost :: WiredEnabled(w, e) && w' == WiredApply(w, e, lost)
  }

  ghost predicate IsWiredRun(run: seq<Wired>) {
    |run| > 0 && run[0] == START_WIRED && forall k :: 0 <= k < |run| - 1 ==> WiredNext(run[k], run[k + 1])
  }
}
