/**
 One server of the Chandra-Toueg consensus protocol (pset2/ctconsensus.cc).

 The coroutine `server::consensus` is cut at every point where it can be interrupted: each send,
 each message taken from the stash and each wait on the network is one step.  `Step` is the
 deterministic part (sending, scanning the stash); `OnMessage` is what a waiting `receive` does with
 one message, wherever that message comes from.
 */
module CtServer {
  import opened Options

  datatype Message =
    | Prepare(round: nat, color: string, colorRound: nat)
    | Propose(round: nat, color: string)
    | Ack(round: nat, ack: bool)
    | Decide(color: string)

  /** A message with its sender and destination.  The program's messages carry neither; they are
      history that lets the proofs speak of distinct voters. */
  datatype Packet = Packet(src: nat, dst: int, msg: Message)

  const NANCY: int := -1

  /** Where the coroutine is.  A receiving phase carries its loop counters and `scan`, the number of
      stashed messages the current `receive` has still to look at before it waits on the network. */
  datatype Pc =
    | StartRound
    | CollectPrepares(received: nat, scan: nat)
    | SendProposes(next: nat)
    | AwaitPropose(scan: nat)
    | SendAck(got: bool)
    | CollectAcks(success: nat, total: nat, scan: nat)
    | Advance
    | TellNancy
    | TellAll(next: nat)
    | Stopped
  {
    predicate Receiving() { CollectPrepares? || AwaitPropose? || CollectAcks? }

    /** Position within a round; it never goes back while the round stays the same. */
    function Rank(): nat {
      match this
      case StartRound => 0
      case CollectPrepares(_, _) => 1
      case SendProposes(_) => 2
      case AwaitPropose(_) => 3
      case SendAck(_) => 4
      case CollectAcks(_, _, _) => 5
      case Advance => 6
      case TellNancy => 7
      case TellAll(_) => 8
      case Stopped => 9
    }
  }

  /** `heard` and `yes` are history: who sent the messages counted in the current quorum, and which
      of those were positive acknowledgements.  `taken` is every packet a `receive` has returned. */
  datatype Server = Server(
    pc: Pc, round: nat, color: string, colorRound: nat,
    stash: seq<Packet>, decided: bool,
    heard: set<nat>, yes: set<nat>, taken: set<Packet>)

  function Leader(n: nat, round: nat): nat
    requires n > 0
  {
    round % n
  }

  function InitServer(color: string): Server {
    Server(StartRound, 1, color, 0, [], false, {}, {}, {})
  }

  /** Does message `m` have the type the phase is waiting for? */
  predicate Wanted(pc: Pc, m: Message) {
    || (pc.CollectPrepares? && m.Prepare?)
    || (pc.AwaitPropose? && m.Propose?)
    || (pc.CollectAcks? && m.Ack?)
  }

  /** What the caller of `receive` does with the message it got back, up to the next suspension. */
  function Consume(n: nat, s: Server, m: Message, from: set<nat>): (t: Server)
    requires s.pc.Receiving() && Wanted(s.pc, m)
  {
    match s.pc
    case CollectPrepares(received, _) =>
      var newer := m.colorRound > s.colorRound;
      var s1 := s.(color := if newer then m.color else s.color,
                   colorRound := if newer then m.colorRound else s.colorRound,
                   heard := s.heard + from);
      if received + 1 <= n / 2 then
        s1.(pc := CollectPrepares(received + 1, |s.stash|))
      else if s.decided then
        s1.(pc := TellNancy)
      else
        s1.(pc := SendProposes(0))
    case AwaitPropose(_) =>
      if s.decided then s.(pc := TellNancy)
      else s.(color := m.color, colorRound := s.round, pc := SendAck(true))
    case CollectAcks(success, total, _) =>
      var success1 := if m.ack then success + 1 else success;
      var s1 := s.(heard := s.heard + from, yes := if m.ack then s.yes + from else s.yes);
      if total + 1 <= n / 2 then
        s1.(pc := CollectAcks(success1, total + 1, |s.stash|))
      else if s.decided then
        s1.(pc := TellNancy)
      else if success1 > n / 2 then
        s1.(decided := true, pc := TellNancy)
      else
        s1.(pc := Advance)
  }

  /** One iteration of the loop in `server::receive`, for message `p`. */
  function OnMessage(n: nat, s: Server, p: Packet): (t: Server)
    requires s.pc.Receiving() && !s.decided
  {
    if p.msg.Decide? then
      s.(color := p.msg.color, decided := true)
    else if !Wanted(s.pc, p.msg) || p.msg.round != s.round then
      if p.msg.round >= s.round then s.(stash := s.stash + [p]) else s
    else
      Consume(n, s.(taken := s.taken + {p}), p.msg, {p.src})
  }

  /** The message `receive` makes up once the server has decided. */
  function FakeMessage(s: Server): (m: Message)
    requires s.pc.Receiving()
    ensures Wanted(s.pc, m)
  {
    match s.pc
    case CollectPrepares(_, _) => Prepare(s.round, s.color, s.colorRound)
    case AwaitPropose(_) => Propose(s.round, s.color)
    case CollectAcks(_, _, _) => Ack(s.round, true)
  }

  predicate Waiting(s: Server) {
    s.pc.Receiving() && !s.decided && s.pc.scan == 0
  }

  predicate Scanning(s: Server) {
    s.pc.Receiving() && !s.decided && 0 < s.pc.scan <= |s.stash|
  }

  /** `receive` takes the oldest stashed message. */
  function ScanOne(n: nat, s: Server): (t: Server)
    requires Scanning(s)
  {
    OnMessage(n, s.(stash := s.stash[1..], pc := s.pc.(scan := s.pc.scan - 1)), s.stash[0])
  }

  /** Entering `receive`: the stash as it is now is to be scanned first. */
  function AckPhase(s: Server): Server {
    s.(pc := CollectAcks(0, 0, |s.stash|), heard := {}, yes := {})
  }

  /** The next step a server takes on its own, and the packet it sends if any. */
  function Step(n: nat, id: nat, s: Server): (r: (Server, Option<Packet>))
    requires n > 0
    requires !Waiting(s) && (s.pc.Receiving() && !s.decided ==> s.pc.scan <= |s.stash|)
  {
    var leader := Leader(n, s.round);
    match s.pc
    case StartRound =>
      var s1 := if id == leader
                then s.(pc := CollectPrepares(0, |s.stash|), heard := {})
                else s.(pc := AwaitPropose(|s.stash|));
      (s1, Some(Packet(id, leader, Prepare(s.round, s.color, s.colorRound))))
    case SendProposes(next) =>
      if next < n then
        (s.(pc := SendProposes(next + 1)), Some(Packet(id, next, Propose(s.round, s.color))))
      else
        (s.(pc := AwaitPropose(|s.stash|)), None)
    case SendAck(got) =>
      (if id == leader then AckPhase(s) else s.(pc := Advance),
       Some(Packet(id, leader, Ack(s.round, got))))
    case Advance =>
      (s.(pc := StartRound, round := s.round + 1), None)
    case TellNancy =>
      (s.(pc := TellAll(0)), Some(Packet(id, NANCY, Decide(s.color))))
    case TellAll(next) =>
      if next >= n then (s.(pc := Stopped), None)
      else (s.(pc := TellAll(next + 1)),
            if next != id then Some(Packet(id, next, Decide(s.color))) else None)
    case Stopped =>
      (s, None)
    case _ =>
      if s.decided then (Consume(n, s, FakeMessage(s), {}), None)
      else (ScanOne(n, s), None)
  }

  /** The failure detector fires while `receive(m_propose)` waits on the network. */
  function TimeOut(s: Server): (t: Server)
    requires Waiting(s) && s.pc.AwaitPropose?
  {
    s.(pc := SendAck(false))
  }
}
