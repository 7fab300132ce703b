/**
 The server as the program has it: an object whose fields the coroutine updates between suspensions.
 Each method is one segment of `server::consensus` and is proved to do what the step functions say.
 */
module CtServerTask {
  import opened Options
  import opened CtServer
  import opened CtSystem

  /** A `receive` that has run through the whole stash: it has either returned, possibly several times
      over, until the server has something to send, or it waits on the network. */
  function Settle(n: nat, s: Server): (t: Server)
    ensures !Scanning(t)
    decreases |s.stash|, if s.pc.Receiving() then s.pc.scan else 0
  {
    if Scanning(s) then Settle(n, ScanOne(n, s)) else s
  }

  function Measure(s: Server): (nat, nat) {
    (|s.stash|, if s.pc.Receiving() then s.pc.scan else 0)
  }

  lemma ScanShrinks(n: nat, s: Server)
    requires Scanning(s)
    ensures var (a, b), (c, d) := Measure(s), Measure(ScanOne(n, s)); c < a || (c == a && d < b)
  {
  }

  /** Scanning the stash in one go is a sequence of events of the system, so what is proved about
      runs covers the methods below. */
  lemma {:induction false} SettleIsRun(st: State, i: nat) returns (path: seq<State>)
    requires i < |st.servers| && (st.servers[i].pc.Receiving() ==> st.servers[i].pc.scan <= |st.servers[i].stash|)
    ensures |path| > 0 && path[0] == st
    ensures path[|path| - 1] == st.(servers := st.servers[i := Settle(|st.servers|, st.servers[i])])
    ensures forall k :: 0 <= k < |path| - 1 ==> Next(path[k], path[k + 1])
    decreases |st.servers[i].stash|, if st.servers[i].pc.Receiving() then st.servers[i].pc.scan else 0
  {
    var s := st.servers[i];
    if Scanning(s) {
      var st' := Apply(st, Local(i));
      assert st.sent + SetOf(None) == st.sent && st.inflight + SetOf(None) == st.inflight;
      var rest := SettleIsRun(st', i);
      path := [st] + rest;
      assert Next(st, st');
      assert rest[|rest| - 1] == st.(servers := st.servers[i := Settle(|st.servers|, s)]);
    } else {
      path := [st];
    }
  }

  class ServerTask {
    const id: nat
    const n: nat
    var pc: Pc
    var round: nat
    var color: string
    var colorRound: nat
    var stash: seq<Packet>
    var decided: bool
    ghost var heard: set<nat>
    ghost var yes: set<nat>
    ghost var taken: set<Packet>

    ghost function View(): Server
      reads this
    {
      Server(pc, round, color, colorRound, stash, decided, heard, yes, taken)
    }

    constructor (id: nat, n: nat, color: string)
      requires id < n
      ensures this.id == id && this.n == n && View() == InitServer(color)
    {
      this.id, this.n, this.color := id, n, color;
      pc, round, colorRound, stash, decided := StartRound, 1, 0, [], false;
      heard, yes, taken := {}, {}, {};
    }

    /** The caller of `receive` goes on with message `m`. */
    method Resume(m: Message, ghost from: set<nat>)
      requires pc.Receiving() && Wanted(pc, m)
      modifies this`pc, this`color, this`colorRound, this`decided, this`heard, this`yes
      ensures View() == Consume(n, old(View()), m, from)
    {
      match pc
      case CollectPrepares(received, _) =>
        heard := heard + from;
        if m.colorRound > colorRound {
          color := m.color;
          colorRound := m.colorRound;
        }
        if received + 1 <= n / 2 {
          pc := CollectPrepares(received + 1, |stash|);
        } else if decided {
          pc := TellNancy;
        } else {
          pc := SendProposes(0);
        }
      case AwaitPropose(_) =>
        if decided {
          pc := TellNancy;
        } else {
          color := m.color;
          colorRound := round;
          pc := SendAck(true);
        }
      case CollectAcks(success, total, _) =>
        var votes := success;
        heard := heard + from;
        if m.ack {
          votes := votes + 1;
          yes := yes + from;
        }
        if total + 1 <= n / 2 {
          pc := CollectAcks(votes, total + 1, |stash|);
        } else if decided {
          pc := TellNancy;
        } else if votes > n / 2 {
          decided := true;
          pc := TellNancy;
        } else {
          pc := Advance;
        }
    }

    /** The body of the loop in `receive`. */
    method Handle(p: Packet)
      requires pc.Receiving() && !decided
      modifies this
      ensures View() == OnMessage(n, old(View()), p)
    {
      if p.msg.Decide? {
        color := p.msg.color;
        decided := true;
        return;
      }
      if !Wanted(pc, p.msg) || p.msg.round != round {
        if p.msg.round >= round {
          stash := stash + [p];
        }
        return;
      }
      taken := taken + {p};
      Resume(p.msg, {p.src});
    }

    /** Process the stash first, not including messages stashed again meanwhile. */
    method ScanStash()
      modifies this
      ensures View() == Settle(n, old(View()))
    {
      hide OnMessage;
      while pc.Receiving() && !decided && 0 < pc.scan <= |stash|
        invariant Settle(n, View()) == Settle(n, old(View()))
        decreases |stash|, if pc.Receiving() then pc.scan else 0
      {
        ScanShrinks(n, View());
        var p := stash[0];
        stash := stash[1..];
        pc := pc.(scan := pc.scan - 1);
        Handle(p);
      }
    }

    /** Run to the next send, or to the point where `receive` needs the network. */
    method Proceed() returns (out: Option<Packet>)
      requires n > 0 && !pc.Receiving()
      modifies this
      ensures View() == Settle(n, Step(n, id, old(View())).0) && out == Step(n, id, old(View())).1
    {
      hide Step, Settle;
      out := Segment();
      ScanStash();
    }

    /** The code up to the next send or call of `receive`. */
    method Segment() returns (out: Option<Packet>)
      requires n > 0 && !pc.Receiving()
      modifies this
      ensures View() == Step(n, id, old(View())).0 && out == Step(n, id, old(View())).1
    {
      var leader := round % n;
      out := None;
      match pc {
        case StartRound =>
          out := Some(Packet(id, leader, Prepare(round, color, colorRound)));
          if id == leader {
            heard := {};
            pc := CollectPrepares(0, |stash|);
          } else {
            pc := AwaitPropose(|stash|);
          }
        case SendProposes(next) =>
          if next < n {
            out := Some(Packet(id, next, Propose(round, color)));
            pc := SendProposes(next + 1);
          } else {
            pc := AwaitPropose(|stash|);
          }
        case SendAck(got) =>
          out := Some(Packet(id, leader, Ack(round, got)));
          if id == leader {
            heard, yes := {}, {};
            pc := CollectAcks(0, 0, |stash|);
          } else {
            pc := Advance;
          }
        case Advance =>
          round := round + 1;
          pc := StartRound;
        case TellNancy =>
          out := Some(Packet(id, NANCY, Decide(color)));
          pc := TellAll(0);
        case TellAll(next) =>
          if next < n {
            if next != id {
              out := Some(Packet(id, next, Decide(color)));
            }
            pc := TellAll(next + 1);
          } else {
            pc := Stopped;
          }
        case Stopped =>
      }
    }

    /** A message arrives from the network while `receive` waits for one. */
    method Deliver(p: Packet)
      requires Waiting(View())
      modifies this
      ensures View() == Settle(n, OnMessage(n, old(View()), p))
    {
      Handle(p);
      ScanStash();
    }

    /** The failure detector cancels `receive(m_propose)`. */
    method Expire()
      requires Waiting(View()) && pc.AwaitPropose?
      modifies this`pc
      ensures View() == TimeOut(old(View()))
    {
      pc := SendAck(false);
    }
  }
}
