/**
 The two coroutines as they are written.  Each method is what happens between two waits; it does to the
 fields what the event of the same name does to them in the system.
 */
module BackupTasks {
  import opened Options
  import opened Pancydb
  import opened BackupSystem

  datatype Phase = Receiving | Forwarding | AwaitingAck

  class PrimaryTask {
    var serial: nat
    var phase: Phase
    var req: Command
    const db: PancyDb

    ghost predicate Shows(st: State)
      reads this, db
    {
      && st.serial == serial && st.pdb == db.View()
      && match phase
         case Receiving => st.primary.Idle?
         case Forwarding => st.primary.Sending? && st.primary.cmd == req
         case AwaitingAck => st.primary.Waiting? && st.primary.cmd == req
    }

    constructor ()
      ensures db.Ready() && fresh(db) && Shows(START)
    {
      serial, phase, req := 0, Receiving, Command(0, Get(""));
      db := new PancyDb();
    }

    method Take(cmd: Command)
      requires phase == Receiving
      modifies this
      ensures forall st, taken :: old(Shows(st)) && Enabled(st, Event.Take(cmd, taken)) ==>
                Shows(Apply(st, Event.Take(cmd, taken)))
    {
      req := cmd;
      serial := serial + 1;
      phase := Forwarding;
    }

    method Send() returns (m: Forward)
      requires phase == Forwarding
      modifies this
      ensures forall st :: old(Shows(st)) && Enabled(st, Event.Send) ==>
                Shows(Apply(st, Event.Send)) && Apply(st, Event.Send).p2b == st.p2b + {m}
    {
      m := Forward(serial, req);
      phase := AwaitingAck;
    }

    /** An acknowledgement arrives: the request is applied and answered, or forwarded again. */
    method Acknowledged(n: nat) returns (reply: Option<Response>)
      requires phase == AwaitingAck && db.Ready()
      modifies this, db
      ensures db.Ready()
      ensures forall st :: old(Shows(st)) && Enabled(st, Event.Acknowledged(n)) ==>
                && Shows(Apply(st, Event.Acknowledged(n)))
                && AnswerOf(st, Apply(st, Event.Acknowledged(n))) == reply
    {
      if n == serial {
        var r := db.ProcessReq(req.body);
        phase := Receiving;
        return Some(r);
      }
      phase := Forwarding;
      return None;
    }

    method Expire()
      requires phase == AwaitingAck
      modifies this
      ensures forall st :: old(Shows(st)) && Enabled(st, Event.Expire) ==> Shows(Apply(st, Event.Expire))
    {
      phase := Forwarding;
    }
  }

  /** The answer given by an event, if it gives one. */
  ghost function AnswerOf(st: State, st': State): Option<Response> {
    if |st'.replies| > |st.replies| then Some(st'.replies[|st.replies|].body) else None
  }

  class BackupTask {
    var expected: nat
    var promoted: bool
    const db: PancyDb

    ghost predicate Shows(st: State)
      reads this, db
    {
      st.expected == expected && st.promoted == promoted && st.bdb == db.View()
    }

    constructor ()
      ensures db.Ready() && fresh(db) && Shows(START)
    {
      expected, promoted := 0, false;
      db := new PancyDb();
    }

    /** A forwarded request: applied if it is the next one; `ok` is what the program asserts. */
    method Deliver(m: Forward) returns (ack: nat, ok: bool)
      requires !promoted && db.Ready()
      modifies this, db
      ensures db.Ready()
      ensures forall st :: old(Shows(st)) && Enabled(st, Event.Deliver(m)) ==>
                && Shows(Apply(st, Event.Deliver(m)))
                && Apply(st, Event.Deliver(m)).b2p == st.b2p + {ack}
                && Apply(st, Event.Deliver(m)).broken == (st.broken || !ok)
    {
      ok := true;
      if m.serial == expected + 1 {
        expected := expected + 1;
        var _ := db.ProcessReq(m.cmd.body);
      } else {
        ok := m.serial == expected;
      }
      ack := expected;
    }

    method Promote()
      requires !promoted
      modifies this
      ensures forall st :: old(Shows(st)) && Enabled(st, Event.Promote) ==> Shows(Apply(st, Event.Promote))
    {
      promoted := true;
    }

    method Serve(cmd: Command) returns (reply: Response)
      requires promoted && db.Ready()
      modifies this, db
      ensures db.Ready()
      ensures forall st, taken :: old(Shows(st)) && Enabled(st, Event.Serve(cmd, taken)) ==>
                && Shows(Apply(st, Event.Serve(cmd, taken)))
                && AnswerOf(st, Apply(st, Event.Serve(cmd, taken))) == Some(reply)
    {
      reply := db.ProcessReq(cmd.body);
    }
  }
}
