/**
 A client of the lock-sequence test protocol (`lockseq_model::client`): take a group's lock, write a
 sequence of values, clear what is left of the previous sequence, release the lock.  Every request is
 retried until it is answered.
 */
module LockseqClient {
  import opened Options
  import opened LockseqKeys
  import opened Pancydb

  const NGROUPS: nat := 100
  const MAX_SEQUENCE: nat := 100

  /** What a client asks for; `Render` is the request it sends. */
  datatype Op =
    | LockOp(gid: nat, value: string)
    | PutOp(gid: nat, n: nat, value: string)
    | DelOp(gid: nat, n: nat)
    | UnlockOp(gid: nat, version: int)

  function Render(op: Op): Request
    requires op.PutOp? || op.DelOp? ==> op.n < MAX_SEQUENCE
  {
    match op
    case LockOp(g, value) => Cas(LockKey(g), "", value, ANY_VERSION)
    case PutOp(g, n, value) => Put(ValueKey(g, n), value, ANY_VERSION)
    case DelOp(g, n) => Remove(ValueKey(g, n), ANY_VERSION)
    case UnlockOp(g, version) => Remove(LockKey(g), version)
  }

  datatype Phase = Idle | Locking | Writing | Clearing | Unlocking

  /** `serial` counts the requests the client has made, `op` is the latest; `waiting` is set between
      sending it and giving up or being answered.  A client that has thrown is `dead`. */
  datatype Client = Client(
    id: nat, phase: Phase, dead: bool, gid: nat, value: string, nvalues: nat, n: nat, lockVersion: int,
    serial: nat, op: Op, tries: nat, waiting: bool)

  function InitClient(id: nat): Client {
    Client(id, Idle, false, 0, "", 1, 0, NONEXISTENT, 0, UnlockOp(0, NONEXISTENT), 0, false)
  }

  /** The next request: a new serial, not yet tried. */
  function Ask(c: Client, phase: Phase, n: nat, op: Op): Client {
    c.(phase := phase, n := n, serial := c.serial + 1, op := op, tries := 0, waiting := false)
  }

  /** A new round on a group; `hex` makes the value to install. */
  function Begin(c: Client, gid: nat, hex: string, nvalues: nat): Client {
    var value := ClientKey(c.id) + " " + hex;
    Ask(c.(gid := gid, value := value, nvalues := nvalues, lockVersion := NONEXISTENT),
        Locking, 0, LockOp(gid, value))
  }

  function Retry(c: Client): Client {
    c.(tries := c.tries + 1, waiting := false)
  }

  function Die(c: Client): Client { c.(dead := true) }

  function StartWrite(c: Client, version: int): Client {
    Ask(c.(lockVersion := version), Writing, 0, PutOp(c.gid, 0, c.value))
  }

  /** Clear value `n`, or unlock when there are no more to clear. */
  function ClearFrom(c: Client, n: nat): Client {
    if n < MAX_SEQUENCE then Ask(c, Clearing, n, DelOp(c.gid, n)) else StartUnlock(c, n)
  }

  function StartUnlock(c: Client, n: nat): Client {
    Ask(c, Unlocking, n, UnlockOp(c.gid, c.lockVersion))
  }

  /** The client gets an answer to its current request. */
  function OnReply(c: Client, r: Response): Client {
    match c.phase
    case Idle => c
    case Locking =>
      if r.errc == Ok then StartWrite(c, r.version)
      else if r.errc != NoMatch then Die(c)
      else if r.text == c.value && c.tries > 0 then StartWrite(c, r.version)
      else if !(ClientKey(c.id) + " " <= r.text) then Die(c)
      else Retry(c)
    case Writing =>
      if r.errc != Ok then Die(c)
      else if c.n + 1 < c.nvalues then Ask(c, Writing, c.n + 1, PutOp(c.gid, c.n + 1, c.value))
      else ClearFrom(c, c.n + 1)
    case Clearing =>
      if r.errc == Ok then ClearFrom(c, c.n + 1)
      else if r.errc != NotFound then Die(c)
      else if c.tries == 0 then StartUnlock(c, c.n)
      else ClearFrom(c, c.n + 1)
    case Unlocking =>
      if r.errc != Ok && c.tries == 0 then Die(c)
      else c.(phase := Idle, waiting := false)
  }

  /** What a client takes for an error: an answer that no replay of its own requests explains, and a lock
      that somebody else holds. */
  lemma ErrorsKill(c: Client, r: Response)
    requires !c.dead && c.phase != Idle
    ensures OnReply(c, r).dead <==>
              match c.phase
              case Locking => r.errc == NotFound || (r.errc == NoMatch && !(ClientKey(c.id) + " " <= r.text)
                                                     && !(c.tries > 0 && r.text == c.value))
              case Writing => r.errc != Ok
              case Clearing => r.errc == NoMatch
              case _ => r.errc != Ok && c.tries == 0
    ensures OnReply(c, r).dead ==> OnReply(c, r) == c.(dead := true)
  {
  }

  /** The client as the program has it; each method is what the coroutine does between two waits. */
  class ClientTask {
    const id: nat
    var phase: Phase
    var dead: bool
    var gid: nat
    var value: string
    var nvalues: nat
    var n: nat
    var lockVersion: int
    var serial: nat
    var op: Op
    var tries: nat
    var waiting: bool

    ghost function View(): Client
      reads this
    {
      Client(id, phase, dead, gid, value, nvalues, n, lockVersion, serial, op, tries, waiting)
    }

    constructor (id: nat)
      ensures this.id == id && View() == InitClient(id)
    {
      this.id := id;
      phase, dead, gid, value, nvalues, n := Idle, false, 0, "", 1, 0;
      lockVersion, serial, op, tries, waiting := NONEXISTENT, 0, UnlockOp(0, NONEXISTENT), 0, false;
    }

    method Request(p: Phase, o: Op)
      modifies this`phase, this`serial, this`op, this`tries, this`waiting
      ensures View() == Ask(old(View()), p, n, o)
    {
      phase, op, serial := p, o, serial + 1;
      tries, waiting := 0, false;
    }

    method StartRound(g: nat, hex: string, count: nat)
      requires phase == Idle && !dead
      modifies this
      ensures View() == Begin(old(View()), g, hex, count)
    {
      gid, value, nvalues, lockVersion, n := g, ClientKey(id) + " " + hex, count, NONEXISTENT, 0;
      Request(Locking, LockOp(gid, value));
    }

    method Receive(r: Response)
      requires waiting && !dead
      modifies this
      ensures View() == OnReply(old(View()), r)
    {
      if phase == Locking {
        if r.errc == Ok || (r.errc == NoMatch && r.text == value && tries > 0) {
          lockVersion, n := r.version, 0;
          Request(Writing, PutOp(gid, n, value));
        } else if r.errc != NoMatch || !(ClientKey(id) + " " <= r.text) {
          dead := true;
        } else {
          tries, waiting := tries + 1, false;
        }
      } else if phase == Unlocking {
        if r.errc != Ok && tries == 0 {
          dead := true;
        } else {
          phase, waiting := Idle, false;
        }
      } else if phase != Idle {
        var unlock := false;
        if phase == Writing {
          if r.errc != Ok {
            dead := true;
            return;
          }
          n := n + 1;
          if n < nvalues {
            Request(Writing, PutOp(gid, n, value));
            return;
          }
        } else {
          if r.errc != Ok && r.errc != NotFound {
            dead := true;
            return;
          }
          if r.errc == NotFound && tries == 0 {
            unlock := true;
          } else {
            n := n + 1;
          }
        }
        if !unlock && n < MAX_SEQUENCE {
          Request(Clearing, DelOp(gid, n));
        } else {
          Request(Unlocking, UnlockOp(gid, lockVersion));
        }
      }
    }
  }

  // ---- the shared queue of responses ----

  const CLIENT_MASK: nat := 4096

  /** `None` stands for a redirection or a response of the wrong type. */
  datatype Delivery = Delivery(serial: nat, body: Option<Response>)

  /** What `receive_response` finds: the responses that stay, and the answer if there is one. */
  function Scan(inq: seq<Delivery>, serial: nat): (r: (seq<Delivery>, seq<Option<Response>>))
    ensures |r.1| <= 1
  {
    if inq == [] then ([], [])
    else if inq[0].serial % CLIENT_MASK != serial % CLIENT_MASK then
      var rest := Scan(inq[1..], serial);
      ([inq[0]] + rest.0, rest.1)
    else if inq[0].serial != serial then Scan(inq[1..], serial)
    else (inq[1..], [inq[0].body])
  }

  /** One pass over the queue for the client of `serial`: its outdated responses are dropped, those of
      other clients stay, and the first response to `serial` itself is taken. */
  method ReceiveResponse(inq: seq<Delivery>, serial: nat) returns (left: seq<Delivery>, found: bool, body: Option<Response>)
    ensures left == Scan(inq, serial).0
    ensures Scan(inq, serial).1 == if found then [body] else []
  {
    var i := 0;
    left, found, body := inq, false, None;
    assert left[i..] == inq && left[..i] == [];
    while i < |left|
      invariant i <= |left|
      invariant !found && Scan(inq, serial).0 == left[..i] + Scan(left[i..], serial).0
      invariant Scan(inq, serial).1 == Scan(left[i..], serial).1
      decreases |left| - i
    {
      assert left[i..][1..] == left[i + 1..] && left[i..][0] == left[i];
      if left[i].serial % CLIENT_MASK != serial % CLIENT_MASK {
        assert left[..i] + ([left[i]] + Scan(left[i + 1..], serial).0) == left[..i + 1] + Scan(left[i + 1..], serial).0;
        i := i + 1;
      } else {
        var d := left[i];
        var left' := left[..i] + left[i + 1..];
        assert left'[..i] == left[..i] && left'[i..] == left[i + 1..];
        left := left';
        if d.serial == serial {
          assert left == left[..i] + left[i..];
          return left, true, d.body;
        }
      }
    }
    assert left[..i] == left && left[i..] == [];
  }

  function OthersOf(q: seq<Delivery>, serial: nat): seq<Delivery> {
    if q == [] then []
    else if q[0].serial % CLIENT_MASK != serial % CLIENT_MASK then [q[0]] + OthersOf(q[1..], serial)
    else OthersOf(q[1..], serial)
  }

  /** The filter neither loses nor reorders other clients' responses, returns only a response to the
      request it was asked about, and finds one if there is any. */
  lemma {:induction false} ScanFilters(inq: seq<Delivery>, serial: nat)
    ensures OthersOf(Scan(inq, serial).0, serial) == OthersOf(inq, serial)
    ensures Scan(inq, serial).1 == [] <==> forall k :: 0 <= k < |inq| ==> inq[k].serial != serial
    ensures Scan(inq, serial).1 != [] ==> Delivery(serial, Scan(inq, serial).1[0]) in inq
    ensures Scan(inq, serial).1 == [] ==>
              Scan(inq, serial).0 == OthersOf(inq, serial)
  {
    if inq != [] {
      ScanFilters(inq[1..], serial);
      assert inq == [inq[0]] + inq[1..];
      if inq[0].serial % CLIENT_MASK != serial % CLIENT_MASK {
        assert Scan(inq, serial).0[1..] == Scan(inq[1..], serial).0;
      }
    }
  }
}
