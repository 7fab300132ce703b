/**
 The whole consensus system: any number of servers and a network that may delay, reorder and lose
 packets but delivers each at most once.  A server that stops is one that takes no further step.
 */
module CtSystem {
  import opened Options
  import opened CtServer

  /** `sent`, `lost` are history; `inbox` is what Nancy has received, in order. */
  datatype State = State(
    servers: seq<Server>, sent: set<Packet>, inflight: set<Packet>, lost: set<Packet>,
    inbox: seq<Packet>)

  datatype Event =
    | Local(id: nat)
    | Deliver(id: nat, p: Packet)
    | Expire(id: nat)
    | Lose(p: Packet)
    | NancyGets(p: Packet)

  predicate Init(colors: seq<string>, st: State) {
    && |colors| > 0
    && st == State(seq(|colors|, i requires 0 <= i < |colors| => InitServer(colors[i])), {}, {}, {}, [])
  }

  function SetOf(o: Option<Packet>): set<Packet> {
    match o
    case None => {}
    case Some(p) => {p}
  }

  predicate Enabled(st: State, e: Event) {
    && |st.servers| > 0
    && match e
       case Local(i) =>
         && i < |st.servers|
         && var s := st.servers[i];
         && !Waiting(s) && (s.pc.Receiving() && !s.decided ==> s.pc.scan <= |s.stash|)
       case Deliver(i, p) => i < |st.servers| && p in st.inflight && p.dst == i && Waiting(st.servers[i])
       case Expire(i) => i < |st.servers| && Waiting(st.servers[i]) && st.servers[i].pc.AwaitPropose?
       case Lose(p) => p in st.inflight
       case NancyGets(p) => p in st.inflight && p.dst == NANCY
  }

  function Apply(st: State, e: Event): State
    requires Enabled(st, e)
  {
    var n := |st.servers|;
    match e
    case Local(i) =>
      var (s, out) := Step(n, i, st.servers[i]);
      st.(servers := st.servers[i := s], sent := st.sent + SetOf(out), inflight := st.inflight + SetOf(out))
    case Deliver(i, p) =>
      st.(servers := st.servers[i := OnMessage(n, st.servers[i], p)], inflight := st.inflight - {p})
    case Expire(i) =>
      st.(servers := st.servers[i := TimeOut(st.servers[i])])
    case Lose(p) =>
      st.(inflight := st.inflight - {p}, lost := st.lost + {p})
    case NancyGets(p) =>
      st.(inflight := st.inflight - {p}, inbox := st.inbox + [p])
  }

  ghost predicate Next(st: State, st': State) {
    exists e :: Enabled(st, e) && st' == Apply(st, e)
  }

  /** A run of the system: any finite sequence of events from the initial colours. */
  ghost predicate IsRun(colors: seq<string>, run: seq<State>) {
    && |run| > 0
    && Init(colors, run[0])
    && forall k :: 0 <= k < |run| - 1 ==> Next(run[k], run[k + 1])
  }

  // ---- what the network's history says ----

  ghost predicate Proposed(n: nat, sent: set<Packet>, r: nat, c: string)
    requires n > 0
  {
    exists d: int :: Packet(Leader(n, r), d, Propose(r, c)) in sent
  }

  ghost predicate PreparedBelow(sent: set<Packet>, r: nat, src: nat, bound: nat) {
    exists p :: p in sent && p.src == src && p.msg.Prepare? && p.msg.round == r && p.msg.colorRound <= bound
  }

  ghost predicate Acked(sent: set<Packet>, r: nat, src: nat) {
    exists p :: p in sent && p.src == src && p.msg == Ack(r, true)
  }

  predicate Below(n: nat, q: set<nat>) {
    forall i :: i in q ==> i < n
  }

  predicate Majority(n: nat, q: set<nat>) {
    |q| > n / 2 && Below(n, q)
  }

  /** The colour proposed in round `r` is the newest one a majority prepared with. */
  ghost predicate JustifiedBy(n: nat, sent: set<Packet>, r: nat, c: string, q: set<nat>, cr: nat)
    requires n > 0
  {
    && Majority(n, q) && cr < r
    && (cr > 0 ==> Proposed(n, sent, cr, c))
    && forall i :: i in q ==> PreparedBelow(sent, r, i, cr)
  }

  ghost predicate Justified(n: nat, sent: set<Packet>, r: nat, c: string)
    requires n > 0
  {
    exists q, cr :: JustifiedBy(n, sent, r, c, q, cr)
  }

  /** A majority of servers has acknowledged round `r`. */
  ghost predicate Locked(n: nat, sent: set<Packet>, r: nat, q: set<nat>) {
    Majority(n, q) && forall i :: i in q ==> Acked(sent, r, i)
  }

  ghost predicate ChosenIn(n: nat, sent: set<Packet>, c: string, r: nat, q: set<nat>)
    requires n > 0
  {
    Locked(n, sent, r, q) && Proposed(n, sent, r, c)
  }

  ghost predicate Chosen(n: nat, sent: set<Packet>, c: string)
    requires n > 0
  {
    exists r, q :: ChosenIn(n, sent, c, r, q)
  }

  // ---- the invariant ----

  /** What one packet on the network implies, given the server `s` that sent it. */
  ghost predicate SentOk(n: nat, p: Packet, s: Server, sent: set<Packet>)
    requires n > 0
  {
    match p.msg
    case Prepare(r, c, cr) =>
      && p.dst == Leader(n, r) && 1 <= r <= s.round && (r == s.round ==> s.pc.Rank() >= 1)
      && cr < r && (cr > 0 ==> Proposed(n, sent, cr, c))
    case Propose(r, c) =>
      && p.src == Leader(n, r) && 0 <= p.dst < n && 1 <= r <= s.round && (r == s.round ==> s.pc.Rank() >= 2)
      && Justified(n, sent, r, c)
      && (r == s.round && s.pc.SendProposes? ==> p.dst < s.pc.next && c == s.color)
    case Ack(r, b) =>
      && p.dst == Leader(n, r) && 1 <= r <= s.round && (r == s.round ==> s.pc.Rank() >= 5)
      && (b && !s.decided ==> r <= s.colorRound)
      && (b ==> exists c :: Proposed(n, sent, r, c))
    case Decide(c) =>
      && s.decided && s.pc.Rank() >= 8 && c == s.color && Chosen(n, sent, c)
      && p.dst < n && p.dst >= NANCY && p.dst != p.src
      && (s.pc.TellAll? ==> p.dst < s.pc.next)
  }

  /** What no two packets from one server may do. */
  predicate PairOk(p: Packet, q: Packet) {
    p.src == q.src ==>
      && (p.msg.Prepare? && q.msg.Prepare? && p.msg.round == q.msg.round ==> p == q)
      && (p.msg.Propose? && q.msg.Propose? && p.msg.round == q.msg.round ==> p.msg.color == q.msg.color)
      && (p.msg.Ack? && q.msg.Ack? && p.msg.round == q.msg.round ==> p == q)
      && (p.msg.Ack? && p.msg.ack && q.msg.Prepare? && p.msg.round < q.msg.round
          ==> q.msg.colorRound >= p.msg.round)
  }

  /** What server `i` itself knows. */
  ghost predicate ServerOk(n: nat, i: nat, s: Server, sent: set<Packet>)
    requires n > 0
  {
    && s.round >= 1
    && Below(n, s.heard) && Below(n, s.yes)
    && (s.pc.Rank() >= 7 ==> s.decided)
    && (s.decided ==> s.pc.Receiving() || s.pc.Rank() >= 7)
    && (s.decided ==> Chosen(n, sent, s.color))
    && (s.pc.CollectPrepares? || s.pc.SendProposes? || s.pc.CollectAcks? ==> i == Leader(n, s.round))
    && (!s.decided ==>
          && s.colorRound <= s.round
          && (s.pc.Rank() <= 3 || s.pc == SendAck(false) ==> s.colorRound < s.round)
          && (s.colorRound > 0 ==> Proposed(n, sent, s.colorRound, s.color))
          && PhaseOk(n, i, s, sent))
  }

  ghost predicate PhaseOk(n: nat, i: nat, s: Server, sent: set<Packet>)
    requires n > 0
  {
    match s.pc
    case CollectPrepares(received, scan) =>
      && scan <= |s.stash| && |s.heard| == received <= n / 2
      && forall j :: j in s.heard ==> PreparedBelow(sent, s.round, j, s.colorRound)
    case SendProposes(next) =>
      next <= n && Justified(n, sent, s.round, s.color) && (next > 0 ==> Proposed(n, sent, s.round, s.color))
    case AwaitPropose(scan) =>
      scan <= |s.stash| && (i == Leader(n, s.round) ==> Proposed(n, sent, s.round, s.color))
    case SendAck(got) =>
      && (got ==> s.colorRound == s.round)
      && (i == Leader(n, s.round) ==> Proposed(n, sent, s.round, s.color))
    case CollectAcks(success, total, scan) =>
      && scan <= |s.stash| && |s.heard| == total <= n / 2 && |s.yes| == success && s.yes <= s.heard
      && Proposed(n, sent, s.round, s.color)
      && forall j :: j in s.yes ==> Acked(sent, s.round, j)
    case _ => true
  }

  /** Every packet for server `i` is in exactly one place: outside (in flight or lost), in the stash,
      or returned by `receive`; only outdated ones and DECIDEs are thrown away. */
  ghost predicate PendingOk(i: nat, s: Server, sent: set<Packet>, outside: set<Packet>) {
    && (forall k :: 0 <= k < |s.stash| ==> Held(i, s.stash[k], sent, outside) && s.stash[k] !in s.taken)
    && (forall j, k :: 0 <= j < k < |s.stash| ==> s.stash[j] != s.stash[k])
    && (forall p :: p in s.taken ==> Held(i, p, sent, outside))
    && (!s.decided && (s.pc.CollectPrepares? || s.pc.CollectAcks?) ==>
          forall j :: j in s.heard ==> HeardFrom(s, j))
  }

  ghost predicate Held(i: nat, p: Packet, sent: set<Packet>, outside: set<Packet>) {
    p in sent && p !in outside && p.dst == i && !p.msg.Decide?
  }

  ghost predicate HeardFrom(s: Server, j: nat) {
    exists p :: p in s.taken && Wanted(s.pc, p.msg) && p.msg.round == s.round && p.src == j
  }

  /** Nothing current has been dropped. */
  predicate Kept(p: Packet, i: nat, s: Server, outside: set<Packet>) {
    p.dst == i && !p.msg.Decide? ==> p in outside || p in s.stash || p in s.taken || p.msg.round < s.round
  }

  ghost predicate SentAll(servers: seq<Server>, sent: set<Packet>) {
    forall p :: p in sent ==> p.src < |servers| && SentOk(|servers|, p, servers[p.src], sent)
  }

  predicate PairsOk(sent: set<Packet>) {
    forall p, q :: p in sent && q in sent ==> PairOk(p, q)
  }

  ghost predicate MemberOk(n: nat, i: nat, s: Server, sent: set<Packet>, outside: set<Packet>)
    requires n > 0
  {
    && ServerOk(n, i, s, sent)
    && PendingOk(i, s, sent, outside)
    && forall p :: p in sent ==> Kept(p, i, s, outside)
  }

  ghost predicate MembersOk(servers: seq<Server>, sent: set<Packet>, outside: set<Packet>) {
    forall i :: 0 <= i < |servers| ==> MemberOk(|servers|, i, servers[i], sent, outside)
  }

  predicate NetworkOk(st: State) {
    && st.inflight <= st.sent && st.lost <= st.sent && st.inflight !! st.lost
    && (forall k :: 0 <= k < |st.inbox| ==>
          st.inbox[k] in st.sent && st.inbox[k].dst == NANCY && st.inbox[k] !in st.inflight)
    && (forall j, k :: 0 <= j < k < |st.inbox| ==> st.inbox[j] != st.inbox[k])
  }

  ghost predicate Inv(st: State) {
    && |st.servers| > 0
    && NetworkOk(st)
    && SentAll(st.servers, st.sent)
    && PairsOk(st.sent)
    && MembersOk(st.servers, st.sent, st.inflight + st.lost)
  }
}
