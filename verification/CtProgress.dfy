/**
 What the consensus protocol can do: a run in which everybody decides, from any initial colours, and one in
 which everybody but a server that takes no step at all does.
 */
module CtProgress {
  import opened Options
  import opened CtServer
  import opened CtSystem

  ghost function Last(run: seq<State>): State
    requires |run| > 0
  {
    run[|run| - 1]
  }

  lemma Act(colors: seq<string>, run: seq<State>, e: Event) returns (run': seq<State>)
    requires |run| > 0 && IsRun(colors, run) && Enabled(Last(run), e)
    ensures |run'| > 0 && IsRun(colors, run') && run <= run' && Last(run') == Apply(Last(run), e)
  {
    hide Apply, Enabled, Init;
    run' := run + [Apply(Last(run), e)];
    forall k | 0 <= k < |run'| - 1 ensures Next(run'[k], run'[k + 1]) {
      if k < |run| - 1 { assert Next(run[k], run[k + 1]); }
    }
  }

  /** Server `j` takes part; `dead` is one that does not, -1 if all do. */
  predicate Live(n: nat, dead: int, j: nat) { j < n && j != dead }

  /** The server that does not take part does not change. */
  ghost predicate Frame(st: State, st': State, dead: int) {
    && |st'.servers| == |st.servers|
    && (0 <= dead < |st.servers| ==> st'.servers[dead] == st.servers[dead])
  }

  /** How many of the first `j` servers take part. */
  function Count(dead: int, j: nat): (c: nat) {
    if 0 <= dead < j then j - 1 else j
  }

  // ---- PREPARE ----

  predicate Fresh(s: Server, r: nat, pc: Pc) {
    s.pc == pc && s.round == r && !s.decided && s.stash == []
  }

  ghost predicate HasPrepare(inflight: set<Packet>, j: nat, dst: nat, r: nat) {
    exists c, cr :: Packet(j, dst, Prepare(r, c, cr)) in inflight
  }

  /** Servers below `j` have sent their PREPARE, the others are about to. */
  ghost predicate Preparing(st: State, r: nat, dead: int, j: nat) {
    var n := |st.servers|;
    && n > 0 && Leader(n, r) != dead
    && forall k: nat :: Live(n, dead, k) ==>
         if k >= j then Fresh(st.servers[k], r, StartRound)
         else
           && HasPrepare(st.inflight, k, Leader(n, r), r)
           && Fresh(st.servers[k], r, if k == Leader(n, r) then CollectPrepares(0, 0) else AwaitPropose(0))
  }

  lemma PreparesOne(st: State, r: nat, dead: int, j: nat)
    requires Preparing(st, r, dead, j) && Live(|st.servers|, dead, j)
    ensures Enabled(st, Local(j)) && Preparing(Apply(st, Local(j)), r, dead, j + 1)
    ensures Frame(st, Apply(st, Local(j)), dead) && Apply(st, Local(j)).inbox == st.inbox
  {
    var n, st' := |st.servers|, Apply(st, Local(j));
    var s := st.servers[j];
    assert Packet(j, Leader(n, r), Prepare(r, s.color, s.colorRound)) in st'.inflight;
    forall k: nat | k != j && HasPrepare(st.inflight, k, Leader(n, r), r) ensures HasPrepare(st'.inflight, k, Leader(n, r), r) {
      var c, cr :| Packet(k, Leader(n, r), Prepare(r, c, cr)) in st.inflight;
      assert Packet(k, Leader(n, r), Prepare(r, c, cr)) in st'.inflight;
    }
    hide HasPrepare;
  }

  lemma {:induction false} Prepares(colors: seq<string>, run: seq<State>, r: nat, dead: int, j: nat) returns (run': seq<State>)
    requires |run| > 0 && IsRun(colors, run) && j <= |Last(run).servers| && Preparing(Last(run), r, dead, j)
    ensures |run'| > 0 && IsRun(colors, run') && run <= run' && Frame(Last(run), Last(run'), dead)
    ensures Last(run').inbox == Last(run).inbox && Preparing(Last(run'), r, dead, |Last(run').servers|)
    decreases |Last(run).servers| - j
  {
    run' := run;
    if j < |Last(run).servers| {
      if j != dead {
        PreparesOne(Last(run), r, dead, j);
        run' := Act(colors, run, Local(j));
      }
      hide IsRun, HasPrepare, Fresh;
      run' := Prepares(colors, run', r, dead, j + 1);
    }
  }

  /** The leader has counted the PREPAREs of the servers below `j`, or has a majority already. */
  ghost predicate Counting(st: State, r: nat, dead: int, j: nat) {
    var n := |st.servers|;
    && n > 0 && Leader(n, r) != dead
    && (Fresh(st.servers[Leader(n, r)], r, SendProposes(0))
        || (Count(dead, j) <= n / 2 && Fresh(st.servers[Leader(n, r)], r, CollectPrepares(Count(dead, j), 0))))
    && (forall k: nat :: Live(n, dead, k) && k != Leader(n, r) ==> Fresh(st.servers[k], r, AwaitPropose(0)))
    && forall k: nat :: Live(n, dead, k) && k >= j ==> HasPrepare(st.inflight, k, Leader(n, r), r)
  }

  lemma CountsOne(st: State, r: nat, dead: int, j: nat, p: Packet)
    requires Counting(st, r, dead, j) && Live(|st.servers|, dead, j) && p in st.inflight
    requires p.src == j && p.dst == Leader(|st.servers|, r) && p.msg.Prepare? && p.msg.round == r
    requires st.servers[Leader(|st.servers|, r)].pc.CollectPrepares?
    ensures var e := Deliver(Leader(|st.servers|, r), p);
            && Enabled(st, e) && Counting(Apply(st, e), r, dead, j + 1)
            && Frame(st, Apply(st, e), dead) && Apply(st, e).inbox == st.inbox
  {
    var n, l := |st.servers|, Leader(|st.servers|, r);
    var st' := Apply(st, Deliver(l, p));
    forall k: nat | k != j && HasPrepare(st.inflight, k, l, r) ensures HasPrepare(st'.inflight, k, l, r) {
      var c, cr :| Packet(k, l, Prepare(r, c, cr)) in st.inflight;
      assert Packet(k, l, Prepare(r, c, cr)) in st'.inflight;
    }
    hide HasPrepare;
  }

  lemma {:induction false} Collects(colors: seq<string>, run: seq<State>, r: nat, dead: int, j: nat) returns (run': seq<State>)
    requires |run| > 0 && IsRun(colors, run) && j <= |Last(run).servers| && Counting(Last(run), r, dead, j)
    ensures |run'| > 0 && IsRun(colors, run') && run <= run' && Frame(Last(run), Last(run'), dead)
    ensures Last(run').inbox == Last(run).inbox && Counting(Last(run'), r, dead, |Last(run').servers|)
    decreases |Last(run).servers| - j
  {
    var st := Last(run);
    var l := Leader(|st.servers|, r);
    run' := run;
    if j < |st.servers| {
      if j != dead && st.servers[l].pc.CollectPrepares? {
        assert Live(|st.servers|, dead, j) && HasPrepare(st.inflight, j, l, r);
        var c, cr :| Packet(j, l, Prepare(r, c, cr)) in st.inflight;
        CountsOne(st, r, dead, j, Packet(j, l, Prepare(r, c, cr)));
        run' := Act(colors, run, Deliver(l, Packet(j, l, Prepare(r, c, cr))));
      }
      hide IsRun, HasPrepare, Apply, Enabled;
      run' := Collects(colors, run', r, dead, j + 1);
    }
  }

  // ---- PROPOSE ----

  /** The leader has sent `next` proposals. */
  ghost predicate Proposing(st: State, r: nat, dead: int, next: nat, pc: Pc, c: string) {
    var n := |st.servers|;
    && n > 0 && Leader(n, r) != dead
    && Fresh(st.servers[Leader(n, r)], r, pc) && st.servers[Leader(n, r)].color == c
    && (forall k: nat :: Live(n, dead, k) && k != Leader(n, r) ==> Fresh(st.servers[k], r, AwaitPropose(0)))
    && forall d: nat :: d < next ==> Packet(Leader(n, r), d, Propose(r, c)) in st.inflight
  }

  lemma ProposesOne(st: State, r: nat, dead: int, next: nat, c: string)
    requires Proposing(st, r, dead, next, SendProposes(next), c) && next <= |st.servers|
    ensures var e := Local(Leader(|st.servers|, r));
            && Enabled(st, e) && Frame(st, Apply(st, e), dead) && Apply(st, e).inbox == st.inbox
            && if next < |st.servers| then Proposing(Apply(st, e), r, dead, next + 1, SendProposes(next + 1), c)
               else Proposing(Apply(st, e), r, dead, next, AwaitPropose(0), c)
  {
  }

  lemma {:induction false} Proposes(colors: seq<string>, run: seq<State>, r: nat, dead: int, next: nat, c: string) returns (run': seq<State>)
    requires |run| > 0 && IsRun(colors, run) && next <= |Last(run).servers|
    requires Proposing(Last(run), r, dead, next, SendProposes(next), c)
    ensures |run'| > 0 && IsRun(colors, run') && run <= run' && Frame(Last(run), Last(run'), dead)
    ensures Last(run').inbox == Last(run).inbox
    ensures Proposing(Last(run'), r, dead, |Last(run').servers|, AwaitPropose(0), c)
    decreases |Last(run).servers| - next
  {
    hide IsRun, Apply, Enabled, Proposing;
    ProposesOne(Last(run), r, dead, next, c);
    run' := Act(colors, run, Local(LeaderOf(Last(run), r)));
    if next < |Last(run).servers| {
      run' := Proposes(colors, run', r, dead, next + 1, c);
    }
  }

  function LeaderOf(st: State, r: nat): nat
    requires |st.servers| > 0
  {
    Leader(|st.servers|, r)
  }

  // ---- ACK ----

  /** Waiting for a message of some later round, with nothing stashed. */
  predicate Resting(s: Server) {
    (s.pc == AwaitPropose(0) || s.pc == CollectPrepares(0, 0)) && !s.decided && s.stash == []
  }

  /** The leader waits for acknowledgements; followers below `j` have sent theirs and gone on. */
  ghost predicate Acking(st: State, r: nat, dead: int, j: nat, c: string) {
    var n := |st.servers|;
    && n > 0 && Leader(n, r) != dead
    && Fresh(st.servers[Leader(n, r)], r, CollectAcks(0, 0, 0)) && st.servers[Leader(n, r)].color == c
    && Packet(Leader(n, r), Leader(n, r), Ack(r, true)) in st.inflight
    && forall k: nat :: Live(n, dead, k) && k != Leader(n, r) ==>
         if k >= j then Fresh(st.servers[k], r, AwaitPropose(0)) && Packet(Leader(n, r), k, Propose(r, c)) in st.inflight
         else Resting(st.servers[k]) && Packet(k, Leader(n, r), Ack(r, true)) in st.inflight
  }

  lemma LeaderAcks(colors: seq<string>, run: seq<State>, r: nat, dead: int, c: string) returns (run': seq<State>)
    requires |run| > 0 && IsRun(colors, run)
    requires Proposing(Last(run), r, dead, |Last(run).servers|, AwaitPropose(0), c)
    ensures |run'| > 0 && IsRun(colors, run') && run <= run' && Frame(Last(run), Last(run'), dead)
    ensures Last(run').inbox == Last(run).inbox && Acking(Last(run'), r, dead, 0, c)
  {
    hide IsRun;
    var l := LeaderOf(Last(run), r);
    run' := Act(colors, run, Deliver(l, Packet(l, l, Propose(r, c))));
    run' := Act(colors, run', Local(l));
  }

  /** Server `k` has changed and nobody else, and nothing has left the network but `p`. */
  ghost predicate Alone(st: State, st': State, k: nat, p: Packet) {
    && k < |st.servers| == |st'.servers| && st'.inbox == st.inbox
    && (forall i :: 0 <= i < |st.servers| && i != k ==> st'.servers[i] == st.servers[i])
    && forall q :: q in st.inflight && q != p ==> q in st'.inflight
  }

  /** A follower gets the proposal, acknowledges it and goes on to the next round. */
  lemma FollowerAcks(colors: seq<string>, run: seq<State>, k: nat, r: nat, c: string) returns (run': seq<State>)
    requires |run| > 0 && IsRun(colors, run) && k < |Last(run).servers| && k != LeaderOf(Last(run), r)
    requires Fresh(Last(run).servers[k], r, AwaitPropose(0))
    requires Packet(LeaderOf(Last(run), r), k, Propose(r, c)) in Last(run).inflight
    ensures |run'| > 0 && IsRun(colors, run') && run <= run'
    ensures Alone(Last(run), Last(run'), k, Packet(LeaderOf(Last(run), r), k, Propose(r, c)))
    ensures Resting(Last(run').servers[k])
    ensures Packet(k, LeaderOf(Last(run), r), Ack(r, true)) in Last(run').inflight
  {
    hide IsRun;
    run' := Act(colors, run, Deliver(k, Packet(LeaderOf(Last(run), r), k, Propose(r, c))));
    run' := Act(colors, run', Local(k));
    run' := Act(colors, run', Local(k));
    run' := Act(colors, run', Local(k));
  }

  lemma AcksOne(st: State, st': State, r: nat, dead: int, j: nat, c: string)
    requires Acking(st, r, dead, j, c) && Live(|st.servers|, dead, j) && j != LeaderOf(st, r)
    requires Alone(st, st', j, Packet(LeaderOf(st, r), j, Propose(r, c))) && Resting(st'.servers[j])
    requires Packet(j, LeaderOf(st, r), Ack(r, true)) in st'.inflight
    ensures Acking(st', r, dead, j + 1, c) && Frame(st, st', dead)
  {
  }

  lemma {:induction false} Acks(colors: seq<string>, run: seq<State>, r: nat, dead: int, j: nat, c: string) returns (run': seq<State>)
    requires |run| > 0 && IsRun(colors, run) && j <= |Last(run).servers| && Acking(Last(run), r, dead, j, c)
    ensures |run'| > 0 && IsRun(colors, run') && run <= run' && Frame(Last(run), Last(run'), dead)
    ensures Last(run').inbox == Last(run).inbox && Acking(Last(run'), r, dead, |Last(run').servers|, c)
    decreases |Last(run).servers| - j
  {
    hide IsRun, Resting, Fresh;
    var st := Last(run);
    run' := run;
    if j < |st.servers| {
      if j != dead && j != LeaderOf(st, r) {
        assert Live(|st.servers|, dead, j);
        run' := FollowerAcks(colors, run, j, r, c);
        AcksOne(st, Last(run'), r, dead, j, c);
      }
      run' := Acks(colors, run', r, dead, j + 1, c);
    }
  }

  /** The leader has counted the acknowledgements of the servers below `j`, or has decided. */
  ghost predicate Tallying(st: State, r: nat, dead: int, j: nat, c: string) {
    var n := |st.servers|;
    && n > 0 && Leader(n, r) != dead && st.servers[Leader(n, r)].color == c
    && ((st.servers[Leader(n, r)].pc == TellNancy && st.servers[Leader(n, r)].decided)
        || (Count(dead, j) <= n / 2
            && Fresh(st.servers[Leader(n, r)], r, CollectAcks(Count(dead, j), Count(dead, j), 0))))
    && (forall k: nat :: Live(n, dead, k) && k != Leader(n, r) ==> Resting(st.servers[k]))
    && forall k: nat :: Live(n, dead, k) && k >= j ==> Packet(k, Leader(n, r), Ack(r, true)) in st.inflight
  }

  lemma TalliesOne(st: State, r: nat, dead: int, j: nat, c: string)
    requires Tallying(st, r, dead, j, c) && Live(|st.servers|, dead, j) && st.servers[LeaderOf(st, r)].pc.CollectAcks?
    ensures var e := Deliver(LeaderOf(st, r), Packet(j, LeaderOf(st, r), Ack(r, true)));
            && Enabled(st, e) && Tallying(Apply(st, e), r, dead, j + 1, c)
            && Frame(st, Apply(st, e), dead) && Apply(st, e).inbox == st.inbox
  {
  }

  lemma {:induction false} Tallies(colors: seq<string>, run: seq<State>, r: nat, dead: int, j: nat, c: string) returns (run': seq<State>)
    requires |run| > 0 && IsRun(colors, run) && j <= |Last(run).servers| && Tallying(Last(run), r, dead, j, c)
    ensures |run'| > 0 && IsRun(colors, run') && run <= run' && Frame(Last(run), Last(run'), dead)
    ensures Last(run').inbox == Last(run).inbox && Tallying(Last(run'), r, dead, |Last(run').servers|, c)
    decreases |Last(run).servers| - j
  {
    hide IsRun, Apply, Enabled, Resting;
    var st := Last(run);
    run' := run;
    if j < |st.servers| {
      if j != dead && st.servers[LeaderOf(st, r)].pc.CollectAcks? {
        TalliesOne(st, r, dead, j, c);
        run' := Act(colors, run, Deliver(LeaderOf(st, r), Packet(j, LeaderOf(st, r), Ack(r, true))));
      }
      run' := Tallies(colors, run', r, dead, j + 1, c);
    }
  }

  // ---- DECIDE ----

  predicate Done(s: Server, c: string) { s.decided && s.pc == Stopped && s.color == c }

  /** Server `i` tells the others from `next` on. */
  lemma {:induction false} TellsAll(colors: seq<string>, run: seq<State>, i: nat, next: nat) returns (run': seq<State>)
    requires |run| > 0 && IsRun(colors, run) && i < |Last(run).servers| && next <= |Last(run).servers|
    requires Last(run).servers[i].pc == TellAll(next) && Last(run).servers[i].decided
    ensures |run'| > 0 && IsRun(colors, run') && run <= run' && Last(run').inbox == Last(run).inbox
    ensures Last(run').servers == Last(run).servers[i := Last(run).servers[i].(pc := Stopped)]
    ensures Last(run).inflight <= Last(run').inflight
    ensures forall d: nat :: next <= d < |Last(run).servers| && d != i ==>
              Packet(i, d, Decide(Last(run).servers[i].color)) in Last(run').inflight
    decreases |Last(run).servers| - next
  {
    hide IsRun;
    run' := Act(colors, run, Local(i));
    if next < |Last(run).servers| {
      run' := TellsAll(colors, run', i, next + 1);
    }
  }

  /** A server that has decided tells everybody and stops. */
  lemma Announces(colors: seq<string>, run: seq<State>, i: nat) returns (run': seq<State>)
    requires |run| > 0 && IsRun(colors, run) && i < |Last(run).servers|
    requires Last(run).servers[i].pc == TellNancy && Last(run).servers[i].decided
    ensures |run'| > 0 && IsRun(colors, run') && run <= run' && Last(run').inbox == Last(run).inbox
    ensures Last(run').servers == Last(run).servers[i := Last(run).servers[i].(pc := Stopped)]
    ensures Last(run).inflight <= Last(run').inflight
    ensures Packet(i, NANCY, Decide(Last(run).servers[i].color)) in Last(run').inflight
    ensures forall d: nat :: d < |Last(run).servers| && d != i ==>
              Packet(i, d, Decide(Last(run).servers[i].color)) in Last(run').inflight
  {
    hide IsRun;
    run' := Act(colors, run, Local(i));
    run' := TellsAll(colors, run', i, 0);
  }

  /** Having decided, a server gets out of the quorum it was waiting for. */
  lemma {:induction false} GetsOut(colors: seq<string>, run: seq<State>, i: nat) returns (run': seq<State>)
    requires |run| > 0 && IsRun(colors, run) && i < |Last(run).servers| && Last(run).servers[i].decided
    requires var pc := Last(run).servers[i].pc;
             pc.AwaitPropose? || (pc.CollectPrepares? && pc.received <= |Last(run).servers| / 2)
    ensures |run'| > 0 && IsRun(colors, run') && run <= run' && Last(run').inbox == Last(run).inbox
    ensures |Last(run').servers| == |Last(run).servers| && Last(run').inflight == Last(run).inflight
    ensures forall k :: 0 <= k < |Last(run).servers| && k != i ==> Last(run').servers[k] == Last(run).servers[k]
    ensures var s := Last(run').servers[i]; s.decided && s.pc == TellNancy && s.color == Last(run).servers[i].color
    decreases |Last(run).servers| - if Last(run).servers[i].pc.CollectPrepares? then Last(run).servers[i].pc.received else 0
  {
    hide IsRun;
    run' := Act(colors, run, Local(i));
    if Last(run').servers[i].pc.CollectPrepares? {
      run' := GetsOut(colors, run', i);
    }
  }

  /** A follower hears of the decision. */
  lemma FollowerDecides(colors: seq<string>, run: seq<State>, k: nat, p: Packet) returns (run': seq<State>)
    requires |run| > 0 && IsRun(colors, run) && k < |Last(run).servers| && Resting(Last(run).servers[k])
    requires p in Last(run).inflight && p.dst == k && p.msg.Decide?
    ensures |run'| > 0 && IsRun(colors, run') && run <= run'
    ensures Alone(Last(run), Last(run'), k, p) && Done(Last(run').servers[k], p.msg.color)
    ensures Packet(k, NANCY, p.msg) in Last(run').inflight
  {
    hide IsRun;
    run' := Act(colors, run, Deliver(k, p));
    run' := GetsOut(colors, run', k);
    run' := Announces(colors, run', k);
  }

  /** The leader and the servers below `j` have decided. */
  ghost predicate Spreading(st: State, l: nat, dead: int, j: nat, c: string) {
    && l < |st.servers| && l != dead
    && forall k: nat :: Live(|st.servers|, dead, k) ==>
         if k == l || k < j then Done(st.servers[k], c) && Packet(k, NANCY, Decide(c)) in st.inflight
         else Resting(st.servers[k]) && Packet(l, k, Decide(c)) in st.inflight
  }

  lemma SpreadsOne(st: State, st': State, l: nat, dead: int, j: nat, c: string)
    requires Spreading(st, l, dead, j, c) && Live(|st.servers|, dead, j) && j != l
    requires Alone(st, st', j, Packet(l, j, Decide(c))) && Done(st'.servers[j], c)
    requires Packet(j, NANCY, Decide(c)) in st'.inflight
    ensures Spreading(st', l, dead, j + 1, c) && Frame(st, st', dead)
  {
  }

  lemma {:induction false} Spreads(colors: seq<string>, run: seq<State>, l: nat, dead: int, j: nat, c: string) returns (run': seq<State>)
    requires |run| > 0 && IsRun(colors, run) && j <= |Last(run).servers| && Spreading(Last(run), l, dead, j, c)
    ensures |run'| > 0 && IsRun(colors, run') && run <= run' && Frame(Last(run), Last(run'), dead)
    ensures Last(run').inbox == Last(run).inbox && Spreading(Last(run'), l, dead, |Last(run').servers|, c)
    decreases |Last(run).servers| - j
  {
    hide IsRun, Resting, Done;
    var st := Last(run);
    run' := run;
    if j < |st.servers| {
      if j != dead && j != l {
        assert Live(|st.servers|, dead, j);
        run' := FollowerDecides(colors, run, j, Packet(l, j, Decide(c)));
        SpreadsOne(st, Last(run'), l, dead, j, c);
      }
      run' := Spreads(colors, run', l, dead, j + 1, c);
    }
  }

  // ---- Nancy ----

  /** Everybody has decided, and the reports of the servers from `j` on are on their way. */
  ghost predicate Reporting(st: State, dead: int, j: nat, c: string) {
    forall k: nat :: Live(|st.servers|, dead, k) ==>
      Done(st.servers[k], c) && (k >= j ==> Packet(k, NANCY, Decide(c)) in st.inflight)
  }

  lemma {:induction false} Reports(colors: seq<string>, run: seq<State>, dead: int, j: nat, c: string) returns (run': seq<State>)
    requires |run| > 0 && IsRun(colors, run) && 0 < |Last(run).servers| && j <= |Last(run).servers|
    requires Reporting(Last(run), dead, j, c)
    ensures |run'| > 0 && IsRun(colors, run') && run <= run' && Last(run').servers == Last(run).servers
    ensures Last(run).inbox <= Last(run').inbox
    ensures |Last(run').inbox| == |Last(run).inbox| + Count(dead, |Last(run).servers|) - Count(dead, j)
    ensures forall i :: |Last(run).inbox| <= i < |Last(run').inbox| ==> Last(run').inbox[i].msg == Decide(c)
    decreases |Last(run).servers| - j
  {
    hide IsRun, Done;
    run' := run;
    if j < |Last(run).servers| {
      if j != dead {
        assert Live(|Last(run).servers|, dead, j);
        run' := Act(colors, run, NancyGets(Packet(j, NANCY, Decide(c))));
      }
      run' := Reports(colors, run', dead, j + 1, c);
    }
  }

  // ---- the whole run ----

  lemma AtLeastOne(st: State, r: nat, dead: int)
    requires Preparing(st, r, dead, 0)
    ensures |st.servers| > 0
  {
  }

  lemma Prepared(st: State, r: nat, dead: int)
    requires Preparing(st, r, dead, |st.servers|)
    ensures Counting(st, r, dead, 0)
  {
    assert Live(|st.servers|, dead, LeaderOf(st, r));
  }

  lemma Counted(st: State, r: nat, dead: int)
    requires Counting(st, r, dead, |st.servers|) && Count(dead, |st.servers|) > |st.servers| / 2
    ensures Proposing(st, r, dead, 0, SendProposes(0), st.servers[LeaderOf(st, r)].color)
  {
  }

  lemma Acked(st: State, r: nat, dead: int, c: string)
    requires Acking(st, r, dead, |st.servers|, c)
    ensures Tallying(st, r, dead, 0, c)
  {
  }

  lemma Tallied(st: State, r: nat, dead: int, c: string)
    requires Tallying(st, r, dead, |st.servers|, c) && Count(dead, |st.servers|) > |st.servers| / 2
    ensures var s := st.servers[LeaderOf(st, r)]; s.pc == TellNancy && s.decided && s.color == c
  {
  }

  lemma Announced(st: State, st': State, r: nat, dead: int, c: string)
    requires Tallying(st, r, dead, |st.servers|, c) && st.servers[LeaderOf(st, r)].decided
    requires var l := LeaderOf(st, r);
             && st'.servers == st.servers[l := st.servers[l].(pc := Stopped)]
             && Packet(l, NANCY, Decide(c)) in st'.inflight
             && forall d: nat :: d < |st.servers| && d != l ==> Packet(l, d, Decide(c)) in st'.inflight
    ensures Spreading(st', LeaderOf(st, r), dead, 0, c) && Frame(st, st', dead)
  {
  }

  lemma Spread(st: State, l: nat, dead: int, c: string)
    requires Spreading(st, l, dead, |st.servers|, c)
    ensures Reporting(st, dead, 0, c)
  {
  }

  /** A round in which a majority takes part can end with all of them decided and Nancy told by each. */
  lemma RoundDecides(colors: seq<string>, run: seq<State>, r: nat, dead: int) returns (run': seq<State>, c: string)
    requires |run| > 0 && IsRun(colors, run) && Preparing(Last(run), r, dead, 0)
    requires Count(dead, |Last(run).servers|) > |Last(run).servers| / 2
    ensures |run'| > 0 && IsRun(colors, run') && run <= run' && Frame(Last(run), Last(run'), dead)
    ensures forall k: nat :: Live(|Last(run').servers|, dead, k) ==> Done(Last(run').servers[k], c)
    ensures Last(run).inbox <= Last(run').inbox
    ensures |Last(run').inbox| == |Last(run).inbox| + Count(dead, |Last(run).servers|)
    ensures forall i :: |Last(run).inbox| <= i < |Last(run').inbox| ==> Last(run').inbox[i].msg == Decide(c)
  {
    hide IsRun, Counting, Proposing, Acking, Tallying, Spreading, HasPrepare, Fresh, Done;
    AtLeastOne(Last(run), r, dead);
    var l := LeaderOf(Last(run), r);
    run' := Prepares(colors, run, r, dead, 0);
    Prepared(Last(run'), r, dead);
    run' := Collects(colors, run', r, dead, 0);
    Counted(Last(run'), r, dead);
    c := Last(run').servers[l].color;
    run' := Proposes(colors, run', r, dead, 0, c);
    run' := LeaderAcks(colors, run', r, dead, c);
    run' := Acks(colors, run', r, dead, 0, c);
    Acked(Last(run'), r, dead, c);
    run' := Tallies(colors, run', r, dead, 0, c);
    Tallied(Last(run'), r, dead, c);
    var st := Last(run');
    run' := Announces(colors, run', l);
    Announced(st, Last(run'), r, dead, c);
    run' := Spreads(colors, run', l, dead, 0, c);
    Spread(Last(run'), l, dead, c);
    run' := Reports(colors, run', dead, 0, c);
  }

  /** From any initial colours, for any number of servers, there is a run in which all servers decide the same
      colour and Nancy hears it from every one of them. */
  lemma EverybodyDecides(colors: seq<string>) returns (run: seq<State>, c: string)
    requires |colors| > 0
    ensures |run| > 0 && IsRun(colors, run) && |Last(run).servers| == |colors|
    ensures forall k :: 0 <= k < |colors| ==> Done(Last(run).servers[k], c)
    ensures |Last(run).inbox| == |colors| && forall i :: 0 <= i < |colors| ==> Last(run).inbox[i].msg == Decide(c)
  {
    var st := State(seq(|colors|, i requires 0 <= i < |colors| => InitServer(colors[i])), {}, {}, {}, []);
    assert IsRun(colors, [st]);
    hide IsRun;
    run, c := RoundDecides(colors, [st], 1, -1);
    assert forall k: nat :: k < |colors| ==> Live(|colors|, -1, k);
  }

  // ---- a server that stops ----

  /** Servers below `j` have given up on round 1. */
  ghost predicate GivingUp(st: State, dead: int, j: nat) {
    forall k: nat :: Live(|st.servers|, dead, k) ==>
      Fresh(st.servers[k], if k < j then 2 else 1, StartRound)
  }

  lemma {:induction false} GiveUp(colors: seq<string>, run: seq<State>, dead: int, j: nat) returns (run': seq<State>)
    requires |run| > 0 && IsRun(colors, run) && 0 < |Last(run).servers| && j <= |Last(run).servers|
    requires GivingUp(Last(run), dead, j) && Leader(|Last(run).servers|, 1) == dead
    ensures |run'| > 0 && IsRun(colors, run') && run <= run' && Frame(Last(run), Last(run'), dead)
    ensures Last(run').inbox == Last(run).inbox && GivingUp(Last(run'), dead, |Last(run').servers|)
    decreases |Last(run).servers| - j
  {
    hide IsRun;
    run' := run;
    if j < |Last(run).servers| {
      if j != dead {
        assert Live(|Last(run).servers|, dead, j);
        run' := GivesUp(colors, run, j);
      }
      run' := GiveUp(colors, run', dead, j + 1);
    }
  }

  /** A follower waits for a proposal in vain and starts the second round. */
  lemma GivesUp(colors: seq<string>, run: seq<State>, k: nat) returns (run': seq<State>)
    requires |run| > 0 && IsRun(colors, run) && k < |Last(run).servers| && k != LeaderOf(Last(run), 1)
    requires Fresh(Last(run).servers[k], 1, StartRound)
    ensures |run'| > 0 && IsRun(colors, run') && run <= run' && Last(run').inbox == Last(run).inbox
    ensures |Last(run').servers| == |Last(run).servers| && Fresh(Last(run').servers[k], 2, StartRound)
    ensures forall i :: 0 <= i < |Last(run).servers| && i != k ==> Last(run').servers[i] == Last(run).servers[i]
  {
    hide IsRun;
    run' := Act(colors, run, Local(k));
    run' := Act(colors, run', Expire(k));
    run' := Act(colors, run', Local(k));
    run' := Act(colors, run', Local(k));
  }

  /** Any one of three servers or more may stop before its first step: there is still a run in which all the
      others decide the same colour and Nancy hears it from a majority. */
  lemma OthersDecide(colors: seq<string>, dead: nat) returns (run: seq<State>, c: string)
    requires |colors| >= 3 && dead < |colors|
    ensures |run| > 0 && IsRun(colors, run) && |Last(run).servers| == |colors|
    ensures Last(run).servers[dead] == InitServer(colors[dead])
    ensures forall k :: 0 <= k < |colors| && k != dead ==> Done(Last(run).servers[k], c)
    ensures |Last(run).inbox| == |colors| - 1 && forall i :: 0 <= i < |colors| - 1 ==> Last(run).inbox[i].msg == Decide(c)
  {
    var n := |colors|;
    var st := State(seq(n, i requires 0 <= i < n => InitServer(colors[i])), {}, {}, {}, []);
    run := [st];
    assert IsRun(colors, run);
    hide IsRun;
    var r := 1;
    if Leader(n, 1) == dead {
      run := GiveUp(colors, run, dead, 0);
      r := 2;
    }
    run, c := RoundDecides(colors, run, r, dead);
    assert forall k: nat :: k < n && k != dead ==> Live(n, dead, k);
  }
}
