/** Primary-backup replication on channels that do not keep order, where the backup's assertion can fail. */
module BackupReordering {
  import opened Pancydb
  import opened BackupSystem

  /** The same system where every message sent arrives once, but one may overtake another. */
  datatype Loose = Loose(st: State, toBackup: multiset<Forward>, toPrimary: multiset<nat>)

  const START_LOOSE: Loose := Loose(START, multiset{}, multiset{})

  predicate LooseEnabled(w: Loose, e: Event) {
    && Enabled(w.st, e)
    && (e.Deliver? ==> e.m in w.toBackup)
    && (e.Acknowledged? ==> e.n in w.toPrimary)
  }

  function LooseApply(w: Loose, e: Event): Loose
    requires LooseEnabled(w, e)
  {
    var st := Apply(w.st, e);
    match e
    case Send => Loose(st, w.toBackup + multiset{Forward(w.st.serial, w.st.primary.cmd)}, w.toPrimary)
    case Deliver(m) => Loose(st, w.toBackup - multiset{m}, w.toPrimary + multiset{st.expected})
    case Acknowledged(n) => Loose(st, w.toBackup, w.toPrimary - multiset{n})
    case _ => w.(st := st)
  }

  ghost predicate LooseNext(w: Loose, w': Loose) {
    exists e :: LooseEnabled(w, e) && w' == LooseApply(w, e)
  }

  ghost predicate IsLooseRun(run: seq<Loose>) {
    |run| > 0 && run[0] == START_LOOSE && forall k :: 0 <= k < |run| - 1 ==> LooseNext(run[k], run[k + 1])
  }

  ghost function Last(run: seq<Loose>): Loose
    requires |run| > 0
  {
    run[|run| - 1]
  }

  lemma Longer(run: seq<Loose>, e: Event)
    requires IsLooseRun(run) && LooseEnabled(Last(run), e)
    ensures IsLooseRun(run + [LooseApply(Last(run), e)])
    ensures Last(run + [LooseApply(Last(run), e)]) == LooseApply(Last(run), e)
  {
    hide LooseApply;
    var run' := run + [LooseApply(Last(run), e)];
    forall k | 0 <= k < |run'| - 1 ensures LooseNext(run'[k], run'[k + 1]) {
      if k < |run| - 1 { assert LooseNext(run[k], run[k + 1]); }
    }
  }

  /** A request sent twice; the first copy is delivered and acknowledged. */
  lemma SentTwice(c: Command) returns (run: seq<Loose>)
    ensures |run| > 0 && IsLooseRun(run) && Forward(1, c) in Last(run).toBackup && Forward(1, c) in Last(run).st.p2b
    ensures var st := Last(run).st; st.serial == 1 == st.expected && st.primary.Idle? && !st.promoted && |st.replies| == 1
  {
    hide Process, IsLooseRun;
    run := OneSend(c);
    Longer(run, Expire);
    run := run + [LooseApply(Last(run), Expire)];
    Longer(run, Send);
    run := run + [LooseApply(Last(run), Send)];
    Longer(run, Deliver(Forward(1, c)));
    run := run + [LooseApply(Last(run), Deliver(Forward(1, c)))];
    Longer(run, Acknowledged(1));
    run := run + [LooseApply(Last(run), Acknowledged(1))];
  }

  lemma OneSend(c: Command) returns (run: seq<Loose>)
    ensures |run| > 0 && IsLooseRun(run) && Last(run).toBackup == multiset{Forward(1, c)} && Last(run).toPrimary == multiset{}
    ensures Last(run).st == START.(serial := 1, primary := Waiting(c, 0), p2b := {Forward(1, c)})
  {
    run := [START_LOOSE];
    Longer(run, Take(c, 0));
    run := run + [LooseApply(Last(run), Take(c, 0))];
    Longer(run, Send);
    run := run + [LooseApply(Last(run), Send)];
  }

  /** The next request overtakes the second copy. */
  lemma Overtaken(c: Command, d: Command) returns (run: seq<Loose>)
    ensures |run| > 0 && IsLooseRun(run) && Forward(1, c) in Last(run).toBackup && Forward(1, c) in Last(run).st.p2b
    ensures Last(run).st.expected == 2 && !Last(run).st.promoted
  {
    hide Process, IsLooseRun;
    run := SentTwice(c);
    Longer(run, Take(d, 1));
    run := run + [LooseApply(Last(run), Take(d, 1))];
    Longer(run, Send);
    run := run + [LooseApply(Last(run), Send)];
    Longer(run, Deliver(Forward(2, d)));
    run := run + [LooseApply(Last(run), Deliver(Forward(2, d)))];
  }

  /** Where order is not kept, it fails even though every message arrives exactly once: the primary gives
      up waiting and sends again, the first copy is acknowledged, and the second is overtaken by the next
      request.  The first request has been answered all the same. */
  lemma ReorderingBreaks(c: Command, d: Command)
    ensures exists run: seq<Loose> :: IsLooseRun(run) && Last(run).st.broken
  {
    hide Process;
    var run := Overtaken(c, d);
    Longer(run, Deliver(Forward(1, c)));
    var run' := run + [LooseApply(Last(run), Deliver(Forward(1, c)))];
    assert IsLooseRun(run') && Last(run').st.broken;
  }
}
