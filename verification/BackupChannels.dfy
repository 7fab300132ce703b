/**
 What the replicated service can do on the program's own channels: whatever they have lost and still carry,
 a request can be answered.
 */
module BackupChannels {
  import opened Pancydb
  import opened BackupSystem
  import opened BackupProof

  ghost function Last(run: seq<Wired>): Wired
    requires |run| > 0
  {
    run[|run| - 1]
  }

  lemma Act(run: seq<Wired>, e: Event, lost: bool) returns (run': seq<Wired>)
    requires |run| > 0 && IsWiredRun(run) && WiredEnabled(Last(run), e)
    ensures |run'| > 0 && IsWiredRun(run') && run <= run' && Last(run') == WiredApply(Last(run), e, lost)
  {
    hide WiredApply, WiredEnabled;
    run' := run + [WiredApply(Last(run), e, lost)];
    forall k | 0 <= k < |run'| - 1 ensures WiredNext(run'[k], run'[k + 1]) {
      if k < |run| - 1 { assert WiredNext(run[k], run[k + 1]); }
    }
  }

  /** What is on its way was sent, and the backup is at most one request behind. */
  lemma Standing(run: seq<Wired>)
    requires |run| > 0 && IsWiredRun(run)
    ensures var w := Last(run);
            && (w.toBackup != [] ==> w.toBackup[0] in w.st.p2b)
            && (w.toPrimary != [] ==> w.toPrimary[0] in w.st.b2p)
            && (!w.st.promoted && !w.st.primary.Idle? ==> w.st.expected <= w.st.serial <= w.st.expected + 1)
  {
    AssertionHolds(run, |run| - 1);
    CountsNow(Last(run).st);
  }

  /** The primary still works on the same request, and no answer has been given. */
  ghost predicate SameTask(st: State, st': State) {
    && !st.primary.Idle? && !st'.primary.Idle? && st'.primary.cmd == st.primary.cmd
    && !st'.promoted && st'.replies == st.replies
    && st'.serial == st.serial && st'.applied == st.applied
  }

  /** The backup takes all that is on its way to it; its acknowledgements get lost. */
  lemma {:induction false} EmptyToBackup(run: seq<Wired>) returns (run': seq<Wired>)
    requires |run| > 0 && IsWiredRun(run) && !Last(run).st.promoted && !Last(run).st.primary.Idle?
    ensures |run'| > 0 && IsWiredRun(run') && run <= run' && SameTask(Last(run).st, Last(run').st)
    ensures Last(run').toBackup == []
    decreases |Last(run).toBackup|
  {
    hide IsWiredRun, Process;
    run' := run;
    if Last(run).toBackup != [] {
      Standing(run);
      run' := Act(run, Deliver(Last(run).toBackup[0]), true);
      run' := EmptyToBackup(run');
    }
  }

  /** One more request has been answered. */
  ghost predicate Answered(st: State, st': State, cmd: Command) {
    && |st'.replies| == |st.replies| + 1 && st.replies <= st'.replies && st'.replies[|st.replies|].cmd == cmd
    && !st'.promoted && st'.primary.Idle? && st'.applied == st.applied + [cmd]
  }

  /** The primary hears all that is on its way to it, and sends in vain in between; it may be answered. */
  lemma {:induction false} EmptyToPrimary(run: seq<Wired>) returns (run': seq<Wired>)
    requires |run| > 0 && IsWiredRun(run) && !Last(run).st.promoted && !Last(run).st.primary.Idle?
    requires Last(run).toBackup == []
    ensures |run'| > 0 && IsWiredRun(run') && run <= run'
    ensures || Answered(Last(run).st, Last(run').st, Last(run).st.primary.cmd)
            || (SameTask(Last(run).st, Last(run').st) && Last(run').toBackup == [] && Last(run').toPrimary == []
                && Last(run').st.primary.Sending?)
    decreases |Last(run).toPrimary|
  {
    hide IsWiredRun, Process;
    run' := run;
    if Last(run').st.primary.Sending? {
      run' := Act(run', Send, true);
    }
    Standing(run');
    if Last(run').toPrimary == [] {
      run' := Act(run', Expire, true);
    } else {
      run' := Act(run', Acknowledged(Last(run').toPrimary[0]), true);
      if !Last(run').st.primary.Idle? {
        run' := EmptyToPrimary(run');
      }
    }
  }

  /** The primary can get the answer to what it is working on as long as the backup has not taken over: an
      exchange that nothing disturbs is enough, be it the first or a repeated one. */
  lemma CanFinish(run: seq<Wired>) returns (run': seq<Wired>)
    requires |run| > 0 && IsWiredRun(run) && !Last(run).st.promoted && !Last(run).st.primary.Idle?
    ensures |run'| > 0 && IsWiredRun(run') && run <= run'
    ensures Answered(Last(run).st, Last(run').st, Last(run).st.primary.cmd)
  {
    hide IsWiredRun, Process;
    run' := EmptyToBackup(run);
    run' := EmptyToPrimary(run');
    if !Last(run').st.primary.Idle? {
      Standing(run');
      var n, cmd := Last(run').st.serial, Last(run').st.primary.cmd;
      run' := Act(run', Send, false);
      run' := Act(run', Deliver(Forward(n, cmd)), false);
      run' := Act(run', Acknowledged(n), true);
    }
  }

  /** From every reachable state of the program's channels a new request can be answered, by the primary or,
      when it has taken over, by the backup. */
  lemma CanAnswer(run: seq<Wired>, cmd: Command) returns (run': seq<Wired>)
    requires |run| > 0 && IsWiredRun(run)
    ensures |run'| > 0 && IsWiredRun(run') && run <= run' && Last(run).st.replies < Last(run').st.replies
    ensures Last(run').st.replies[|Last(run').st.replies| - 1].cmd == cmd
    ensures Last(run').st.promoted == Last(run).st.promoted
  {
    hide IsWiredRun, Process;
    run' := run;
    if Last(run).st.promoted {
      run' := Act(run', Serve(cmd, |Last(run').st.replies|), true);
    } else {
      if !Last(run).st.primary.Idle? {
        run' := CanFinish(run');
      }
      run' := Act(run', Take(cmd, |Last(run').st.replies|), true);
      run' := CanFinish(run');
    }
  }

  // ---- one wait, one send ----

  /** The primary sends its request between steps `i` and `i + 1`. */
  ghost predicate Sends(run: seq<Wired>, i: nat) {
    && i + 1 < |run|
    && var st, st' := run[i].st, run[i + 1].st;
       st.primary.Sending? && st'.primary == Waiting(st.primary.cmd, st.primary.taken)
       && Forward(st.serial, st.primary.cmd) in st'.p2b
  }

  lemma ToWaiting(w: Wired, w': Wired)
    requires WiredNext(w, w') && !w.st.primary.Waiting? && w'.st.primary.Waiting?
    ensures w.st.primary.Sending? && w'.st.primary == Waiting(w.st.primary.cmd, w.st.primary.taken)
    ensures Forward(w.st.serial, w.st.primary.cmd) in w'.st.p2b
  {
    hide Process;
  }

  lemma Heard(w: Wired, w': Wired)
    requires WiredNext(w, w') && |w'.toPrimary| < |w.toPrimary|
    ensures w.st.primary.Waiting? && !w'.st.primary.Waiting?
  {
    hide Process;
  }

  lemma {:induction false} WaitsAfterSend(run: seq<Wired>, j: nat, k: nat)
    requires IsWiredRun(run) && j < k < |run| && !run[j].st.primary.Waiting? && run[k].st.primary.Waiting?
    ensures exists i: nat :: j <= i < k && Sends(run, i)
    decreases k
  {
    assert WiredNext(run[k - 1], run[k - 1 + 1]);
    if run[k - 1].st.primary.Waiting? {
      WaitsAfterSend(run, j, k - 1);
    } else {
      ToWaiting(run[k - 1], run[k]);
      assert Sends(run, k - 1);
    }
  }

  /** The primary hears at most one message for every time it sends its request: an acknowledgement that is
      not the right one makes it send again. */
  lemma OneWaitOneSend(run: seq<Wired>, j: nat, k: nat)
    requires IsWiredRun(run) && j < k < |run| - 1
    requires |run[j + 1].toPrimary| < |run[j].toPrimary| && |run[k + 1].toPrimary| < |run[k].toPrimary|
    ensures exists i: nat :: j < i < k && Sends(run, i)
  {
    assert WiredNext(run[j], run[j + 1]) && WiredNext(run[k], run[k + 1]);
    Heard(run[j], run[j + 1]);
    Heard(run[k], run[k + 1]);
    WaitsAfterSend(run, j + 1, k);
  }
}
