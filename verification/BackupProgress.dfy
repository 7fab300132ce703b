/** What the replicated service can do: whatever has been lost so far, every request can be answered. */
module BackupProgress {
  import opened Pancydb
  import opened BackupSystem
  import opened BackupProof

  ghost function Last(run: seq<State>): State
    requires |run| > 0
  {
    run[|run| - 1]
  }

  lemma Act(run: seq<State>, e: Event) returns (run': seq<State>)
    requires |run| > 0 && IsRun(run) && Enabled(Last(run), e)
    ensures |run'| > 0 && IsRun(run') && run <= run' && Last(run') == Apply(Last(run), e)
  {
    hide Apply, Enabled;
    run' := run + [Apply(Last(run), e)];
    forall k | 0 <= k < |run'| - 1 ensures Next(run'[k], run'[k + 1]) {
      if k < |run| - 1 { assert Next(run[k], run[k + 1]); }
    }
  }

  /** One more request has been answered, and nothing else has happened to the answers. */
  ghost predicate Answered(st: State, st': State, cmd: Command) {
    && |st'.replies| == |st.replies| + 1 && st.replies <= st'.replies
    && st'.replies[|st.replies|].cmd == cmd
  }

  /** As long as the backup has not taken over, the primary can get an answer to the request it is working on,
      whatever copies and acknowledgements have been lost or repeated. */
  lemma CanFinish(run: seq<State>) returns (run': seq<State>)
    requires |run| > 0 && IsRun(run) && !Last(run).promoted && !Last(run).primary.Idle?
    ensures |run'| > 0 && IsRun(run') && run <= run' && !Last(run').promoted && Last(run').primary.Idle?
    ensures Answered(Last(run), Last(run'), Last(run).primary.cmd)
    ensures var st, st' := Last(run), Last(run');
            && st'.applied == st.applied + [st.primary.cmd] && st'.replies[|st.replies|].pos == |st.applied|
            && st'.log == (if st.serial == st.expected then st.log else st.log + [st.primary.cmd])
  {
    hide IsRun, Process;
    InStep(run, |run| - 1);
    run' := run;
    if Last(run').primary.Waiting? {
      run' := Act(run', Expire);
    }
    var n, cmd := Last(run).serial, Last(run).primary.cmd;
    run' := Act(run', Send);
    run' := Act(run', Deliver(Forward(n, cmd)));
    run' := Act(run', Acknowledged(n));
  }

  /** From every reachable state a new request can be answered: by the primary, once it is through with what
      it is working on, and by the backup when that has taken over. */
  lemma CanAnswer(run: seq<State>, cmd: Command) returns (run': seq<State>)
    requires |run| > 0 && IsRun(run)
    ensures |run'| > 0 && IsRun(run') && run <= run' && Last(run).replies < Last(run').replies
    ensures Last(run').replies[|Last(run').replies| - 1].cmd == cmd
    ensures Last(run').promoted == Last(run).promoted
  {
    hide IsRun, Process;
    run' := run;
    if Last(run).promoted {
      run' := Act(run', Serve(cmd, |Last(run').replies|));
    } else {
      if !Last(run).primary.Idle? {
        run' := CanFinish(run');
      }
      run' := Act(run', Take(cmd, |Last(run').replies|));
      run' := CanFinish(run');
    }
  }

  /** The requests `cmds` have been answered in order and nothing else has been applied anywhere. */
  ghost predicate Through(st: State, cmds: seq<Command>) {
    && st.log == cmds && |st.replies| == |cmds|
    && forall i :: 0 <= i < |cmds| ==> st.replies[i].cmd == cmds[i] && st.replies[i].pos == i
  }

  lemma {:induction false} PrimaryServes(cmds: seq<Command>) returns (run: seq<State>)
    ensures |run| > 0 && IsRun(run) && Through(Last(run), cmds) && Last(run).applied == cmds
    ensures !Last(run).promoted && Last(run).primary.Idle? && Last(run).serial == Last(run).expected
  {
    if cmds == [] {
      run := [START];
    } else {
      var n := |cmds| - 1;
      run := PrimaryServes(cmds[..n]);
      hide IsRun, Process;
      run := Act(run, Take(cmds[n], |Last(run).replies|));
      run := CanFinish(run);
      assert cmds[..n] + [cmds[n]] == cmds;
      IdleInStep(run);
    }
  }

  lemma IdleInStep(run: seq<State>)
    requires |run| > 0 && IsRun(run)
    ensures Last(run).primary.Idle? ==> Last(run).serial == Last(run).expected
  {
    RunInv(run, |run| - 1);
    CountsNow(Last(run));
  }

  lemma {:induction false} BackupServes(run: seq<State>, before: seq<Command>, cmds: seq<Command>) returns (run': seq<State>)
    requires |run| > 0 && IsRun(run) && Last(run).promoted && Through(Last(run), before)
    ensures |run'| > 0 && IsRun(run') && run <= run' && Through(Last(run'), before + cmds)
  {
    if cmds == [] {
      run' := run;
      assert before + cmds == before;
    } else {
      var n := |cmds| - 1;
      run' := BackupServes(run, before, cmds[..n]);
      StillPromoted(run, run');
      hide IsRun, Process;
      run' := Act(run', Serve(cmds[n], |Last(run').replies|));
      assert before + cmds[..n] + [cmds[n]] == before + cmds;
    }
  }

  lemma StillPromoted(run: seq<State>, run': seq<State>)
    requires |run| > 0 && IsRun(run') && run <= run' && Last(run).promoted
    ensures Last(run').promoted
  {
    StaysPromoted(run', |run| - 1, |run'| - 1);
  }

  /** Any requests can be served, some before and some after the backup takes over, and each is then answered
      as a single server would that serves them in this order. */
  lemma ServesAll(before: seq<Command>, after: seq<Command>) returns (run: seq<State>)
    ensures |run| > 0 && IsRun(run) && Through(Last(run), before + after)
    ensures forall i :: 0 <= i < |before + after| ==>
              Last(run).replies[i].body == Process(Replay((before + after)[..i]), (before + after)[i].body).1
  {
    run := PrimaryServes(before);
    run := Act(run, Promote);
    run := BackupServes(run, before, after);
    OneHistory(run, |run| - 1);
    hide IsRun, Process, Replay;
    forall i | 0 <= i < |before + after|
      ensures Last(run).replies[i].body == Process(Replay((before + after)[..i]), (before + after)[i].body).1
    {
      assert Answers(Last(run).log, Last(run).replies[i]);
    }
  }
}
