/**
 What clients of the database see.  Requests and answers alone say what every key holds at any moment, and
 every answer is the right one for that: the database is a store of registers with versions.
 */
module PancyTrace {
  import opened Pancydb

  function Answers(h: seq<Db>, reqs: seq<Request>): (r: seq<Response>)
    requires |h| == |reqs| + 1
    ensures |r| == |reqs|
  {
    seq(|reqs|, i requires 0 <= i < |reqs| => Process(h[i], reqs[i]).1)
  }

  /** A modification that has been answered with success. */
  predicate Modifies(req: Request, ans: Response) {
    !req.Get? && ans.errc == Ok
  }

  function NewValue(req: Request): string
    requires req.Put? || req.Cas?
  {
    if req.Put? then req.value else req.desired
  }

  /** What `key` holds after the first `n` requests, by the last successful modification among them. */
  function Current(reqs: seq<Request>, answers: seq<Response>, n: nat, key: string): VV
    requires n <= |reqs| == |answers|
  {
    if n == 0 then ABSENT
    else
      var req, ans := reqs[n - 1], answers[n - 1];
      if req.key != key || !Modifies(req, ans) then Current(reqs, answers, n - 1, key)
      else if req.Remove? then ABSENT
      else VV(NewValue(req), ans.version)
  }

  lemma StepHolds(db: Db, req: Request, key: string)
    requires Valid(db)
    ensures var (db', ans) := Process(db, req);
            Find(db', key) == if req.key != key || !Modifies(req, ans) then Find(db, key)
                              else if req.Remove? then ABSENT
                              else VV(NewValue(req), ans.version)
  {
  }

  lemma {:induction false} CurrentIs(h: seq<Db>, reqs: seq<Request>, n: nat, key: string)
    requires IsHistory(h, reqs) && n <= |reqs|
    ensures Find(h[n], key) == Current(reqs, Answers(h, reqs), n, key)
  {
    hide Process, Find, Modifies, Valid;
    if n == 0 {
      EmptyHolds(key);
    } else {
      CurrentIs(h, reqs, n - 1, key);
      HistoryValid(h, reqs, n - 1);
      assert h[n - 1 + 1] == Process(h[n - 1], reqs[n - 1]).0;
      StepHolds(h[n - 1], reqs[n - 1], key);
    }
  }

  lemma EmptyHolds(key: string)
    ensures Find(EMPTY, key) == ABSENT
  {
  }

  /** The right answer to `req` about a key that holds `cur`: success exactly if value and version match, and
      otherwise what the key holds. */
  predicate Right(req: Request, ans: Response, cur: VV) {
    match req
    case Get(_) => ans == Response(Ok, cur.value, NONEXISTENT, cur.version)
    case Put(_, _, wanted) =>
      if wanted < 0 || wanted == cur.version then ans.errc == Ok && ans.text == "" && ans.previous == cur.version
      else ans == Response(NoMatch, cur.value, cur.version, cur.version)
    case Cas(_, expected, _, wanted) =>
      if expected == cur.value && (wanted < 0 || wanted == cur.version)
      then ans.errc == Ok && ans.text == "" && ans.previous == cur.version
      else ans == Response(NoMatch, cur.value, cur.version, cur.version)
    case Remove(_, wanted) =>
      if cur == ABSENT then ans == Response(NotFound, "", NONEXISTENT, NONEXISTENT)
      else if wanted < 0 || wanted == cur.version then ans == Response(Ok, "", cur.version, NONEXISTENT)
      else ans == Response(NoMatch, cur.value, cur.version, cur.version)
  }

  lemma StepRight(db: Db, req: Request)
    requires Valid(db)
    ensures Right(req, Process(db, req).1, Find(db, req.key))
  {
  }

  /** Every answer of every history is the right one for what the requests and answers before it leave. */
  lemma AnswersRight(h: seq<Db>, reqs: seq<Request>, n: nat)
    requires IsHistory(h, reqs) && n < |reqs|
    ensures Right(reqs[n], Answers(h, reqs)[n], Current(reqs, Answers(h, reqs), n, reqs[n].key))
  {
    hide Process, Find, Right, Valid;
    HistoryValid(h, reqs, n);
    StepRight(h[n], reqs[n]);
    CurrentIs(h, reqs, n, reqs[n].key);
  }

  lemma {:induction false} CurrentStays(reqs: seq<Request>, answers: seq<Response>, i: nat, j: nat, key: string)
    requires i <= j <= |reqs| == |answers|
    requires forall l :: i <= l < j && reqs[l].key == key ==> !Modifies(reqs[l], answers[l])
    ensures Current(reqs, answers, j, key) == Current(reqs, answers, i, key)
  {
    if i < j { CurrentStays(reqs, answers, i, j - 1, key); }
  }

  /** Read your writes: a GET answers the value of the last successful write, with the version which that
      write answered. */
  lemma ReadYourWrites(h: seq<Db>, reqs: seq<Request>, i: nat, j: nat)
    requires IsHistory(h, reqs) && i < j < |reqs| && (reqs[i].Put? || reqs[i].Cas?) && reqs[j] == Get(reqs[i].key)
    requires Answers(h, reqs)[i].errc == Ok
    requires forall l :: i < l < j && reqs[l].key == reqs[i].key ==> !Modifies(reqs[l], Answers(h, reqs)[l])
    ensures Answers(h, reqs)[j] == Response(Ok, NewValue(reqs[i]), NONEXISTENT, Answers(h, reqs)[i].version)
  {
    hide Process;
    AnswersRight(h, reqs, j);
    CurrentStays(reqs, Answers(h, reqs), i + 1, j, reqs[i].key);
  }

  /** A key never written, or removed since, reads as the empty string with version 0. */
  lemma ReadAbsent(h: seq<Db>, reqs: seq<Request>, i: nat, j: nat)
    requires IsHistory(h, reqs) && i <= j < |reqs| && reqs[j].Get?
    requires i == 0 || (reqs[i - 1].Remove? && reqs[i - 1].key == reqs[j].key && Answers(h, reqs)[i - 1].errc == Ok)
    requires forall l :: i <= l < j && reqs[l].key == reqs[j].key ==> !Modifies(reqs[l], Answers(h, reqs)[l])
    ensures Answers(h, reqs)[j] == Response(Ok, "", NONEXISTENT, NONEXISTENT)
  {
    hide Process;
    AnswersRight(h, reqs, j);
    CurrentStays(reqs, Answers(h, reqs), i, j, reqs[j].key);
  }

  /** Every write answers a version that none before it did. */
  lemma FreshVersions(h: seq<Db>, reqs: seq<Request>, i: nat, j: nat)
    requires IsHistory(h, reqs) && i < j < |reqs| && Modifies(reqs[i], Answers(h, reqs)[i]) && !reqs[i].Remove?
    requires Modifies(reqs[j], Answers(h, reqs)[j]) && !reqs[j].Remove?
    ensures 0 < Answers(h, reqs)[i].version < Answers(h, reqs)[j].version
  {
    hide Process, Valid;
    HistoryValid(h, reqs, i);
    WriteVersion(h[i], reqs[i]);
    WriteVersion(h[j], reqs[j]);
    assert h[i + 1] == Process(h[i], reqs[i]).0;
    NextGrows(h, reqs, i + 1, j);
  }

  lemma WriteVersion(db: Db, req: Request)
    requires Modifies(req, Process(db, req).1) && !req.Remove?
    ensures Process(db, req).1.version == db.next && Process(db, req).0.next == db.next + 1
    ensures Valid(db) ==> db.next > 0
  {
  }

  lemma {:induction false} NextGrows(h: seq<Db>, reqs: seq<Request>, i: nat, j: nat)
    requires IsHistory(h, reqs) && i <= j <= |reqs|
    ensures h[i].next <= h[j].next
  {
    hide Process, Valid;
    if i < j {
      NextGrows(h, reqs, i, j - 1);
      HistoryValid(h, reqs, j - 1);
      assert h[j - 1 + 1] == Process(h[j - 1], reqs[j - 1]).0;
      ProcessValid(h[j - 1], reqs[j - 1]);
    }
  }
}
