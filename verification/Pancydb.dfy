/**
 The versioned database of the Pancy service (pset3/pancydb.hh, pset3/pancydb.cc).

 `Process` says what each request does to a database and what is answered; the class at the end is the
 program's object, updated in place, and each of its methods is proved to do the same.
 */
module Pancydb {

  const NONEXISTENT: int := 0
  const ANY_VERSION: int := -1
  const MAX_RECENT_REMOVES: nat := 100

  datatype VV = VV(value: string, version: int)

  const ABSENT: VV := VV("", NONEXISTENT)

  datatype RecentRemove = RecentRemove(key: string, vv: VV, removeVersion: int)

  /** `removes` is the deque of recent removals, newest first. */
  datatype Db = Db(next: int, m: map<string, VV>, removes: seq<RecentRemove>)

  const EMPTY: Db := Db(1, map[], [])

  datatype Request =
    | Get(key: string)
    | Put(key: string, value: string, versionMatch: int)
    | Cas(key: string, expected: string, desired: string, versionMatch: int)
    | Remove(key: string, versionMatch: int)

  datatype Errc = Ok | NotFound | NoMatch

  /** For GET `text` is the value; otherwise it is the actual value, set only on NoMatch. */
  datatype Response = Response(errc: Errc, text: string, previous: int, version: int)

  function Find(db: Db, key: string): (v: VV)
    ensures key in db.m ==> v == db.m[key]
    ensures key !in db.m ==> v == ABSENT
  {
    if key in db.m then db.m[key] else ABSENT
  }

  function Mismatch(v: VV): Response { Response(NoMatch, v.value, v.version, v.version) }

  /** Give `key` a new value and the next version. */
  function Write(db: Db, key: string, value: string): Db {
    db.(m := db.m[key := VV(value, db.next)], next := db.next + 1)
  }

  function Truncated(removes: seq<RecentRemove>): (r: seq<RecentRemove>)
    ensures |r| <= MAX_RECENT_REMOVES && r <= removes
    ensures |removes| <= MAX_RECENT_REMOVES ==> r == removes
  {
    if |removes| > MAX_RECENT_REMOVES then removes[..MAX_RECENT_REMOVES] else removes
  }

  function Erase(db: Db, key: string): Db
    requires key in db.m
  {
    Db(db.next + 1, db.m - {key}, Truncated([RecentRemove(key, db.m[key], db.next)] + db.removes))
  }

  function Process(db: Db, req: Request): (r: (Db, Response)) {
    var v := Find(db, req.key);
    var versionOk := req.Get? || req.versionMatch < 0 || req.versionMatch == v.version;
    match req
    case Get(_) => (db, Response(Ok, v.value, NONEXISTENT, v.version))
    case Put(key, value, _) =>
      if !versionOk then (db, Mismatch(v))
      else (Write(db, key, value), Response(Ok, "", v.version, db.next))
    case Cas(key, expected, desired, _) =>
      if expected != v.value || !versionOk then (db, Mismatch(v))
      else (Write(db, key, desired), Response(Ok, "", v.version, db.next))
    case Remove(key, _) =>
      if key !in db.m then (db, Response(NotFound, "", NONEXISTENT, NONEXISTENT))
      else if !versionOk then (db, Mismatch(v))
      else (Erase(db, key), Response(Ok, "", v.version, NONEXISTENT))
  }

  // ---- versions ----

  /** Live versions are positive, distinct and below the next one to be issued; the removals recorded
      are in order and no more than the deque holds. */
  ghost predicate Valid(db: Db) {
    && db.next >= 1
    && |db.removes| <= MAX_RECENT_REMOVES
    && (forall k :: k in db.m ==> 0 < db.m[k].version < db.next)
    && (forall k, k' :: k in db.m && k' in db.m && k != k' ==> db.m[k].version != db.m[k'].version)
    && (forall i :: 0 <= i < |db.removes| ==>
          0 < db.removes[i].vv.version < db.removes[i].removeVersion < db.next)
    && (forall i, j :: 0 <= i < j < |db.removes| ==> db.removes[i].removeVersion > db.removes[j].removeVersion)
  }

  lemma WriteValid(db: Db, key: string, value: string)
    requires Valid(db)
    ensures Valid(Write(db, key, value))
  {
  }

  lemma EraseValid(db: Db, key: string)
    requires Valid(db) && key in db.m
    ensures Valid(Erase(db, key))
  {
    var removes := Erase(db, key).removes;
    assert forall i :: 0 < i < |removes| ==> removes[i] == db.removes[i - 1];
  }

  lemma ProcessValid(db: Db, req: Request)
    requires Valid(db)
    ensures Valid(Process(db, req).0)
    ensures Process(db, req).0.next >= db.next
  {
    hide Valid;
    match req
    case Get(_) =>
    case Put(key, value, _) => WriteValid(db, key, value);
    case Cas(key, _, desired, _) => WriteValid(db, key, desired);
    case Remove(key, _) => if key in db.m { EraseValid(db, key); }
  }

  /** The states of one database as it serves `reqs`. */
  ghost predicate IsHistory(h: seq<Db>, reqs: seq<Request>) {
    && |h| == |reqs| + 1
    && h[0] == EMPTY
    && forall i :: 0 <= i < |reqs| ==> h[i + 1] == Process(h[i], reqs[i]).0
  }

  lemma {:induction false} HistoryValid(h: seq<Db>, reqs: seq<Request>, i: nat)
    requires IsHistory(h, reqs) && i < |h|
    ensures Valid(h[i])
  {
    if i > 0 {
      HistoryValid(h, reqs, i - 1);
      assert h[i - 1 + 1] == Process(h[i - 1], reqs[i - 1]).0;
      ProcessValid(h[i - 1], reqs[i - 1]);
    }
  }

  /** What a later state of a history keeps of an earlier one. */
  ghost predicate Later(b: Db, a: Db) {
    && a.next >= b.next
    && (forall k :: k in a.m ==> a.m[k].version >= b.next || (k in b.m && a.m[k] == b.m[k]))
    && (forall i :: 0 <= i < |a.removes| && a.removes[i].removeVersion >= b.next ==>
          var r := a.removes[i];
          r.vv.version >= b.next || (r.key in b.m && r.vv == b.m[r.key]))
    && (forall k :: k in b.m && k !in a.m ==> RemovalSeen(b, a, k))
  }

  /** The removal of `k` since `b` is still recorded, or the deque has been filled since. */
  ghost predicate RemovalSeen(b: Db, a: Db, k: string) {
    || (exists i :: 0 <= i < |a.removes| && a.removes[i].key == k && a.removes[i].removeVersion >= b.next)
    || (|a.removes| == MAX_RECENT_REMOVES && a.removes[|a.removes| - 1].removeVersion > b.next)
  }

  lemma EraseRecords(a: Db, key: string)
    requires key in a.m
    ensures var removes := Erase(a, key).removes;
            && removes != [] && removes[0] == RecentRemove(key, a.m[key], a.next)
            && |removes| == (if |a.removes| < MAX_RECENT_REMOVES then |a.removes| + 1 else MAX_RECENT_REMOVES)
            && forall i :: 0 < i < |removes| && i <= |a.removes| ==> removes[i] == a.removes[i - 1]
  {
  }

  /** A removal that was seen is seen after another one, unless it is evicted by that. */
  lemma StillSeen(b: Db, a: Db, key: string, k: string)
    requires Valid(a) && key in a.m && RemovalSeen(b, a, k)
    ensures RemovalSeen(b, Erase(a, key), k)
  {
    var removes := Erase(a, key).removes;
    EraseRecords(a, key);
    hide Erase;
    if i :| 0 <= i < |a.removes| && a.removes[i].key == k && a.removes[i].removeVersion >= b.next {
      if i + 1 < |removes| {
        assert removes[i + 1] == a.removes[i];
      } else {
        assert removes[i] == a.removes[i - 1];
      }
    } else {
      assert removes[|removes| - 1] == a.removes[|a.removes| - 2];
    }
  }

  lemma EraseLater(b: Db, a: Db, key: string)
    requires Valid(b) && Valid(a) && Later(b, a) && key in a.m
    ensures Later(b, Erase(a, key))
  {
    var a' := Erase(a, key);
    EraseRecords(a, key);
    forall k | k in b.m && k !in a'.m
      ensures RemovalSeen(b, a', k)
    {
      if k == key {
        assert a'.removes[0].removeVersion >= b.next;
      } else {
        StillSeen(b, a, key, k);
      }
    }
    hide RemovalSeen;
  }

  lemma ProcessLater(b: Db, a: Db, req: Request)
    requires Valid(b) && Valid(a) && Later(b, a)
    ensures Later(b, Process(a, req).0)
  {
    var a' := Process(a, req).0;
    if req.Remove? && a' != a {
      EraseLater(b, a, req.key);
    } else {
      forall k | k in b.m && k !in a'.m ensures RemovalSeen(b, a', k) { assert RemovalSeen(b, a, k); }
    }
  }

  lemma LaterSelf(b: Db)
    requires Valid(b)
    ensures Later(b, b)
  {
  }

  lemma {:induction false} HistoryLater(h: seq<Db>, reqs: seq<Request>, i: nat, j: nat)
    requires IsHistory(h, reqs) && i <= j < |h|
    ensures Valid(h[i]) && Valid(h[j]) && Later(h[i], h[j])
  {
    hide Process, Valid, Later;
    HistoryValid(h, reqs, i);
    HistoryValid(h, reqs, j);
    if i == j {
      LaterSelf(h[i]);
    } else {
      HistoryLater(h, reqs, i, j - 1);
      HistoryValid(h, reqs, j - 1);
      assert h[j - 1 + 1] == Process(h[j - 1], reqs[j - 1]).0;
      ProcessLater(h[i], h[j - 1], reqs[j - 1]);
    }
  }

  /** No ABA: a key that has the same live version at two points of a history has had the same record
      at every point between, even if other requests tried to change it. */
  lemma VersionIdentifies(h: seq<Db>, reqs: seq<Request>, i: nat, j: nat, k: nat, key: string)
    requires IsHistory(h, reqs) && i <= j <= k < |h|
    requires key in h[i].m && key in h[k].m && h[i].m[key].version == h[k].m[key].version
    ensures key in h[j].m && h[j].m[key] == h[i].m[key]
  {
    HistoryLater(h, reqs, i, j);
    HistoryLater(h, reqs, j, k);
    HistoryLater(h, reqs, i, k);
  }

  /** A modification of a present key that names a version succeeds only if the key has been untouched
      ever since that version was issued. */
  lemma MatchedMeansUntouched(h: seq<Db>, reqs: seq<Request>, i: nat, k: nat)
    requires IsHistory(h, reqs) && i <= k < |reqs|
    requires !reqs[k].Get? && reqs[k].versionMatch > 0
    requires reqs[k].key in h[i].m && h[i].m[reqs[k].key].version == reqs[k].versionMatch
    requires Process(h[k], reqs[k]).1.errc == Ok
    ensures forall j :: i <= j <= k ==> reqs[k].key in h[j].m && h[j].m[reqs[k].key] == h[i].m[reqs[k].key]
  {
    var key := reqs[k].key;
    assert key in h[k].m && h[k].m[key].version == reqs[k].versionMatch;
    forall j | i <= j <= k ensures key in h[j].m && h[j].m[key] == h[i].m[key] {
      VersionIdentifies(h, reqs, i, j, k, key);
    }
  }

  // ---- the object ----

  /** A `vv*`: into the map, or to the record shared by all absent keys. */
  datatype Pointer = Shared | Into(key: string)

  class PancyDb {
    var next: int
    var db: map<string, VV>
    var removes: seq<RecentRemove>
    var shared: VV

    ghost function View(): Db
      reads this
    {
      Db(next, db, removes)
    }

    /** The object is a database in good order and the shared absent record is intact. */
    ghost predicate Ready()
      reads this
    {
      Valid(View()) && shared == ABSENT
    }

    constructor ()
      ensures Ready() && View() == EMPTY
    {
      next, db, removes, shared := 1, map[], [], ABSENT;
    }

    function FindPtr(key: string): (p: Pointer)
      reads this
    {
      if key in db then Into(key) else Shared
    }

    function Load(p: Pointer): (v: VV)
      requires p.Into? ==> p.key in db
      reads this
    {
      match p
      case Shared => shared
      case Into(key) => db[key]
    }

    method Store(p: Pointer, v: VV)
      requires p.Into? ==> p.key in db
      modifies this`db, this`shared
      ensures p.Into? ==> db == old(db)[p.key := v] && shared == old(shared)
      ensures p.Shared? ==> db == old(db) && shared == v
    {
      match p
      case Shared => shared := v;
      case Into(key) => db := db[key := v];
    }

    /** Insert unless present; either way point to the record. */
    method Emplace(key: string, value: string) returns (p: Pointer, inserted: bool)
      modifies this`db
      ensures p == Into(key) && key in db && inserted == (key !in old(db))
      ensures db == if inserted then old(db)[key := VV(value, next)] else old(db)
    {
      inserted := key !in db;
      if inserted {
        db := db[key := VV(value, next)];
      }
      p := Into(key);
    }

    method DoRemove(key: string)
      requires key in db && |removes| <= MAX_RECENT_REMOVES
      modifies this`next, this`db, this`removes
      ensures View() == Erase(old(View()), key)
    {
      ghost var all := [RecentRemove(key, db[key], next)] + removes;
      removes := [RecentRemove(key, db[key], next)] + removes;
      while |removes| > MAX_RECENT_REMOVES
        invariant next == old(next) && db == old(db)
        invariant |removes| <= |all| && removes == all[..|removes|]
        invariant |all| > MAX_RECENT_REMOVES ==> |removes| >= MAX_RECENT_REMOVES
        invariant |all| <= MAX_RECENT_REMOVES ==> removes == all
      {
        removes := removes[..|removes| - 1];
      }
      assert removes == Truncated(all);
      next := next + 1;
      db := db - {key};
    }

    /** Direct API: store a value. */
    method Put(key: string, value: string)
      requires Ready()
      modifies this
      ensures Ready() && View() == Process(old(View()), Request.Put(key, value, ANY_VERSION)).0
    {
      ProcessValid(View(), Request.Put(key, value, ANY_VERSION));
      var p, inserted := Emplace(key, value);
      if !inserted {
        Store(p, VV(value, next));
      }
      next := next + 1;
    }

    /** Direct API: remove a key, saying whether it was there. */
    method Remove(key: string) returns (found: bool)
      requires Ready()
      modifies this
      ensures Ready() && View() == Process(old(View()), Request.Remove(key, ANY_VERSION)).0
      ensures found == (key in old(db))
    {
      ProcessValid(View(), Request.Remove(key, ANY_VERSION));
      if key !in db {
        return false;
      }
      DoRemove(key);
      return true;
    }

    method ProcessGet(key: string) returns (r: Response)
      requires Ready()
      ensures r == Process(View(), Get(key)).1
    {
      var v := Load(FindPtr(key));
      return Response(Ok, v.value, NONEXISTENT, v.version);
    }

    method ProcessPut(key: string, value: string, versionMatch: int) returns (r: Response)
      requires Ready()
      modifies this
      ensures Ready() && (View(), r) == Process(old(View()), Request.Put(key, value, versionMatch))
    {
      ProcessValid(View(), Request.Put(key, value, versionMatch));
      var p := FindPtr(key);
      var v := Load(p);
      if versionMatch >= 0 && versionMatch != v.version {
        return Mismatch(v);
      } else if v.version == NONEXISTENT {
        var q, _ := Emplace(key, value);
        next := next + 1;
        return Response(Ok, "", NONEXISTENT, db[key].version);
      }
      Store(p, VV(value, next));
      next := next + 1;
      return Response(Ok, "", v.version, db[key].version);
    }

    method ProcessCas(key: string, expected: string, desired: string, versionMatch: int) returns (r: Response)
      requires Ready()
      modifies this
      ensures Ready() && (View(), r) == Process(old(View()), Request.Cas(key, expected, desired, versionMatch))
    {
      ProcessValid(View(), Request.Cas(key, expected, desired, versionMatch));
      var p := FindPtr(key);
      var v := Load(p);
      if expected != v.value || (versionMatch >= 0 && versionMatch != v.version) {
        return Mismatch(v);
      } else if v.version == NONEXISTENT {
        var q, _ := Emplace(key, desired);
        next := next + 1;
        return Response(Ok, "", NONEXISTENT, db[key].version);
      }
      Store(p, VV(desired, next));
      next := next + 1;
      return Response(Ok, "", v.version, db[key].version);
    }

    method ProcessRemove(key: string, versionMatch: int) returns (r: Response)
      requires Ready()
      modifies this
      ensures Ready() && (View(), r) == Process(old(View()), Request.Remove(key, versionMatch))
    {
      ProcessValid(View(), Request.Remove(key, versionMatch));
      if key !in db {
        return Response(NotFound, "", NONEXISTENT, NONEXISTENT);
      }
      var v := db[key];
      if versionMatch >= 0 && versionMatch != v.version {
        return Mismatch(v);
      }
      DoRemove(key);
      return Response(Ok, "", v.version, shared.version);
    }

    /** `process_req`: the request's own handler. */
    method ProcessReq(req: Request) returns (r: Response)
      requires Ready()
      modifies this
      ensures Ready() && (View(), r) == Process(old(View()), req)
    {
      match req
      case Get(key) => r := ProcessGet(key);
      case Put(key, value, version) => r := ProcessPut(key, value, version);
      case Cas(key, expected, desired, version) => r := ProcessCas(key, expected, desired, version);
      case Remove(key, version) => r := ProcessRemove(key, version);
    }
  }
}
