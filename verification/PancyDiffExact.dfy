/** What the comparison of two databases reports, in terms of records, versions and recorded removals only. */
module PancyDiffExact {
  import opened Options
  import opened Strings
  import opened Pancydb
  import opened PancyDiff

  /** Entry `i` of the removals of `db` is a removal of `key` inside the window. */
  predicate Removal(db: Db, key: string, since: int, i: nat) {
    i < |db.removes| && db.removes[i].key == key && db.removes[i].removeVersion >= since
  }

  /** The latest removal of `key` in the window was that of the record `vv`. */
  ghost predicate LastRemoved(db: Db, key: string, since: int, vv: VV) {
    exists i: nat :: Removal(db, key, since, i) && db.removes[i].vv == vv
              && forall j: nat :: Removal(db, key, since, j) ==> db.removes[j].removeVersion <= db.removes[i].removeVersion
  }

  ghost predicate Unremoved(db: Db, key: string, since: int) {
    forall i: nat :: !Removal(db, key, since, i)
  }

  /** As many removals as are ever held, all of them later than the beginning of the window: there may have
      been more in it. */
  ghost predicate Evicting(db: Db, since: int) {
    |db.removes| == MAX_RECENT_REMOVES && forall i :: 0 <= i < |db.removes| ==> db.removes[i].removeVersion > since
  }

  /** The record `newer` may have come after `older` inside the window, or is the same. */
  predicate Follows(newer: VV, older: VV, since: int) {
    newer == older || (newer.version > older.version && newer.version >= since)
  }

  /** A key of `a` or `b`, of which `a` is ahead by at most the window, is in step. */
  ghost predicate InStep(a: Db, b: Db, skew: nat, key: string) {
    var since := a.next - skew;
    if key in a.m && key in b.m then
      Follows(a.m[key], b.m[key], since)
    else if key in a.m then
      || (Unremoved(b, key, since) && a.m[key].version >= since)
      || (exists vv :: LastRemoved(b, key, since, vv) && Follows(a.m[key], vv, since))
    else
      && key in b.m
      && ((Unremoved(a, key, since) && Evicting(a, since))
          || (exists vv :: LastRemoved(a, key, since, vv) && Follows(vv, b.m[key], since)))
  }

  lemma Searched(db: Db, key: string, since: int)
    requires Valid(db)
    ensures var r := RecentRemoveFrom(db.removes, key, since, 0);
            && (r == None <==> Unremoved(db, key, since))
            && (forall vv :: r == Some(vv) <==> LastRemoved(db, key, since, vv))
  {
    RecentRemoveIs(db.removes, key, since, 0);
    var r := RecentRemoveFrom(db.removes, key, since, 0);
    if r == None {
      forall i: nat ensures !Removal(db, key, since, i) {
      }
    } else {
      var k: nat :| k < |db.removes| && db.removes[k].key == key && db.removes[k].removeVersion >= since
                    && r.value == db.removes[k].vv
                    && forall l :: 0 <= l < k ==> !(db.removes[l].key == key && db.removes[l].removeVersion >= since);
      assert Removal(db, key, since, k);
      forall j: nat | Removal(db, key, since, j) ensures db.removes[j].removeVersion <= db.removes[k].removeVersion {
        assert j >= k;
      }
      forall vv | LastRemoved(db, key, since, vv) ensures vv == r.value {
        var i: nat :| Removal(db, key, since, i) && db.removes[i].vv == vv
                 && forall j: nat :: Removal(db, key, since, j) ==> db.removes[j].removeVersion <= db.removes[i].removeVersion;
        assert i == k;
      }
    }
  }

  lemma Complete(a: Db, since: int)
    requires Valid(a)
    ensures RemovesComplete(a, since) <==> !Evicting(a, since)
  {
    if |a.removes| == MAX_RECENT_REMOVES && a.removes[|a.removes| - 1].removeVersion > since {
      forall i | 0 <= i < |a.removes| ensures a.removes[i].removeVersion > since {
      }
    }
  }

  lemma KeyExact(a: Db, b: Db, skew: nat, key: string)
    requires Valid(a) && Valid(b) && (key in a.m || key in b.m)
    ensures KeyOk(a, b, skew, key) <==> InStep(a, b, skew, key)
  {
    hide Valid, LastRemoved, Unremoved, Evicting, RemovesComplete, RecentRemoveFrom;
    var since := a.next - skew;
    if key in a.m {
      if key !in b.m { Searched(b, key, since); }
    } else {
      Searched(a, key, since);
      Complete(a, since);
    }
  }

  /** Exactly what is reported, for any two databases in good order and any window: nothing if every key is in
      step, and otherwise the first key that is not. */
  lemma DiffExact(a: Db, b: Db, skew: nat, r: Option<string>)
    requires Valid(a) && Valid(b) && Differs(a, b, skew, r)
    ensures r == None <==> forall key :: key in a.m || key in b.m ==> InStep(a, b, skew, key)
    ensures r.Some? ==>
              && (r.value in a.m || r.value in b.m) && !InStep(a, b, skew, r.value)
              && forall key :: (key in a.m || key in b.m) && Less(key, r.value) ==> InStep(a, b, skew, key)
  {
    hide KeyOk, InStep, Valid, Less;
    forall key | key in a.m || key in b.m ensures KeyOk(a, b, skew, key) <==> InStep(a, b, skew, key) {
      KeyExact(a, b, skew, key);
    }
    assert r == None ==> forall key :: key in a.m || key in b.m ==> key in a.m.Keys + b.m.Keys;
    if r.Some? { assert r.value in a.m.Keys + b.m.Keys; }
  }

  /** In particular a key that the newer database has lost without recording a removal is found, unless
      removals may have been evicted. */
  lemma LossFound(a: Db, b: Db, skew: nat, r: Option<string>, key: string)
    requires Valid(a) && Valid(b) && Differs(a, b, skew, r)
    requires key in b.m && key !in a.m && (forall i :: 0 <= i < |a.removes| ==> a.removes[i].key != key)
    requires |a.removes| < MAX_RECENT_REMOVES || exists i :: 0 <= i < |a.removes| && a.removes[i].removeVersion <= a.next - skew
    ensures r.Some? && (r.value == key || Less(r.value, key))
  {
    var since := a.next - skew;
    DiffExact(a, b, skew, r);
    assert forall i: nat :: !Removal(a, key, since, i);
    assert !Evicting(a, since);
    assert !InStep(a, b, skew, key);
    LessTotal(r.value, key);
    hide Valid, Differs, Less;
  }
}
