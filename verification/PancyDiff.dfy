/** Comparing two databases up to a version skew (`pancydb::diff`). */
module PancyDiff {
  import opened Options
  import opened Strings
  import opened Pancydb

  /** The newest recorded removal of `key` at or after `minVersion`, searching from entry `i`. */
  function RecentRemoveFrom(removes: seq<RecentRemove>, key: string, minVersion: int, i: nat): (r: Option<VV>)
    requires i <= |removes|
    decreases |removes| - i
  {
    if i == |removes| then None
    else if removes[i].key == key && removes[i].removeVersion >= minVersion then Some(removes[i].vv)
    else RecentRemoveFrom(removes, key, minVersion, i + 1)
  }

  method FindRecentRemove(removes: seq<RecentRemove>, key: string, minVersion: int) returns (r: Option<VV>)
    ensures r == RecentRemoveFrom(removes, key, minVersion, 0)
  {
    var i := 0;
    while i < |removes|
      invariant i <= |removes|
      invariant RecentRemoveFrom(removes, key, minVersion, 0) == RecentRemoveFrom(removes, key, minVersion, i)
    {
      if removes[i].key == key && removes[i].removeVersion >= minVersion {
        return Some(removes[i].vv);
      }
      i := i + 1;
    }
    return None;
  }

  predicate RemovesComplete(a: Db, minVersion: int) {
    |a.removes| < MAX_RECENT_REMOVES || a.removes[|a.removes| - 1].removeVersion <= minVersion
  }

  /** The versions of one key recorded on the two sides do not contradict each other. */
  predicate Corresponds(av: Option<VV>, bv: Option<VV>, minVersion: int, complete: bool) {
    || (av.Some? && bv.None? && av.value.version >= minVersion)
    || (av.None? && !complete)
    || (av.Some? && bv.Some?
        && av.value.version >= bv.value.version
        && (av.value.version == bv.value.version || av.value.version >= minVersion)
        && (av.value.version == bv.value.version ==> av.value.value == bv.value.value))
  }

  function Recorded(db: Db, key: string, minVersion: int): Option<VV> {
    if key in db.m then Some(db.m[key]) else RecentRemoveFrom(db.removes, key, minVersion, 0)
  }

  /** `key`, present on at least one side, is in order. */
  predicate KeyOk(a: Db, b: Db, skew: nat, key: string) {
    var minVersion := a.next - skew;
    Corresponds(Recorded(a, key, minVersion), Recorded(b, key, minVersion), minVersion, RemovesComplete(a, minVersion))
  }

  /** The outcome of comparing a newer database `a` with an older one: the first key out of order. */
  ghost predicate Differs(a: Db, b: Db, skew: nat, r: Option<string>) {
    match r
    case None => forall k :: k in a.m.Keys + b.m.Keys ==> KeyOk(a, b, skew, k)
    case Some(key) =>
      && key in a.m.Keys + b.m.Keys && !KeyOk(a, b, skew, key)
      && forall k :: k in a.m.Keys + b.m.Keys && Less(k, key) ==> KeyOk(a, b, skew, k)
  }

  /** All keys of `keys[..i]` come before the key at the other iterator. */
  ghost predicate Behind(keys: seq<string>, i: nat, others: seq<string>, j: nat)
    requires i <= |keys| && j <= |others|
  {
    j < |others| ==> forall k :: 0 <= k < i ==> Less(keys[k], others[j])
  }

  /** The merge walk over the two maps; `ka` and `kb` are their iteration orders. */
  method DiffNewer(a: Db, b: Db, skew: nat, ka: seq<string>, kb: seq<string>) returns (r: Option<string>)
    requires IsOrderOf(ka, a.m.Keys) && IsOrderOf(kb, b.m.Keys)
    ensures Differs(a, b, skew, r)
  {
    hide Less, RecentRemoveFrom, Behind;
    var i, j := 0, 0;
    BehindNone(ka, kb);
    BehindNone(kb, ka);
    var minVersion := a.next - skew;
    var complete := |a.removes| < MAX_RECENT_REMOVES || a.removes[|a.removes| - 1].removeVersion <= minVersion;
    while i < |ka| || j < |kb|
      invariant i <= |ka| && j <= |kb|
      invariant Behind(ka, i, kb, j) && Behind(kb, j, ka, i)
      invariant forall k :: 0 <= k < i ==> KeyOk(a, b, skew, ka[k])
      invariant forall k :: 0 <= k < j ==> KeyOk(a, b, skew, kb[k])
      decreases |ka| - i + |kb| - j
    {
      // which side holds the smaller key: -1 for `a`, 1 for `b`, 0 for both
      var cmp := 0;
      if i == |ka| {
        cmp := 1;
      } else if j == |kb| {
        cmp := -1;
      } else if ka[i] != kb[j] {
        cmp := if Less(ka[i], kb[j]) then -1 else 1;
        LessTotal(ka[i], kb[j]);
      }
      var key := if cmp <= 0 then ka[i] else kb[j];
      OnlySide(ka, kb, i, j, cmp, key);
      var av: Option<VV>;
      if cmp <= 0 { av := Some(a.m[key]); } else { av := FindRecentRemove(a.removes, key, minVersion); }
      var bv: Option<VV>;
      if cmp >= 0 { bv := Some(b.m[key]); } else { bv := FindRecentRemove(b.removes, key, minVersion); }
      if av.Some? && bv.None? && av.value.version >= minVersion {
        // missing from `b`, but maybe added within the skew
      } else if av.None? && !complete {
        // missing from `a`, but maybe an evicted removal
      } else if av.None?
                || bv.None?
                || av.value.version < bv.value.version
                || (av.value.version > bv.value.version && av.value.version < minVersion)
                || (av.value.version == bv.value.version && av.value.value != bv.value.value) {
        assert !KeyOk(a, b, skew, key);
        EarlierKeysOk(a, b, skew, ka, kb, i, j, key);
        return Some(key);
      }
      assert KeyOk(a, b, skew, key);
      Advanced(ka, kb, i, j, cmp, key);
      if cmp <= 0 { i := i + 1; }
      if cmp >= 0 { j := j + 1; }
    }
    forall k | k in a.m.Keys + b.m.Keys ensures KeyOk(a, b, skew, k) {
      assert k in ka || k in kb;
    }
    return None;
  }

  lemma BehindNone(ka: seq<string>, kb: seq<string>)
    ensures Behind(ka, 0, kb, 0)
  {
  }

  /** The key at hand is the smaller of the two, and absent from the side that does not hold it. */
  lemma OnlySide(ka: seq<string>, kb: seq<string>, i: nat, j: nat, cmp: int, key: string)
    requires i <= |ka| && j <= |kb| && (i < |ka| || j < |kb|)
    requires forall x, y :: 0 <= x < y < |ka| ==> Less(ka[x], ka[y])
    requires forall x, y :: 0 <= x < y < |kb| ==> Less(kb[x], kb[y])
    requires Behind(ka, i, kb, j) && Behind(kb, j, ka, i)
    requires cmp < 0 ==> i < |ka| && key == ka[i] && (j < |kb| ==> Less(ka[i], kb[j]))
    requires cmp > 0 ==> j < |kb| && key == kb[j] && (i < |ka| ==> Less(kb[j], ka[i]))
    ensures cmp < 0 ==> key !in kb
    ensures cmp > 0 ==> key !in ka
  {
    forall x | cmp < 0 && 0 <= x < |kb| ensures kb[x] != key {
      LessIrreflexive(key);
      if x > j { LessTrans(key, kb[j], kb[x]); }
    }
    forall x | cmp > 0 && 0 <= x < |ka| ensures ka[x] != key {
      LessIrreflexive(key);
      if x > i { LessTrans(key, ka[i], ka[x]); }
    }
  }

  lemma Advanced(ka: seq<string>, kb: seq<string>, i: nat, j: nat, cmp: int, key: string)
    requires i <= |ka| && j <= |kb| && (i < |ka| || j < |kb|)
    requires forall x, y :: 0 <= x < y < |ka| ==> Less(ka[x], ka[y])
    requires forall x, y :: 0 <= x < y < |kb| ==> Less(kb[x], kb[y])
    requires Behind(ka, i, kb, j) && Behind(kb, j, ka, i)
    requires cmp <= 0 ==> i < |ka| && key == ka[i]
    requires cmp >= 0 ==> j < |kb| && key == kb[j]
    requires cmp < 0 && j < |kb| ==> Less(ka[i], kb[j])
    requires cmp > 0 && i < |ka| ==> Less(kb[j], ka[i])
    ensures var i', j' := if cmp <= 0 then i + 1 else i, if cmp >= 0 then j + 1 else j;
            Behind(ka, i', kb, j') && Behind(kb, j', ka, i')
  {
    var i', j' := if cmp <= 0 then i + 1 else i, if cmp >= 0 then j + 1 else j;
    if j' < |kb| {
      forall k | 0 <= k < i' ensures Less(ka[k], kb[j']) {
        if k < i && j' > j { LessTrans(ka[k], kb[j], kb[j']); }
      }
    }
    if i' < |ka| {
      forall k | 0 <= k < j' ensures Less(kb[k], ka[i']) {
        if k < j && i' > i { LessTrans(kb[k], ka[i], ka[i']); }
      }
    }
  }

  lemma EarlierKeysOk(a: Db, b: Db, skew: nat, ka: seq<string>, kb: seq<string>, i: nat, j: nat, key: string)
    requires IsOrderOf(ka, a.m.Keys) && IsOrderOf(kb, b.m.Keys)
    requires i <= |ka| && j <= |kb|
    requires i < |ka| ==> key == ka[i] || Less(key, ka[i])
    requires j < |kb| ==> key == kb[j] || Less(key, kb[j])
    requires forall k :: 0 <= k < i ==> KeyOk(a, b, skew, ka[k])
    requires forall k :: 0 <= k < j ==> KeyOk(a, b, skew, kb[k])
    ensures forall k :: k in a.m.Keys + b.m.Keys && Less(k, key) ==> KeyOk(a, b, skew, k)
  {
    forall k | k in a.m.Keys + b.m.Keys && Less(k, key) ensures KeyOk(a, b, skew, k) {
      if k in a.m {
        var x :| 0 <= x < |ka| && ka[x] == k;
        if x >= i { NotBefore(ka, i, x, key); }
      } else {
        var x :| 0 <= x < |kb| && kb[x] == k;
        if x >= j { NotBefore(kb, j, x, key); }
      }
    }
  }

  lemma NotBefore(keys: seq<string>, i: nat, x: nat, key: string)
    requires forall x, y :: 0 <= x < y < |keys| ==> Less(keys[x], keys[y])
    requires i <= x < |keys| && (key == keys[i] || Less(key, keys[i]))
    ensures !Less(keys[x], key)
  {
    LessIrreflexive(keys[x]);
    if Less(keys[x], key) {
      if key != keys[i] { LessTrans(keys[x], key, keys[i]); }
      LessTrans(keys[x], keys[i], keys[x]);
    }
  }

  /** `x.diff(y, skew)`: the newer of the two databases leads the comparison. */
  method Diff(x: Db, y: Db, skew: nat, kx: seq<string>, ky: seq<string>) returns (r: Option<string>)
    requires IsOrderOf(kx, x.m.Keys) && IsOrderOf(ky, y.m.Keys)
    ensures x.next < y.next ==> Differs(y, x, skew, r)
    ensures x.next >= y.next ==> Differs(x, y, skew, r)
  {
    if x.next < y.next {
      r := DiffNewer(y, x, skew, ky, kx);
    } else {
      r := DiffNewer(x, y, skew, kx, ky);
    }
  }

  // ---- what the comparison means ----

  lemma {:induction false} RecentRemoveIs(removes: seq<RecentRemove>, key: string, minVersion: int, i: nat)
    requires i <= |removes|
    ensures var r := RecentRemoveFrom(removes, key, minVersion, i);
            if r.Some? then
              exists k :: i <= k < |removes| && removes[k].key == key && removes[k].removeVersion >= minVersion
                          && r.value == removes[k].vv
                          && forall l :: i <= l < k ==> !(removes[l].key == key && removes[l].removeVersion >= minVersion)
            else forall l :: i <= l < |removes| ==> !(removes[l].key == key && removes[l].removeVersion >= minVersion)
    decreases |removes| - i
  {
    if i < |removes| && !(removes[i].key == key && removes[i].removeVersion >= minVersion) {
      RecentRemoveIs(removes, key, minVersion, i + 1);
    }
  }

  /** The newest recorded removal of a key deleted since `b` is itself later than `b`. */
  lemma RecordedSince(b: Db, a: Db, key: string, minVersion: int)
    requires Valid(b) && Valid(a) && Later(b, a) && minVersion <= b.next && key in b.m && key !in a.m
    ensures var r := RecentRemoveFrom(a.removes, key, minVersion, 0);
            if r.Some? then r.value.version >= b.next || r.value == b.m[key]
            else !RemovesComplete(a, minVersion)
  {
    RecentRemoveIs(a.removes, key, minVersion, 0);
    assert RemovalSeen(b, a, key);
  }

  lemma KeyOkForLater(b: Db, a: Db, skew: nat, key: string)
    requires Valid(b) && Valid(a) && Later(b, a) && a.next - b.next <= skew
    requires key in a.m || key in b.m
    ensures KeyOk(a, b, skew, key)
  {
    var min := a.next - skew;
    if key !in a.m {
      RecordedSince(b, a, key, min);
    } else if key !in b.m {
      RecentRemoveIs(b.removes, key, min, 0);
    }
  }

  /** No false alarm: comparing a database with an earlier state of its own history, in either order,
      finds nothing as long as the lag is within the skew, even when the deque of recent removals has
      overflowed in between. */
  lemma NoFalseAlarm(h: seq<Db>, reqs: seq<Request>, i: nat, j: nat, skew: nat, r: Option<string>)
    requires IsHistory(h, reqs) && i <= j < |h| && h[j].next - h[i].next <= skew
    requires Differs(h[j], h[i], skew, r) || (h[i].next == h[j].next && Differs(h[i], h[j], skew, r))
    ensures r == None
  {
    HistoryLater(h, reqs, i, j);
    var b, a := h[i], h[j];
    forall key | key in a.m.Keys + b.m.Keys ensures KeyOk(a, b, skew, key) {
      KeyOkForLater(b, a, skew, key);
    }
    if a.next == b.next {
      forall key | key in a.m.Keys + b.m.Keys ensures KeyOk(b, a, skew, key) {
        SameVersionSameRecord(b, a, key);
      }
    }
  }

  lemma SameVersionSameRecord(b: Db, a: Db, key: string)
    requires Valid(b) && Valid(a) && Later(b, a) && a.next == b.next && (key in a.m || key in b.m)
    ensures key in a.m && key in b.m && a.m[key] == b.m[key]
  {
  }

  /** With no skew allowed the comparison is equality of contents, for any two databases in good order
      whatever their histories. */
  lemma ExactDiff(a: Db, b: Db, r: Option<string>)
    requires Valid(a) && Valid(b) && a.next >= b.next && Differs(a, b, 0, r)
    ensures r == None <==> a.m == b.m
  {
    forall key | key in a.m.Keys + b.m.Keys
      ensures KeyOk(a, b, 0, key) <==> (key in a.m && key in b.m && a.m[key] == b.m[key])
    {
      RecentRemoveIs(a.removes, key, a.next, 0);
      RecentRemoveIs(b.removes, key, a.next, 0);
    }
    if r == None {
      assert a.m.Keys == b.m.Keys by {
        forall k ensures k in a.m.Keys <==> k in b.m.Keys {
          if k in a.m.Keys + b.m.Keys { assert KeyOk(a, b, 0, k); }
        }
      }
      forall k | k in a.m ensures a.m[k] == b.m[k] { assert KeyOk(a, b, 0, k); }
    }
  }
}
