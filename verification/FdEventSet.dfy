/** The set of watched file descriptors as the program updates it. */
module FdEventSet {
  import opened Options
  import opened WatchLists

  /** A notification of the descriptor's new interest to the kernel. */
  datatype Update = Update(fd: nat, mask: set<Interest>, epoch: nat)

  /** The interest of the live events on a list. */
  function MaskOf(ws: seq<Watch>, list: seq<nat>, empties: set<nat>): set<Interest>
    requires forall i :: 0 <= i < |list| ==> list[i] < |ws|
  {
    if list == [] then {}
    else
      MaskOf(ws, list[..|list| - 1], empties)
      + (if ws[list[|list| - 1]].ev in empties then {} else ws[list[|list| - 1]].mask)
  }

  /** `watch_list_mask`. */
  method WatchListMask(ws: seq<Watch>, head: nat, ghost list: seq<nat>, empties: set<nat>) returns (mask: set<Interest>)
    requires Chain(ws, head, list)
    ensures mask == MaskOf(ws, list, empties)
  {
    mask := {};
    var wix := head;
    ghost var i: nat := 0;
    while wix != 0
      invariant i <= |list| && wix == Link(list, i) && mask == MaskOf(ws, list[..i], empties)
      decreases |list| - i
    {
      assert list[..i + 1][..i] == list[..i];
      if ws[wix - 1].ev !in empties {
        mask := mask + ws[wix - 1].mask;
      }
      wix := ws[wix - 1].wlink;
      i := i + 1;
    }
    assert list[..i] == list;
  }

  /** A descriptor is of interest exactly if some live event on its list wants something. */
  lemma {:induction false} MaskMeans(ws: seq<Watch>, list: seq<nat>, empties: set<nat>, x: Interest)
    requires forall i :: 0 <= i < |list| ==> list[i] < |ws|
    ensures x in MaskOf(ws, list, empties) <==> exists i :: 0 <= i < |list| && ws[list[i]].ev !in empties && x in ws[list[i]].mask
  {
    if list != [] {
      var n := |list| - 1;
      MaskMeans(ws, list[..n], empties, x);
      assert forall i :: 0 <= i < n ==> list[..n][i] == list[i];
    }
  }

  /** The link that comes after `part` is written: in its last record, or nowhere yet. */
  function Written(ws: seq<Watch>, part: seq<nat>, link: nat): (r: seq<Watch>)
    requires part != [] ==> part[|part| - 1] < |ws|
    ensures |r| == |ws|
  {
    if part == [] then ws else ws[part[|part| - 1] := ws[part[|part| - 1]].(wlink := link)]
  }

  /** Some of the records before position `i`, linked but not yet terminated. */
  ghost predicate PartOf(ws: seq<Watch>, list: seq<nat>, i: nat, part: seq<nat>) {
    && i <= |list| && Distinct(part)
    && (forall k :: 0 <= k < |part| ==> part[k] < |ws| && part[k] in list && part[k] !in list[i..])
    && (forall k :: 0 <= k < |part| - 1 ==> ws[part[k]].wlink == part[k + 1] + 1)
  }

  predicate Disjoint(a: seq<nat>, b: seq<nat>) {
    forall k, l :: 0 <= k < |a| && 0 <= l < |b| ==> a[k] != b[l]
  }

  /** The rest of the list is linked as it was, and nothing has changed but links on the list. */
  ghost predicate RestOf(ws0: seq<Watch>, ws: seq<Watch>, list: seq<nat>, i: nat) {
    && |ws| == |ws0| && i <= |list|
    && (forall k :: 0 <= k < |list| ==> list[k] < |ws|)
    && (forall k :: i <= k < |list| ==> ws[list[k]].wlink == Link(list, k + 1))
    && (forall s :: 0 <= s < |ws| ==> ws[s] == ws0[s].(wlink := ws[s].wlink) && (s !in list ==> ws[s] == ws0[s]))
  }

  lemma RestWritten(ws0: seq<Watch>, ws: seq<Watch>, list: seq<nat>, i: nat, part: seq<nat>, link: nat)
    requires RestOf(ws0, ws, list, i) && PartOf(ws, list, i, part)
    ensures part != [] ==> part[|part| - 1] < |ws|
    ensures RestOf(ws0, Written(ws, part, link), list, i)
  {
    if part != [] {
      var p := part[|part| - 1];
      forall k | i <= k < |list| ensures list[k] != p { assert list[i..][k - i] == list[k]; }
    }
  }

  lemma PartWritten(ws: seq<Watch>, list: seq<nat>, i: nat, part: seq<nat>, other: seq<nat>, link: nat)
    requires PartOf(ws, list, i, part) && PartOf(ws, list, i, other) && Disjoint(part, other)
    ensures part != [] ==> part[|part| - 1] < |ws|
    ensures PartOf(Written(ws, part, link), list, i, other)
    ensures PartOf(Written(ws, part, link), list, i, part)
    ensures part != [] ==> Written(ws, part, link)[part[|part| - 1]].wlink == link
  {
  }

  /** The next record joins a part whose last link has been set to it. */
  lemma PartJoin(ws: seq<Watch>, list: seq<nat>, i: nat, part: seq<nat>)
    requires PartOf(ws, list, i, part) && i < |list| && Distinct(list) && list[i] < |ws|
    requires part != [] ==> ws[part[|part| - 1]].wlink == list[i] + 1
    ensures PartOf(ws, list, i + 1, part + [list[i]])
  {
    assert list[i] == list[i..][0];
    var rest := list[i + 1..];
    assert list[i..] == [list[i]] + rest;
    forall k | 0 <= k < |rest| ensures rest[k] != list[i] { assert rest[k] == list[i + 1 + k]; }
  }

  lemma PartOn(ws: seq<Watch>, list: seq<nat>, i: nat, part: seq<nat>)
    requires PartOf(ws, list, i, part) && i < |list|
    ensures PartOf(ws, list, i + 1, part) && list[i] !in part
  {
    assert list[i..] == [list[i]] + list[i + 1..];
  }

  lemma RestOn(ws0: seq<Watch>, ws: seq<Watch>, list: seq<nat>, i: nat)
    requires RestOf(ws0, ws, list, i) && i < |list|
    ensures RestOf(ws0, ws, list, i + 1) && list[i] < |ws|
  {
  }

  lemma DisjointAdd(a: seq<nat>, b: seq<nat>, s: nat)
    requires Disjoint(a, b) && s !in b
    ensures Disjoint(a + [s], b)
  {
  }

  /** The parts when the record at `i` joins the first of them. */
  lemma Step(ws0: seq<Watch>, ws: seq<Watch>, list: seq<nat>, i: nat, part: seq<nat>, other: seq<nat>)
    requires RestOf(ws0, ws, list, i) && PartOf(ws, list, i, part) && PartOf(ws, list, i, other) && Disjoint(part, other)
    requires i < |list| && Distinct(list)
    ensures part != [] ==> part[|part| - 1] < |ws|
    ensures var ws' := Written(ws, part, list[i] + 1);
            && RestOf(ws0, ws', list, i + 1) && PartOf(ws', list, i + 1, part + [list[i]]) && PartOf(ws', list, i + 1, other)
            && Disjoint(part + [list[i]], other)
  {
    LastInside(ws, list, i, part);
    hide PartOf, Written, RestOf, Disjoint, Distinct;
    var ws' := Written(ws, part, list[i] + 1);
    RestWritten(ws0, ws, list, i, part, list[i] + 1);
    RestOn(ws0, ws', list, i);
    PartWritten(ws, list, i, part, other, list[i] + 1);
    PartJoin(ws', list, i, part);
    PartOn(ws', list, i, other);
    DisjointAdd(part, other, list[i]);
  }

  /** A part is terminated. */
  lemma Terminated(ws: seq<Watch>, list: seq<nat>, part: seq<nat>, head: nat)
    requires PartOf(ws, list, |list|, part) && head == Link(part, 0)
    requires part != [] ==> ws[part[|part| - 1]].wlink == 0
    ensures Chain(ws, head, part)
  {
  }

  /** The pass over the list has reached position `i`. */
  ghost predicate Splitting(ws0: seq<Watch>, ws: seq<Watch>, list: seq<nat>, i: nat, kept: seq<nat>, hit: seq<nat>,
                            imask: set<Interest>, empties: set<nat>) {
    && RestOf(ws0, ws, list, i) && Distinct(list)
    && PartOf(ws, list, i, kept) && PartOf(ws, list, i, hit) && Disjoint(kept, hit) && Disjoint(hit, kept)
    && kept == Pick(ws0, list[..i], imask, empties, false)
    && hit == Pick(ws0, list[..i], imask, empties, true)
  }

  lemma SplitStart(ws0: seq<Watch>, first: nat, list: seq<nat>, imask: set<Interest>, empties: set<nat>)
    requires Chain(ws0, first, list) && Distinct(list)
    ensures Splitting(ws0, ws0, list, 0, [], [], imask, empties) && first == Link(list, 0)
  {
    NoParts(ws0, list);
    ChainRest(ws0, first, list);
  }

  lemma SplitStep(ws0: seq<Watch>, ws: seq<Watch>, list: seq<nat>, i: nat, kept: seq<nat>, hit: seq<nat>,
                  imask: set<Interest>, empties: set<nat>)
    requires Splitting(ws0, ws, list, i, kept, hit, imask, empties) && i < |list|
    ensures list[i] < |ws| && ws[list[i]].wlink == Link(list, i + 1)
    ensures kept != [] ==> kept[|kept| - 1] < |ws|
    ensures hit != [] ==> hit[|hit| - 1] < |ws|
    ensures if imask * ws[list[i]].mask != {} || ws[list[i]].ev in empties
            then Splitting(ws0, Written(ws, hit, list[i] + 1), list, i + 1, kept, hit + [list[i]], imask, empties)
            else Splitting(ws0, Written(ws, kept, list[i] + 1), list, i + 1, kept + [list[i]], hit, imask, empties)
  {
    hide PartOf, Distinct, Disjoint, RestOf, Pick, Written;
    RestLink(ws0, ws, list, i);
    PickNext(ws0, ws, list, i, imask, empties);
    if imask * ws[list[i]].mask != {} || ws[list[i]].ev in empties {
      Step(ws0, ws, list, i, hit, kept);
      Flip(hit + [list[i]], kept);
      LastInside(ws, list, i, kept);
    } else {
      Step(ws0, ws, list, i, kept, hit);
      Flip(kept + [list[i]], hit);
      LastInside(ws, list, i, hit);
    }
  }

  lemma SplitEnd(ws0: seq<Watch>, ws: seq<Watch>, list: seq<nat>, kept: seq<nat>, hit: seq<nat>,
                 imask: set<Interest>, empties: set<nat>)
    requires Splitting(ws0, ws, list, |list|, kept, hit, imask, empties)
    ensures kept != [] ==> kept[|kept| - 1] < |ws|
    ensures hit != [] ==> hit[|hit| - 1] < |ws|
    ensures kept == Pick(ws0, list, imask, empties, false) && hit == Pick(ws0, list, imask, empties, true)
    ensures var ws' := Written(Written(ws, hit, 0), kept, 0);
            Chain(ws', Link(hit, 0), hit) && Chain(ws', Link(kept, 0), kept) && RestOf(ws0, ws', list, |list|)
  {
    hide Distinct, Disjoint, RestOf, Pick, Written, PartOf, Chain;
    var n := |list|;
    assert list[..n] == list;
    LastInside(ws, list, n, kept);
    LastInside(ws, list, n, hit);
    var ws1 := Written(ws, hit, 0);
    RestWritten(ws0, ws, list, n, hit, 0);
    PartWritten(ws, list, n, hit, kept, 0);
    var ws2 := Written(ws1, kept, 0);
    RestWritten(ws0, ws1, list, n, kept, 0);
    PartWritten(ws1, list, n, kept, hit, 0);
    LastStays(ws1, list, n, kept, hit);
    Terminated(ws2, list, hit, Link(hit, 0));
    Terminated(ws2, list, kept, Link(kept, 0));
  }

  /** The loop of `take_watch_list`: one pass, no record is copied, both parts end up terminated.  `wp` and
      `kp` say which link is to be written next: that of a record, or a head when 0. */
  method SplitChain(ws0: seq<Watch>, first: nat, ghost list: seq<nat>, imask: set<Interest>, empties: set<nat>)
    returns (ws: seq<Watch>, taken: nat, whead: nat, wtail: nat)
    requires Chain(ws0, first, list) && Distinct(list)
    ensures Chain(ws, taken, Pick(ws0, list, imask, empties, true))
    ensures Chain(ws, whead, Pick(ws0, list, imask, empties, false))
    ensures wtail == Tail(Pick(ws0, list, imask, empties, false))
    ensures RestOf(ws0, ws, list, |list|)
  {
    hide Splitting, Pick, Chain, RestOf;
    ws, taken, whead, wtail := ws0, 0, first, 0;
    var wp: nat, kp: nat, wix: nat := 0, 0, first;
    ghost var i: nat := 0;
    ghost var kept: seq<nat>, hit: seq<nat> := [], [];
    SplitStart(ws0, first, list, imask, empties);
    while wix != 0
      invariant i <= |list| && wix == Link(list, i) && Splitting(ws0, ws, list, i, kept, hit, imask, empties)
      invariant wp == Tail(hit) && kp == wtail == Tail(kept)
      invariant (hit != [] ==> taken == hit[0] + 1) && (kept != [] ==> whead == kept[0] + 1)
      decreases |list| - i
    {
      SplitStep(ws0, ws, list, i, kept, hit, imask, empties);
      var w := ws[wix - 1];
      if imask * w.mask != {} || w.ev in empties {
        if wp == 0 { taken := wix; } else { ws := ws[wp - 1 := ws[wp - 1].(wlink := wix)]; }
        wp := wix;
        hit := hit + [list[i]];
      } else {
        if kp == 0 { whead := wix; } else { ws := ws[kp - 1 := ws[kp - 1].(wlink := wix)]; }
        kp, wtail := wix, wix;
        kept := kept + [list[i]];
      }
      wix := w.wlink;
      i := i + 1;
    }
    SplitEnd(ws0, ws, list, kept, hit, imask, empties);
    if wp == 0 { taken := 0; } else { ws := ws[wp - 1 := ws[wp - 1].(wlink := 0)]; }
    if kp == 0 { whead := 0; } else { ws := ws[kp - 1 := ws[kp - 1].(wlink := 0)]; }
  }

  lemma ChainRest(ws0: seq<Watch>, first: nat, list: seq<nat>)
    requires Chain(ws0, first, list)
    ensures RestOf(ws0, ws0, list, 0) && first == Link(list, 0)
    ensures list[..0] == []
    ensures forall imask, empties, hit :: Pick(ws0, list[..0], imask, empties, hit) == []
  {
  }

  lemma RestLink(ws0: seq<Watch>, ws: seq<Watch>, list: seq<nat>, i: nat)
    requires RestOf(ws0, ws, list, i) && i < |list|
    ensures list[i] < |ws| && ws[list[i]].wlink == Link(list, i + 1)
  {
  }

  lemma NoParts(ws: seq<Watch>, list: seq<nat>)
    ensures PartOf(ws, list, 0, []) && Disjoint([], [])
  {
  }

  lemma LastInside(ws: seq<Watch>, list: seq<nat>, i: nat, part: seq<nat>)
    requires PartOf(ws, list, i, part)
    ensures part != [] ==> part[|part| - 1] < |ws| && Tail(part) == part[|part| - 1] + 1
  {
  }

  lemma Flip(a: seq<nat>, b: seq<nat>)
    requires Disjoint(a, b)
    ensures Disjoint(b, a)
  {
  }

  /** Terminating one part leaves the end of the other alone. */
  lemma LastStays(ws: seq<Watch>, list: seq<nat>, i: nat, part: seq<nat>, other: seq<nat>)
    requires PartOf(ws, list, i, part) && PartOf(ws, list, i, other) && Disjoint(part, other)
    ensures other != [] ==> Written(ws, part, 0)[other[|other| - 1]].wlink == ws[other[|other| - 1]].wlink
  {
  }

  lemma PickNext(ws0: seq<Watch>, ws: seq<Watch>, list: seq<nat>, i: nat, imask: set<Interest>, empties: set<nat>)
    requires RestOf(ws0, ws, list, i) && i < |list|
    ensures var hit := imask * ws[list[i]].mask != {} || ws[list[i]].ev in empties;
            && Pick(ws0, list[..i + 1], imask, empties, hit) == Pick(ws0, list[..i], imask, empties, hit) + [list[i]]
            && Pick(ws0, list[..i + 1], imask, empties, !hit) == Pick(ws0, list[..i], imask, empties, !hit)
  {
    assert list[..i + 1][..i] == list[..i];
  }

  /** The event of the record that `wix` links to has been taken out of it, and no other record is touched. */
  ghost predicate Popped(ws: seq<Watch>, ws': seq<Watch>, wix: nat, ev: nat) {
    && |ws'| == |ws| && 0 < wix <= |ws| && ev == ws[wix - 1].ev != 0 && ws'[wix - 1].ev == 0
    && forall s :: 0 <= s < |ws| && s != wix - 1 ==> ws'[s] == ws[s]
  }

  /** The record that `wix` links to has gone from the front of the detached list `t` to that of the free list. */
  ghost predicate PoppedFrom(v: View, v': View, t: nat, wix: nat, rest: nat) {
    && wix > 0 && t in v.detached && v.detached[t] != []
    && v' == v.(detached := v.detached[t := v.detached[t][1..]], free := [wix - 1] + v.free, place := v'.place)
    && rest == Link(v.detached[t][1..], 0)
  }

  // ---- the object ----

  /** Owner and epoch of a descriptor; one that is not recorded yet has neither. */
  function Owner(fdrs: seq<FdRec>, fd: nat): (nat, nat) {
    if fd < |fdrs| then (fdrs[fd].body, fdrs[fd].epoch) else (0, 0)
  }

  /** The owner and epoch of `fd` become `owner`, and those of no other descriptor change. */
  ghost predicate Owned(fdrs: seq<FdRec>, fdrs': seq<FdRec>, fd: nat, owner: (nat, nat)) {
    |fdrs| <= |fdrs'| && forall f: nat :: Owner(fdrs', f) == if f == fd then owner else Owner(fdrs, f)
  }

  /** The update list with `fd` on it. */
  function WithUpdate(updates: seq<nat>, fd: nat): seq<nat> { if fd in updates then updates else [fd] + updates }

  lemma OwnedTrans(a: seq<FdRec>, b: seq<FdRec>, c: seq<FdRec>, fd: nat, x: (nat, nat), y: (nat, nat))
    requires Owned(a, b, fd, x) && Owned(b, c, fd, y)
    ensures Owned(a, c, fd, y)
  {
  }

  lemma OwnedIs(fdrs: seq<FdRec>, fdrs': seq<FdRec>, fd: nat, owner: (nat, nat))
    requires Owned(fdrs, fdrs', fd, owner) && fd < |fdrs'|
    ensures (fdrs'[fd].body, fdrs'[fd].epoch) == owner
  {
    assert Owner(fdrs', fd) == owner;
  }

  lemma OwnedOne(fdrs: seq<FdRec>, fd: nat, r: FdRec)
    requires fd < |fdrs|
    ensures Owned(fdrs, fdrs[fd := r], fd, (r.body, r.epoch))
  {
  }

  lemma OwnedGrown(fdrs: seq<FdRec>, fdrs': seq<FdRec>, fd: nat)
    requires fdrs <= fdrs' && forall f :: |fdrs| <= f < |fdrs'| ==> fdrs'[f] == NEW_FD
    ensures Owned(fdrs, fdrs', fd, Owner(fdrs, fd))
  {
  }

  const FIRST_CAPACITY: nat := 128
  const BLOCK_CAPACITY: nat := 1024

  class FdSet {
    var fdrs: seq<FdRec>
    var ws: seq<Watch>
    var freeWlink: nat
    var updateLink: nat
    ghost var v: View

    ghost predicate Valid()
      reads this
    {
      Inv(ws, fdrs, freeWlink, updateLink, v, -1)
    }

    constructor ()
      ensures Valid() && v == View([], [], map[], [], [])
    {
      fdrs, ws, freeWlink, updateLink, v := [], [], 0, LINK_SENTINEL, View([], [], map[], [], []);
    }

    /** `hard_ensure`: room for descriptor `ufd`. */
    method HardEnsure(ufd: nat)
      requires Valid() && |fdrs| <= ufd < LINK_SENTINEL - BLOCK_CAPACITY
      modifies this`fdrs, this`v
      ensures Valid() && ufd < |fdrs| && old(fdrs) <= fdrs
      ensures v == old(v).(lists := v.lists) && old(v.lists) <= v.lists && |v.lists| == |fdrs|
      ensures forall fd :: |old(fdrs)| <= fd < |fdrs| ==> v.lists[fd] == [] && fdrs[fd] == NEW_FD
      ensures ufd >= BLOCK_CAPACITY ==> |fdrs| % BLOCK_CAPACITY == 0 && |fdrs| <= ufd + BLOCK_CAPACITY
      ensures ufd < BLOCK_CAPACITY ==>
                && |fdrs| >= FIRST_CAPACITY && |fdrs| >= 2 * |old(fdrs)|
                && (|fdrs| == FIRST_CAPACITY || |fdrs| == 2 * |old(fdrs)| || |fdrs| <= 2 * ufd)
    {
      var capacity;
      if ufd >= BLOCK_CAPACITY {
        capacity := (ufd / BLOCK_CAPACITY + 1) * BLOCK_CAPACITY;
      } else {
        capacity := if FIRST_CAPACITY > |fdrs| * 2 then FIRST_CAPACITY else |fdrs| * 2;
        while ufd >= capacity
          invariant FIRST_CAPACITY <= capacity < LINK_SENTINEL && capacity >= 2 * |fdrs|
          invariant capacity == FIRST_CAPACITY || capacity == 2 * |fdrs| || capacity <= 2 * ufd
          decreases 2 * BLOCK_CAPACITY - capacity
        {
          capacity := capacity * 2;
        }
      }
      var more := capacity - |fdrs|;
      ghost var lists := v.lists + seq(more, _ => []);
      GrowInv(ws, fdrs, freeWlink, updateLink, v, more);
      fdrs := fdrs + seq(more, _ => NEW_FD);
      v := v.(lists := lists);
    }

    /** The descriptor is put in front of the update list unless it is there already. */
    method QueueUpdate(ufd: nat)
      requires Valid() && ufd < |fdrs|
      modifies this`fdrs, this`updateLink, this`v
      ensures Valid() && v == old(v).(updates := v.updates)
      ensures v.updates == WithUpdate(old(v.updates), ufd)
      ensures fdrs == old(fdrs)[ufd := old(fdrs[ufd]).(updateLink := fdrs[ufd].updateLink)]
    {
      if fdrs[ufd].updateLink == LINK_CLEAN {
        var r := fdrs[ufd].(updateLink := updateLink);
        QueueInv(ws, fdrs, freeWlink, updateLink, v, ufd);
        fdrs, updateLink := fdrs[ufd := r], ufd + 1;
        v := v.(updates := [ufd] + v.updates);
      }
    }

    /** `watch`: a new record goes to the end of the descriptor's list.  A descriptor that is taken over
        must have been closed by its previous owner.  `wix` is the link of the record, 0 if there is
        nothing to watch. */
    method Watch(fd: int, mask: set<Interest>, body: nat, ev: nat) returns (wix: nat)
      requires Valid() && ev != 0 && fd < LINK_SENTINEL - BLOCK_CAPACITY
      requires 0 <= fd < |fdrs| ==> fdrs[fd].body == 0 || fdrs[fd].body == body
      modifies this
      ensures Valid()
      ensures wix == 0 <==> fd < 0 || mask == {}
      ensures wix == 0 ==> v == old(v) && fdrs == old(fdrs) && ws == old(ws)
      ensures wix != 0 ==> fd < |fdrs| && Owned(old(fdrs), fdrs, fd, (body, Owner(old(fdrs), fd).1))
      ensures wix != 0 ==> v.updates == WithUpdate(old(v.updates), fd) && Added(old(v), v, fd, wix - 1)
      ensures wix != 0 ==> Placed(old(ws), ws, wix - 1, WatchLists.Watch(ev, mask, LINK_CLEAN))
    {
      hide *;
      wix := 0;
      if fd < 0 || mask == {} {
        return;
      }
      EnsureRoom(fd);
      wix := WatchKnown(fd, mask, body, ev, old(v), old(fdrs));
    }

    method EnsureRoom(ufd: nat)
      requires Valid() && ufd < LINK_SENTINEL - BLOCK_CAPACITY
      modifies this`fdrs, this`v
      ensures Valid() && ufd < |fdrs|
      ensures v == old(v).(lists := v.lists) && old(v.lists) <= v.lists
      ensures forall fd :: |old(v.lists)| <= fd < |v.lists| ==> v.lists[fd] == []
      ensures Owned(old(fdrs), fdrs, ufd, Owner(old(fdrs), ufd))
    {
      SizesMatch();
      hide *;
      OwnedGrown(fdrs, fdrs, ufd);
      if ufd >= |fdrs| {
        HardEnsure(ufd);
        OwnedGrown(old(fdrs), fdrs, ufd);
      }
    }

    /** The rest of `watch`, with room for the descriptor. */
    method WatchKnown(ufd: nat, mask: set<Interest>, body: nat, ev: nat, ghost v0: View, ghost fdrs0: seq<FdRec>)
      returns (wix: nat)
      requires Valid() && ev != 0 && ufd < |fdrs| && Owned(fdrs0, fdrs, ufd, Owner(fdrs0, ufd))
      requires v == v0.(lists := v.lists) && v0.lists <= v.lists
      requires forall fd :: |v0.lists| <= fd < |v.lists| ==> v.lists[fd] == []
      modifies this
      ensures Valid() && wix != 0
      ensures ufd < |fdrs| && Owned(fdrs0, fdrs, ufd, (body, Owner(fdrs0, ufd).1))
      ensures v.updates == WithUpdate(v0.updates, ufd) && Added(v0, v, ufd, wix - 1)
      ensures Placed(old(ws), ws, wix - 1, WatchLists.Watch(ev, mask, LINK_CLEAN))
    {
      hide Inv, Placed, Added, Owned;
      OwnedOne(fdrs, ufd, fdrs[ufd].(body := body));
      OwnedIs(fdrs0, fdrs, ufd, Owner(fdrs0, ufd));
      OwnedTrans(fdrs0, fdrs, fdrs[ufd := fdrs[ufd].(body := body)], ufd, Owner(fdrs0, ufd), (body, fdrs[ufd].epoch));
      SetBody(ufd, body);
      ghost var fdrs1 := fdrs;
      QueueUpdate(ufd);
      ghost var v1 := v;
      wix := AppendWatch(ufd, mask, ev);
      AddedGrown(v0, v1, v, ufd, wix - 1);
      assert fdrs == fdrs1[ufd := fdrs[ufd]];
      OwnedOne(fdrs1, ufd, fdrs[ufd]);
      OwnedTrans(fdrs0, fdrs1, fdrs, ufd, (body, Owner(fdrs0, ufd).1), (body, Owner(fdrs0, ufd).1));
    }

    lemma SizesMatch()
      requires Valid()
      ensures |v.lists| == |fdrs|
    {
    }

    method SetBody(ufd: nat, body: nat)
      requires Valid() && ufd < |fdrs|
      modifies this`fdrs
      ensures Valid() && fdrs == old(fdrs)[ufd := old(fdrs[ufd]).(body := body)]
    {
      RecordInv(ws, fdrs, freeWlink, updateLink, v, ufd, fdrs[ufd].(body := body));
      fdrs := fdrs[ufd := fdrs[ufd].(body := body)];
    }

    method AppendWatch(ufd: nat, mask: set<Interest>, ev: nat) returns (wix: nat)
      requires Valid() && ufd < |fdrs| && ev != 0
      modifies this`ws, this`freeWlink, this`fdrs, this`v
      ensures Valid() && wix != 0 && Added(old(v), v, ufd, wix - 1) && v.updates == old(v.updates)
      ensures Placed(old(ws), ws, wix - 1, WatchLists.Watch(ev, mask, LINK_CLEAN))
      ensures fdrs == old(fdrs)[ufd := old(fdrs[ufd]).(whead := fdrs[ufd].whead, wtail := fdrs[ufd].wtail)]
    {
      hide Inv, Append, Chain, Distinct, Added, Placed;
      ListBounds(ws, fdrs, freeWlink, updateLink, v, ufd);
      AppendInv(ws, fdrs, freeWlink, updateLink, v, ufd, mask, ev);
      AppendMore(ws, fdrs, freeWlink, updateLink, v, ufd, mask, ev);
      ghost var n := |ws|;
      wix := freeWlink;
      if wix != 0 {
        freeWlink := ws[wix - 1].wlink;
        ws := ws[wix - 1 := ws[wix - 1].(mask := mask, wlink := LINK_CLEAN)];
      } else {
        ws := ws + [WatchLists.Watch(0, mask, LINK_CLEAN)];
        wix := |ws|;
      }
      if fdrs[ufd].whead != 0 {
        ws := ws[fdrs[ufd].wtail - 1 := ws[fdrs[ufd].wtail - 1].(wlink := wix)];
      } else {
        fdrs := fdrs[ufd := fdrs[ufd].(whead := wix)];
      }
      fdrs := fdrs[ufd := fdrs[ufd].(wtail := wix)];
      ws := ws[wix - 1 := ws[wix - 1].(ev := ev)];
      assert ws == AppendedWs(old(ws), old(v.lists[ufd]), wix - 1, mask, ev);
      assert fdrs == old(fdrs)[ufd := AppendedRec(old(fdrs[ufd]), wix - 1)];
      v := Append(v, n, ufd, wix - 1);
    }

    /** `take_watch_list`: the records that a notification concerns, or that are obsolete, leave the
        descriptor's list for a detached one, the others stay; both keep their order.  `t` names the
        detached list. */
    method TakeWatchList(ufd: nat, imask: set<Interest>, epoch: nat, empties: set<nat>, ghost t: nat) returns (whead: nat)
      requires Valid() && t !in v.detached
      modifies this`ws, this`fdrs, this`updateLink, this`v
      ensures Valid() && |fdrs| == |old(fdrs)| == |old(v.lists)|
      ensures forall f: nat :: Owner(fdrs, f) == Owner(old(fdrs), f)
      ensures ufd >= |fdrs| || (epoch != 0 && epoch != old(fdrs[ufd].epoch)) || old(v.lists[ufd]) == [] ==>
                whead == 0 && v == old(v)
      ensures ufd < |fdrs| && (epoch == 0 || epoch == old(fdrs[ufd].epoch)) && old(v.lists[ufd]) != [] ==>
                Taken(old(v), v, old(ws), ufd, imask, empties, t) && whead == Link(v.detached[t], 0)
      ensures forall s :: 0 <= s < |ws| ==> s < |old(ws)| && ws[s] == old(ws[s]).(wlink := ws[s].wlink)
    {
      hide Inv, Pick, Chain, RestOf, Distinct, Relist, Taken;
      SizesMatch();
      if ufd >= |fdrs| {
        return 0;
      }
      ListBounds(ws, fdrs, freeWlink, updateLink, v, ufd);
      if fdrs[ufd].whead == 0 || (epoch != 0 && epoch != fdrs[ufd].epoch) {
        return 0;
      }
      ghost var list, ws0 := v.lists[ufd], ws;
      var ws1, taken, keep, tail := SplitChain(ws, fdrs[ufd].whead, list, imask, empties);
      TakeInv(ws, fdrs, freeWlink, updateLink, v, ufd, imask, empties, t, ws1, taken, keep, tail);
      TakenIs(ws, v, ufd, imask, empties, t);
      RestIs(ws, ws1, list);
      ws := ws1;
      fdrs := fdrs[ufd := fdrs[ufd].(whead := keep, wtail := tail)];
      v := TakenView(v, ws0, ufd, imask, empties, t);
      if taken != 0 {
        QueueUpdate(ufd);
        StillTaken(old(v), v, ws0, ufd, imask, empties, t);
      }
      return taken;
    }

    /** `pop_watch_list_event`: the first record of a detached list is freed; its event is returned. */
    method PopWatchListEvent(wix: nat, ghost t: nat) returns (rest: nat, ev: nat)
      requires Valid() && t in v.detached && v.detached[t] != [] && wix == Link(v.detached[t], 0)
      modifies this`ws, this`freeWlink, this`v
      ensures Valid() && Popped(old(ws), ws, wix, ev) && PoppedFrom(old(v), v, t, wix, rest)
    {
      hide Inv, Chain, Moved;
      MoveInv(ws, fdrs, freeWlink, updateLink, v, -1, Detached(t), fdrs);
      MovedIs(v, Detached(t));
      rest := ws[wix - 1].wlink;
      ev := ws[wix - 1].ev;
      ws := ws[wix - 1 := ws[wix - 1].(ev := 0, wlink := freeWlink)];
      freeWlink := wix;
      v := Moved(v, Detached(t));
    }

    /** The loop over a detached list, as when the driver is cleared: its events come out in order. */
    method Drain(wix: nat, ghost t: nat) returns (events: seq<nat>)
      requires Valid() && t in v.detached && wix == Link(v.detached[t], 0)
      modifies this`ws, this`freeWlink, this`v
      ensures Valid() && |ws| == |old(ws)| && v.lists == old(v.lists) && v.updates == old(v.updates)
      ensures v.detached == old(v.detached)[t := []] && v.free == Reversed(old(v.detached[t])) + old(v.free)
      ensures |events| == |old(v.detached[t])|
      ensures forall i :: 0 <= i < |events| ==>
                old(v.detached[t])[i] < |old(ws)| && events[i] == old(ws)[old(v.detached[t])[i]].ev != 0
      ensures forall s: nat :: s < |ws| && s !in old(v.detached[t]) ==> ws[s] == old(ws)[s]
    {
      hide Inv, Reversed, Chain, Distinct;
      events := [];
      ghost var list, i := v.detached[t], 0;
      DrainStart(ws, fdrs, freeWlink, updateLink, v, t);
      var next := wix;
      while next != 0
        invariant i <= |list| && Draining(old(ws), ws, old(v), v, t, list, i, events)
        invariant Valid() && next == Link(list[i..], 0)
        decreases |list| - i
      {
        ghost var ws1, v1 := ws, v;
        var ev;
        next, ev := PopWatchListEvent(next, t);
        DrainStep(old(ws), ws1, ws, old(v), v1, v, t, list, i, events, ev, next);
        events := events + [ev];
        i := i + 1;
      }
      DrainEnd(old(ws), ws, old(v), v, t, list, i, events);
    }

    /** `fd_close`: all watches of a closed descriptor are freed, their events triggered in order; the
        kernel is to be told; the old owner is returned with the epoch it had. */
    method FdClose(ufd: nat, closed: set<nat>) returns (r: Option<(nat, nat)>, triggered: seq<nat>)
      requires Valid()
      modifies this`ws, this`fdrs, this`freeWlink, this`updateLink, this`v
      ensures Valid() && |fdrs| == |old(fdrs)|
      ensures r.None? <==> ufd >= |fdrs| || old(fdrs[ufd].body) == 0 || old(fdrs[ufd].body) !in closed
      ensures r.None? ==> v == old(v) && fdrs == old(fdrs) && ws == old(ws) && triggered == []
      ensures r.Some? ==> r.value == (old(fdrs[ufd].body), old(fdrs[ufd].epoch))
      ensures r.Some? ==> Owned(old(fdrs), fdrs, ufd, (0, old(fdrs[ufd].epoch) + 1))
      ensures r.Some? ==> v.updates == WithUpdate(old(v.updates), ufd)
      ensures r.Some? ==> v.lists == old(v.lists)[ufd := []] && v.detached == old(v.detached)
      ensures r.Some? ==> |triggered| == |old(v.lists[ufd])| && v.free == Reversed(old(v.lists[ufd])) + old(v.free)
      ensures r.Some? ==> forall i :: 0 <= i < |triggered| ==>
                old(v.lists[ufd])[i] < |old(ws)| && triggered[i] == old(ws)[old(v.lists[ufd])[i]].ev != 0
      ensures r.Some? ==> |ws| == |old(ws)| && forall s: nat :: s < |ws| && s !in old(v.lists[ufd]) ==> ws[s] == old(ws)[s]
    {
      hide Inv, Moved, Reversed, Owned;
      SizesMatch();
      triggered := [];
      if ufd >= |fdrs| || fdrs[ufd].body == 0 || fdrs[ufd].body !in closed {
        return None, [];
      }
      triggered := FreeAll(ufd);
      var r0 := fdrs[ufd];
      CloseInv(ws, fdrs, freeWlink, updateLink, v, ufd, r0.(wtail := LINK_CLEAN, epoch := r0.epoch + 1, body := 0));
      fdrs := fdrs[ufd := r0.(wtail := LINK_CLEAN, epoch := r0.epoch + 1, body := 0)];
      QueueUpdate(ufd);
      assert fdrs == old(fdrs)[ufd := fdrs[ufd]];
      OwnedOne(old(fdrs), ufd, fdrs[ufd]);
      return Some((r0.body, r0.epoch)), triggered;
    }

    /** `pop_update`: the descriptor last queued comes off the update list with the interest its watches
        have now.  The kernel's registration is identified by the epoch returned; one that ends, or is the
        first, makes the next one different. */
    method PopUpdate(empties: set<nat>) returns (u: Option<Update>)
      requires Valid()
      modifies this`fdrs, this`updateLink, this`v
      ensures Valid() && |fdrs| == |old(fdrs)| && |v.lists| == |fdrs|
      ensures u.None? <==> old(v.updates) == []
      ensures u.None? ==> v == old(v) && fdrs == old(fdrs)
      ensures u.Some? ==> v == old(v).(updates := old(v.updates)[1..])
      ensures u.Some? ==> u.value.fd == old(v.updates)[0] && u.value.fd < |fdrs|
      ensures u.Some? ==> (forall i :: 0 <= i < |v.lists[u.value.fd]| ==> v.lists[u.value.fd][i] < |ws|)
                          && u.value.mask == MaskOf(ws, v.lists[u.value.fd], empties)
      ensures u.Some? ==> var owner := Owner(old(fdrs), u.value.fd);
                && u.value.epoch == (if u.value.mask != {} && owner.1 < USER_EPOCH then USER_EPOCH else owner.1)
                && Owned(old(fdrs), fdrs, u.value.fd, (owner.0, if u.value.mask == {} then owner.1 + 1 else u.value.epoch))
    {
      hide Inv, Chain, Distinct, Owned, MaskOf;
      UpdateHead(ws, fdrs, freeWlink, updateLink, v);
      if updateLink == LINK_SENTINEL {
        return None;
      }
      var ufd := updateLink - 1;
      ListBounds(ws, fdrs, freeWlink, updateLink, v, ufd);
      BelowSize(v.lists[ufd], |ws|);
      var mask := WatchListMask(ws, fdrs[ufd].whead, v.lists[ufd], empties);
      var epoch := fdrs[ufd].epoch;
      var next := epoch;
      if mask == {} {
        next := epoch + 1;
      } else if epoch < USER_EPOCH {
        epoch := USER_EPOCH;
        next := epoch;
      }
      DequeueInv(ws, fdrs, freeWlink, updateLink, v, fdrs[ufd].(updateLink := LINK_CLEAN, epoch := next));
      updateLink := fdrs[ufd].updateLink;
      OwnedOne(fdrs, ufd, fdrs[ufd].(updateLink := LINK_CLEAN, epoch := next));
      fdrs := fdrs[ufd := fdrs[ufd].(updateLink := LINK_CLEAN, epoch := next)];
      v := v.(updates := v.updates[1..]);
      return Some(Update(ufd, mask, epoch));
    }

    /** `next_known`: the next descriptor after `fd` with any watch. */
    method NextKnown(fd: int, empties: set<nat>) returns (u: Option<Update>)
      requires Valid() && fd >= -1
      ensures |v.lists| == |fdrs|
      ensures u.None? <==> forall f :: fd < f < |fdrs| ==> v.lists[f] == []
      ensures u.Some? ==> fd < u.value.fd < |fdrs| && v.lists[u.value.fd] != []
      ensures u.Some? ==> forall f :: fd < f < u.value.fd ==> v.lists[f] == []
      ensures u.Some? ==> (forall i :: 0 <= i < |v.lists[u.value.fd]| ==> v.lists[u.value.fd][i] < |ws|)
                          && u.value.mask == MaskOf(ws, v.lists[u.value.fd], empties)
                          && u.value.epoch == fdrs[u.value.fd].epoch
    {
      hide Inv, Chain, Distinct;
      SizesMatch();
      var ufd: nat := fd + 1;
      while ufd < |fdrs|
        invariant forall f :: fd < f < ufd && f < |fdrs| ==> v.lists[f] == []
      {
        ListBounds(ws, fdrs, freeWlink, updateLink, v, ufd);
        if fdrs[ufd].whead != LINK_CLEAN {
          BelowSize(v.lists[ufd], |ws|);
          var mask := WatchListMask(ws, fdrs[ufd].whead, v.lists[ufd], empties);
          return Some(Update(ufd, mask, fdrs[ufd].epoch));
        }
        ufd := ufd + 1;
      }
      return None;
    }

    /** `active_watch_count`: the records that are not free. */
    method ActiveWatchCount() returns (n: nat)
      requires Valid()
      ensures |v.place| == |ws| && n == Busy(v.place, |ws|)
    {
      hide Inv, Chain, Distinct, ListAt;
      PlaceBounds(ws, fdrs, freeWlink, updateLink, v, -1, Free);
      FreeIs(fdrs, freeWlink, v);
      FreeCount(ws, fdrs, freeWlink, updateLink, v);
      n := |ws|;
      var wix := freeWlink;
      ghost var i: nat := 0;
      ChainHead(ws, freeWlink, v.free);
      while wix != 0
        invariant i <= |v.free| <= |ws| && wix == Link(v.free, i) && n == |ws| - i
        decreases |v.free| - i
      {
        n := n - 1;
        ChainNext(ws, freeWlink, v.free, i);
        wix := ws[wix - 1].wlink;
        i := i + 1;
      }
    }

    /** One round of it, but for the trigger. */
    method FreeFirst(ufd: nat)
      requires ufd < |fdrs| && 0 < fdrs[ufd].whead <= |ws|
      requires ListAt(v, Watching(ufd)) != [] && ListAt(v, Watching(ufd))[0] < |v.place|
      modifies this`ws, this`fdrs, this`freeWlink, this`v
      ensures var s := old(fdrs[ufd].whead) - 1;
              && fdrs == old(fdrs)[ufd := old(fdrs[ufd]).(whead := old(ws[s].wlink))]
              && ws == old(ws)[s := old(ws[s]).(ev := 0, wlink := old(freeWlink))]
              && freeWlink == s + 1 && v == Moved(old(v), Watching(ufd))
    {
      hide Moved, ListAt;
      var wix := fdrs[ufd].whead;
      fdrs := fdrs[ufd := fdrs[ufd].(whead := ws[wix - 1].wlink)];
      ws := ws[wix - 1 := ws[wix - 1].(ev := 0, wlink := freeWlink)];
      freeWlink := wix;
      v := Moved(v, Watching(ufd));
    }

    /** The loop of `fd_close`. */
    method FreeAll(ufd: nat) returns (triggered: seq<nat>)
      requires Valid() && ufd < |fdrs|
      modifies this`ws, this`fdrs, this`freeWlink, this`v
      ensures Inv(ws, fdrs, freeWlink, updateLink, v, ufd) && |fdrs| == |old(fdrs)| == |old(v.lists)|
      ensures fdrs == old(fdrs)[ufd := old(fdrs[ufd]).(whead := 0)]
      ensures v.lists == old(v.lists)[ufd := []] && v.detached == old(v.detached) && v.updates == old(v.updates)
      ensures v.free == Reversed(old(v.lists[ufd])) + old(v.free)
      ensures |triggered| == |old(v.lists[ufd])|
      ensures forall i :: 0 <= i < |triggered| ==>
                old(v.lists[ufd])[i] < |old(ws)| && triggered[i] == old(ws)[old(v.lists[ufd])[i]].ev != 0
      ensures |ws| == |old(ws)| && forall s: nat :: s < |ws| && s !in old(v.lists[ufd]) ==> ws[s] == old(ws)[s]
    {
      hide Inv, Moved, Reversed, Chain, Distinct, Emptying, ListAt;
      SizesMatch();
      ListBounds(ws, fdrs, freeWlink, updateLink, v, ufd);
      EmptyingStart(ws, fdrs, freeWlink, updateLink, v, ufd);
      ghost var list, ws0, v0, i := v.lists[ufd], ws, v, 0;
      triggered := [];
      while fdrs[ufd].whead != 0
        invariant i <= |list| && Emptying(ws0, ws, v0, v, ufd, list, i, triggered)
        invariant Inv(ws, fdrs, freeWlink, updateLink, v, ufd) && |fdrs| == |old(fdrs)|
        invariant fdrs == old(fdrs)[ufd := old(fdrs[ufd]).(whead := Link(list[i..], 0))]
        decreases |list| - i
      {
        EmptyingStep(ws0, ws, fdrs, freeWlink, updateLink, v0, v, ufd, list, i, triggered);
        triggered := triggered + [ws[fdrs[ufd].whead - 1].ev];
        FreeFirst(ufd);
        i := i + 1;
      }
      EmptyingEnd(ws0, ws, v0, v, ufd, list, i, triggered);
    }
  }

  lemma AddedGrown(v: View, v1: View, v': View, fd: nat, s: nat)
    requires Added(v1, v', fd, s) && v.lists <= v1.lists && v1.detached == v.detached && v1.free == v.free && v1.place == v.place
    requires forall f :: |v.lists| <= f < |v1.lists| ==> v1.lists[f] == []
    ensures Added(v, v', fd, s)
  {
  }

  /** Record `s` is `w`, and of the others only links have changed. */
  ghost predicate Placed(ws: seq<Watch>, ws': seq<Watch>, s: nat, w: Watch) {
    && s < |ws'| && |ws| <= |ws'| && ws'[s] == w
    && forall x :: 0 <= x < |ws| && x != s ==> ws'[x] == ws[x].(wlink := ws'[x].wlink)
  }

  /** The list of `fd` gets `s` at its end, from the free list or as a new record; the rest is as before. */
  ghost predicate Added(v: View, v': View, fd: nat, s: nat) {
    && fd < |v'.lists| && |v.lists| <= |v'.lists|
    && v'.lists[fd] == (if fd < |v.lists| then v.lists[fd] else []) + [s]
    && (forall f :: 0 <= f < |v.lists| && f != fd ==> v'.lists[f] == v.lists[f])
    && (forall f :: |v.lists| <= f < |v'.lists| && f != fd ==> v'.lists[f] == [])
    && v'.detached == v.detached
    && (if v.free != [] then s == v.free[0] && v'.free == v.free[1..] else s == |v.place| && v'.free == [])
  }

  /** Lists and heads stay as they are, whatever else changes. */
  lemma SameWatches(ws: seq<Watch>, fdrs: seq<FdRec>, fdrs': seq<FdRec>, freeWlink: nat, v: View, v': View)
    requires Partitioned(v, |ws|) && ChainsOk(ws, fdrs, freeWlink, v) && EventsOk(ws, v)
    requires v'.place == v.place && |fdrs'| == |v'.lists|
    requires forall p :: ListAt(v', p) == ListAt(v, p) && HeadOf(fdrs', freeWlink, v', p) == HeadOf(fdrs, freeWlink, v, p)
    ensures Partitioned(v', |ws|) && ChainsOk(ws, fdrs', freeWlink, v') && EventsOk(ws, v')
  {
    hide ListAt, HeadOf, Chain, Partitioned;
    SamePlaces(v, v', |ws|);
    forall p ensures Chain(ws, HeadOf(fdrs', freeWlink, v', p), ListAt(v', p)) {
      assert Chain(ws, HeadOf(fdrs, freeWlink, v, p), ListAt(v, p));
    }
  }

  lemma SamePlaces(v: View, v': View, n: nat)
    requires Partitioned(v, n) && v'.place == v.place && forall p :: ListAt(v', p) == ListAt(v, p)
    ensures Partitioned(v', n)
  {
    hide ListAt;
    forall p: Place, s: nat | s in ListAt(v', p) ensures IsAt(v', p, s) {
      assert s in ListAt(v, p) && IsAt(v, p, s);
    }
    forall s | 0 <= s < n ensures s in ListAt(v', v'.place[s]) { assert s in ListAt(v, v.place[s]); }
    forall p ensures Distinct(ListAt(v', p)) { assert Distinct(ListAt(v, p)); }
  }

  lemma GrowAt(fdrs: seq<FdRec>, freeWlink: nat, v: View, more: nat)
    requires |v.lists| == |fdrs|
    ensures var fdrs', v' := fdrs + seq(more, _ => NEW_FD), v.(lists := v.lists + seq(more, _ => []));
            forall p :: ListAt(v', p) == ListAt(v, p) && HeadOf(fdrs', freeWlink, v', p) == HeadOf(fdrs, freeWlink, v, p)
  {
  }

  lemma RecordAt(fdrs: seq<FdRec>, freeWlink: nat, v: View, fd: nat, r: FdRec, updates: seq<nat>)
    requires fd < |fdrs| && r.whead == fdrs[fd].whead
    ensures var fdrs', v' := fdrs[fd := r], v.(updates := updates);
            forall p :: ListAt(v', p) == ListAt(v, p) && HeadOf(fdrs', freeWlink, v', p) == HeadOf(fdrs, freeWlink, v, p)
  {
  }

  lemma GrowInv(ws: seq<Watch>, fdrs: seq<FdRec>, freeWlink: nat, head: nat, v: View, more: nat)
    requires Inv(ws, fdrs, freeWlink, head, v, -1) && |fdrs| + more < LINK_SENTINEL
    ensures Inv(ws, fdrs + seq(more, _ => NEW_FD), freeWlink, head, v.(lists := v.lists + seq(more, _ => [])), -1)
  {
    var fdrs', v' := fdrs + seq(more, _ => NEW_FD), v.(lists := v.lists + seq(more, _ => []));
    assert |v.lists| == |fdrs|;
    hide Partitioned, ChainsOk, EventsOk;
    GrowAt(fdrs, freeWlink, v, more);
    SameWatches(ws, fdrs, fdrs', freeWlink, v, v');
  }

  /** Bookkeeping of one descriptor that leaves its list of watches alone. */
  lemma RecordSame(ws: seq<Watch>, fdrs: seq<FdRec>, freeWlink: nat, v: View, fd: nat, r: FdRec, updates: seq<nat>)
    requires Partitioned(v, |ws|) && ChainsOk(ws, fdrs, freeWlink, v) && TailsOk(fdrs, v, -1) && EventsOk(ws, v)
    requires fd < |fdrs| && r.whead == fdrs[fd].whead && r.wtail == fdrs[fd].wtail
    ensures var v' := v.(updates := updates);
            && Partitioned(v', |ws|) && ChainsOk(ws, fdrs[fd := r], freeWlink, v') && TailsOk(fdrs[fd := r], v', -1)
            && EventsOk(ws, v')
  {
    var fdrs', v' := fdrs[fd := r], v.(updates := updates);
    assert |v.lists| == |fdrs|;
    hide Partitioned, ChainsOk, EventsOk;
    RecordAt(fdrs, freeWlink, v, fd, r, updates);
    SameWatches(ws, fdrs, fdrs', freeWlink, v, v');
  }

  lemma QueueInv(ws: seq<Watch>, fdrs: seq<FdRec>, freeWlink: nat, head: nat, v: View, fd: nat)
    requires Inv(ws, fdrs, freeWlink, head, v, -1) && fd < |fdrs| && fdrs[fd].updateLink == LINK_CLEAN
    ensures Inv(ws, fdrs[fd := fdrs[fd].(updateLink := head)], freeWlink, fd + 1, v.(updates := [fd] + v.updates), -1)
    ensures fd !in v.updates
  {
    hide Partitioned, ChainsOk, TailsOk, EventsOk;
    var r := fdrs[fd].(updateLink := head);
    Queued(fdrs, head, v.updates, fd, r);
    RecordSame(ws, fdrs, freeWlink, v, fd, r, [fd] + v.updates);
  }

  lemma RecordInv(ws: seq<Watch>, fdrs: seq<FdRec>, freeWlink: nat, head: nat, v: View, fd: nat, r: FdRec)
    requires Inv(ws, fdrs, freeWlink, head, v, -1) && fd < |fdrs|
    requires r.whead == fdrs[fd].whead && r.wtail == fdrs[fd].wtail && r.updateLink == fdrs[fd].updateLink
    ensures Inv(ws, fdrs[fd := r], freeWlink, head, v, -1)
  {
    hide Partitioned, ChainsOk, TailsOk, EventsOk;
    RecordSame(ws, fdrs, freeWlink, v, fd, r, v.updates);
    UpdatesSame(fdrs, fdrs[fd := r], head, v.updates);
    assert v.(updates := v.updates) == v;
    hide UpdatesOk;
  }

  // ---- records that change lists ----

  /** Everything but the two lists is as it was. */
  lemma DivideInv(ws: seq<Watch>, fdrs: seq<FdRec>, freeWlink: nat, head: nat, v: View, but: int,
                  ws': seq<Watch>, fdrs': seq<FdRec>, freeWlink': nat,
                  p: Place, l: seq<nat>, q: Place, m: seq<nat>, place: seq<Place>)
    requires Inv(ws, fdrs, freeWlink, head, v, but) && Divides(v, |ws|, |ws'|, p, l, q, m, place)
    requires |fdrs'| == |fdrs| && forall fd :: 0 <= fd < |fdrs| ==> fdrs'[fd].updateLink == fdrs[fd].updateLink
    requires forall s :: 0 <= s < |ws| && s !in ListAt(v, p) && s !in ListAt(v, q) ==> ws'[s].wlink == ws[s].wlink
    requires var v' := Relist(v, p, l, q, m, place);
             && (forall r :: r != p && r != q ==> HeadOf(fdrs', freeWlink', v', r) == HeadOf(fdrs, freeWlink, v, r))
             && Chain(ws', HeadOf(fdrs', freeWlink', v', p), l) && Chain(ws', HeadOf(fdrs', freeWlink', v', q), m)
             && TailsOk(fdrs', v', but) && EventsOk(ws', v')
    ensures Inv(ws', fdrs', freeWlink', head, Relist(v, p, l, q, m, place), but)
  {
    var v' := Relist(v, p, l, q, m, place);
    RelistSame(v, p, l, q, m, place);
    hide ListAt, HeadOf, Chain, Relist, EventsOk, TailsOk, Distinct;
    UpdatesSame(fdrs, fdrs', head, v.updates);
    hide UpdatesOk;
    Divided(v, |ws|, |ws'|, p, l, q, m, place);
    hide Partitioned;
    DividedChains(ws, fdrs, freeWlink, v, ws', fdrs', freeWlink', v', p, q);
  }

  lemma RelistSame(v: View, p: Place, l: seq<nat>, q: Place, m: seq<nat>, place: seq<Place>)
    requires Exists(v, p) && Exists(v, q)
    ensures Relist(v, p, l, q, m, place).updates == v.updates && |Relist(v, p, l, q, m, place).lists| == |v.lists|
  {
  }

  // ---- a new watch ----

  /** The record that a new watch gets. */
  function Fresh(freeWlink: nat, n: nat): nat { if freeWlink != 0 then freeWlink - 1 else n }

  function Append(v: View, n: nat, fd: nat, s: nat): View
    requires fd < |v.lists| && |v.place| == n && s <= n
  {
    Relist(v, Free, if v.free == [] then [] else v.free[1..], Watching(fd), v.lists[fd] + [s],
           if s < n then v.place[s := Watching(fd)] else v.place + [Watching(fd)])
  }

  /** The records with `s` linked behind `list`. */
  function AppendedWs(ws: seq<Watch>, list: seq<nat>, s: nat, mask: set<Interest>, ev: nat): (r: seq<Watch>)
    requires s <= |ws| && forall i :: 0 <= i < |list| ==> list[i] < |ws| && list[i] != s
    ensures |r| == if s < |ws| then |ws| else |ws| + 1
  {
    var w := WatchLists.Watch(ev, mask, LINK_CLEAN);
    var ws1 := if s < |ws| then ws[s := w] else ws + [w];
    if list == [] then ws1
    else ws1[list[|list| - 1] := ws1[list[|list| - 1]].(wlink := s + 1)]
  }

  function AppendedRec(r: FdRec, s: nat): FdRec {
    r.(whead := if r.whead != 0 then r.whead else s + 1, wtail := s + 1)
  }

  lemma ListBounds(ws: seq<Watch>, fdrs: seq<FdRec>, freeWlink: nat, head: nat, v: View, fd: nat)
    requires Inv(ws, fdrs, freeWlink, head, v, -1) && fd < |fdrs|
    ensures |v.lists| == |fdrs| && |v.place| == |ws|
    ensures freeWlink == Link(v.free, 0) && Chain(ws, freeWlink, v.free)
    ensures fdrs[fd].whead == Link(v.lists[fd], 0) && Chain(ws, fdrs[fd].whead, v.lists[fd])
    ensures fdrs[fd].wtail == Tail(v.lists[fd])
    ensures Distinct(v.free) && Distinct(v.lists[fd])
    ensures forall s: nat :: s in v.free ==> s < |ws| && v.place[s] == Free
    ensures forall s: nat :: s in v.lists[fd] ==> s < |ws| && v.place[s] == Watching(fd)
  {
    assert Chain(ws, HeadOf(fdrs, freeWlink, v, Free), ListAt(v, Free)) && Distinct(ListAt(v, Free));
    var p := Watching(fd);
    assert Chain(ws, HeadOf(fdrs, freeWlink, v, p), ListAt(v, p)) && Distinct(ListAt(v, p));
    forall s: nat | s in v.free ensures IsAt(v, Free, s) { assert s in ListAt(v, Free); }
    forall s: nat | s in v.lists[fd] ensures IsAt(v, p, s) { assert s in ListAt(v, p); }
  }

  lemma AppendDivides(v: View, n: nat, fd: nat, s: nat)
    requires |v.place| == n && fd < |v.lists| && s == (if v.free != [] then v.free[0] else n)
    requires Distinct(v.free) && Distinct(v.lists[fd])
    requires forall s: nat :: s in v.free ==> s < n && v.place[s] == Free
    requires forall s: nat :: s in v.lists[fd] ==> s < n && v.place[s] == Watching(fd)
    ensures s <= n && s !in v.lists[fd]
    ensures Divides(v, n, if s < n then n else n + 1, Free, if v.free == [] then [] else v.free[1..],
                    Watching(fd), v.lists[fd] + [s],
                    if s < n then v.place[s := Watching(fd)] else v.place + [Watching(fd)])
  {
    var l, m := if v.free == [] then [] else v.free[1..], v.lists[fd] + [s];
    if v.free != [] {
      assert s in v.free;
      assert v.free == [s] + l;
      forall i | 0 <= i < |l| ensures l[i] != s { assert v.free[i + 1] == l[i]; }
    }
    assert s !in v.lists[fd];
    forall i | 0 <= i < |v.lists[fd]| ensures v.lists[fd][i] != s { assert v.lists[fd][i] in v.lists[fd]; }
    assert ListAt(v, Free) == v.free && ListAt(v, Watching(fd)) == v.lists[fd];
    assert forall x: nat :: x in m <==> x == s || x in v.lists[fd];
    assert forall x: nat :: x in v.free <==> (x == s && v.free != []) || x in l;
  }

  lemma AppendPlaced(ws: seq<Watch>, list: seq<nat>, s: nat, mask: set<Interest>, ev: nat)
    requires s <= |ws| && forall i :: 0 <= i < |list| ==> list[i] < |ws| && list[i] != s
    ensures var ws' := AppendedWs(ws, list, s, mask, ev);
            && Placed(ws, ws', s, WatchLists.Watch(ev, mask, LINK_CLEAN))
            && forall x :: 0 <= x < |ws| && x != s && x !in list ==> ws'[x] == ws[x]
  {
  }

  lemma AppendChainFree(ws: seq<Watch>, ws': seq<Watch>, free: seq<nat>, list: seq<nat>)
    requires free != [] && Chain(ws, Link(free, 0), free) && Distinct(free) && |ws| <= |ws'|
    requires forall x: nat :: x in free ==> x !in list
    requires forall x :: 0 <= x < |ws| && x != free[0] && x !in list ==> ws'[x] == ws[x]
    ensures free[0] < |ws| && Chain(ws', ws[free[0]].wlink, free[1..])
  {
    var l := free[1..];
    forall i | 0 <= i < |l| ensures l[i] < |ws'| && ws'[l[i]].wlink == Link(l, i + 1) {
      assert l[i] == free[i + 1] && free[i + 1] in free;
    }
  }

  lemma AppendChainList(ws: seq<Watch>, list: seq<nat>, whead: nat, s: nat, mask: set<Interest>, ev: nat)
    requires s <= |ws| && Chain(ws, whead, list) && Distinct(list)
    requires forall i :: 0 <= i < |list| ==> list[i] < |ws| && list[i] != s
    ensures Chain(AppendedWs(ws, list, s, mask, ev), if list == [] then s + 1 else whead, list + [s])
  {
    var ws', m := AppendedWs(ws, list, s, mask, ev), list + [s];
    forall i | 0 <= i < |m| ensures m[i] < |ws'| && ws'[m[i]].wlink == Link(m, i + 1) {
      if i < |list| { assert ws[list[i]].wlink == Link(list, i + 1); }
    }
  }

  lemma AppendChains(ws: seq<Watch>, v: View, fd: nat, whead: nat, s: nat, mask: set<Interest>, ev: nat)
    requires |v.place| == |ws| && fd < |v.lists| && s == (if v.free != [] then v.free[0] else |ws|)
    requires s !in v.lists[fd] && forall i :: 0 <= i < |v.lists[fd]| ==> v.lists[fd][i] < |ws| && v.lists[fd][i] != s
    requires Chain(ws, Link(v.free, 0), v.free) && Chain(ws, whead, v.lists[fd])
    requires Distinct(v.free) && Distinct(v.lists[fd]) && s <= |ws|
    requires forall x: nat :: x in v.free ==> x !in v.lists[fd]
    ensures var ws' := AppendedWs(ws, v.lists[fd], s, mask, ev);
            && (v.free != [] ==> Chain(ws', ws[s].wlink, v.free[1..]))
            && Chain(ws', if v.lists[fd] == [] then s + 1 else whead, v.lists[fd] + [s])
            && (forall x :: 0 <= x < |ws| && x != s && x !in v.lists[fd] ==> ws'[x] == ws[x])
            && Placed(ws, ws', s, WatchLists.Watch(ev, mask, LINK_CLEAN))
  {
    AppendPlaced(ws, v.lists[fd], s, mask, ev);
    hide AppendedWs, Chain, Distinct, Placed;
    AppendChainList(ws, v.lists[fd], whead, s, mask, ev);
    if v.free != [] { AppendChainFree(ws, AppendedWs(ws, v.lists[fd], s, mask, ev), v.free, v.lists[fd]); }
  }

  lemma AppendHeads(fdrs: seq<FdRec>, freeWlink: nat, free': nat, v: View, n: nat, fd: nat, s: nat, r: FdRec)
    requires fd < |v.lists| == |fdrs| && |v.place| == n && s <= n
    ensures forall p :: p != Free && p != Watching(fd) ==>
              HeadOf(fdrs[fd := r], free', Append(v, n, fd, s), p) == HeadOf(fdrs, freeWlink, v, p)
    ensures HeadOf(fdrs[fd := r], free', Append(v, n, fd, s), Free) == free'
    ensures HeadOf(fdrs[fd := r], free', Append(v, n, fd, s), Watching(fd)) == r.whead
    ensures Append(v, n, fd, s).lists == v.lists[fd := v.lists[fd] + [s]]
    ensures Append(v, n, fd, s).place == if s < n then v.place[s := Watching(fd)] else v.place + [Watching(fd)]
    ensures Append(v, n, fd, s).detached == v.detached && Append(v, n, fd, s).updates == v.updates
    ensures Append(v, n, fd, s).free == if v.free == [] then [] else v.free[1..]
  {
  }

  lemma AppendEvents(ws: seq<Watch>, ws': seq<Watch>, v: View, v': View, fd: nat, s: nat, w: Watch)
    requires EventsOk(ws, v) && Placed(ws, ws', s, w) && w.ev != 0 && s <= |ws| && |ws'| == if s < |ws| then |ws| else |ws| + 1
    requires v'.place == if s < |ws| then v.place[s := Watching(fd)] else v.place + [Watching(fd)]
    ensures EventsOk(ws', v')
  {
  }

  lemma AppendTails(fdrs: seq<FdRec>, v: View, v': View, fd: nat, r: FdRec)
    requires TailsOk(fdrs, v, -1) && fd < |fdrs| && |v'.lists| == |v.lists| && v'.lists == v.lists[fd := v'.lists[fd]] && r.wtail == Tail(v'.lists[fd])
    ensures TailsOk(fdrs[fd := r], v', -1)
  {
  }

  /** What holds of the record that a new watch gets. */
  lemma AppendFits(ws: seq<Watch>, fdrs: seq<FdRec>, freeWlink: nat, head: nat, v: View, fd: nat)
    requires Inv(ws, fdrs, freeWlink, head, v, -1) && fd < |fdrs|
    ensures |v.lists| == |fdrs| && |v.place| == |ws|
    ensures var s := Fresh(freeWlink, |ws|);
            && s <= |ws| && (freeWlink != 0 ==> s < |ws|) && s == (if v.free != [] then v.free[0] else |ws|)
            && (forall i :: 0 <= i < |v.lists[fd]| ==> v.lists[fd][i] < |ws| && v.lists[fd][i] != s)
            && s !in v.lists[fd] && (s < |ws| ==> s in v.free)
            && Divides(v, |ws|, if s < |ws| then |ws| else |ws| + 1, Free, if v.free == [] then [] else v.free[1..],
                       Watching(fd), v.lists[fd] + [s],
                       if s < |ws| then v.place[s := Watching(fd)] else v.place + [Watching(fd)])
    ensures forall x: nat :: x in v.free ==> x !in v.lists[fd]
  {
    ListBounds(ws, fdrs, freeWlink, head, v, fd);
    hide Inv, Divides, Chain, Distinct;
    AppendDivides(v, |ws|, fd, Fresh(freeWlink, |ws|));
    assert forall i :: 0 <= i < |v.lists[fd]| ==> v.lists[fd][i] in v.lists[fd];
  }

  lemma AppendMore(ws: seq<Watch>, fdrs: seq<FdRec>, freeWlink: nat, head: nat, v: View, fd: nat,
                   mask: set<Interest>, ev: nat)
    requires Inv(ws, fdrs, freeWlink, head, v, -1) && fd < |fdrs| && ev != 0
    ensures |v.lists| == |fdrs| && |v.place| == |ws|
    ensures var s := Fresh(freeWlink, |ws|);
            && s <= |ws| && (freeWlink != 0 ==> s < |ws|)
            && (forall i :: 0 <= i < |v.lists[fd]| ==> v.lists[fd][i] < |ws| && v.lists[fd][i] != s)
            && Added(v, Append(v, |ws|, fd, s), fd, s) && Append(v, |ws|, fd, s).updates == v.updates
            && Placed(ws, AppendedWs(ws, v.lists[fd], s, mask, ev), s, WatchLists.Watch(ev, mask, LINK_CLEAN))
  {
    hide Inv, Divides, Placed, Append, AppendedWs, Added;
    AppendFits(ws, fdrs, freeWlink, head, v, fd);
    AppendPlaced(ws, v.lists[fd], Fresh(freeWlink, |ws|), mask, ev);
    AppendAdded(v, |ws|, fd, Fresh(freeWlink, |ws|));
  }

  lemma AppendAdded(v: View, n: nat, fd: nat, s: nat)
    requires fd < |v.lists| && |v.place| == n && s == (if v.free != [] then v.free[0] else n) && s <= n
    ensures Added(v, Append(v, n, fd, s), fd, s) && Append(v, n, fd, s).updates == v.updates
  {
  }

  lemma AppendInv(ws: seq<Watch>, fdrs: seq<FdRec>, freeWlink: nat, head: nat, v: View, fd: nat,
                  mask: set<Interest>, ev: nat)
    requires Inv(ws, fdrs, freeWlink, head, v, -1) && fd < |fdrs| && ev != 0
    ensures |v.lists| == |fdrs| && |v.place| == |ws|
    ensures var s := Fresh(freeWlink, |ws|);
            && s <= |ws| && (freeWlink != 0 ==> s < |ws|)
            && (forall i :: 0 <= i < |v.lists[fd]| ==> v.lists[fd][i] < |ws| && v.lists[fd][i] != s)
            && Inv(AppendedWs(ws, v.lists[fd], s, mask, ev), fdrs[fd := AppendedRec(fdrs[fd], s)],
                   if freeWlink != 0 then ws[s].wlink else 0, head, Append(v, |ws|, fd, s), -1)
  {
    hide Partitioned, ChainsOk, UpdatesOk, Distinct, Relist, Divides, Placed, HeadOf, EventsOk, TailsOk, AppendedWs;
    AppendFits(ws, fdrs, freeWlink, head, v, fd);
    ListBounds(ws, fdrs, freeWlink, head, v, fd);
    var s, n, list := Fresh(freeWlink, |ws|), |ws|, v.lists[fd];
    AppendChains(ws, v, fd, fdrs[fd].whead, s, mask, ev);
    var ws', r, free' := AppendedWs(ws, list, s, mask, ev), AppendedRec(fdrs[fd], s), if freeWlink != 0 then ws[s].wlink else 0;
    AppendHeads(fdrs, freeWlink, free', v, n, fd, s, r);
    var v' := Append(v, n, fd, s);
    var l, m := if v.free == [] then [] else v.free[1..], list + [s];
    var place := if s < n then v.place[s := Watching(fd)] else v.place + [Watching(fd)];
    assert v' == Relist(v, Free, l, Watching(fd), m, place);
    AppendEvents(ws, ws', v, v', fd, s, WatchLists.Watch(ev, mask, LINK_CLEAN));
    AppendTails(fdrs, v, v', fd, r);
    assert v.free == [] ==> Chain(ws', 0, []);
    hide Inv, Chain, Append, AppendedRec, Link, Tail;
    DivideInv(ws, fdrs, freeWlink, head, v, -1, ws', fdrs[fd := r], free', Free, l, Watching(fd), m, place);
  }

  // ---- a list is taken ----

  /** Records that are hit are now on detached list `t`. */
  function TakenPlaces(place: seq<Place>, hit: seq<nat>, t: nat): (r: seq<Place>)
    ensures |r| == |place|
    ensures forall s :: 0 <= s < |place| ==> r[s] == if s in hit then Detached(t) else place[s]
  {
    seq(|place|, s requires 0 <= s < |place| => if s in hit then Detached(t) else place[s])
  }

  function TakenView(v: View, ws: seq<Watch>, fd: nat, imask: set<Interest>, empties: set<nat>, t: nat): View
    requires fd < |v.lists| && forall i :: 0 <= i < |v.lists[fd]| ==> v.lists[fd][i] < |ws|
  {
    var hit := Pick(ws, v.lists[fd], imask, empties, true);
    Relist(v, Watching(fd), Pick(ws, v.lists[fd], imask, empties, false), Detached(t), hit, TakenPlaces(v.place, hit, t))
  }

  /** What `take_watch_list` does to the lists. */
  ghost predicate Taken(v: View, v': View, ws: seq<Watch>, fd: nat, imask: set<Interest>, empties: set<nat>, t: nat) {
    && fd < |v.lists| && (forall i :: 0 <= i < |v.lists[fd]| ==> v.lists[fd][i] < |ws|)
    && v'.lists == v.lists[fd := Pick(ws, v.lists[fd], imask, empties, false)]
    && v'.detached == v.detached[t := Pick(ws, v.lists[fd], imask, empties, true)]
    && v'.free == v.free
    && v'.updates == (if v'.detached[t] == [] then v.updates else WithUpdate(v.updates, fd))
  }

  lemma TakenIs(ws: seq<Watch>, v: View, fd: nat, imask: set<Interest>, empties: set<nat>, t: nat)
    requires fd < |v.lists| && forall i :: 0 <= i < |v.lists[fd]| ==> v.lists[fd][i] < |ws|
    ensures var v' := TakenView(v, ws, fd, imask, empties, t);
            && v'.lists == v.lists[fd := Pick(ws, v.lists[fd], imask, empties, false)]
            && v'.detached == v.detached[t := Pick(ws, v.lists[fd], imask, empties, true)]
            && v'.free == v.free && v'.updates == v.updates
            && v'.place == TakenPlaces(v.place, Pick(ws, v.lists[fd], imask, empties, true), t)
    ensures TakenView(v, ws, fd, imask, empties, t).detached[t] == [] ==>
              Taken(v, TakenView(v, ws, fd, imask, empties, t), ws, fd, imask, empties, t)
  {
  }

  lemma StillTaken(v: View, v': View, ws: seq<Watch>, fd: nat, imask: set<Interest>, empties: set<nat>, t: nat)
    requires fd < |v.lists| && forall i :: 0 <= i < |v.lists[fd]| ==> v.lists[fd][i] < |ws|
    requires v' == TakenView(v, ws, fd, imask, empties, t).(updates := v'.updates)
    requires v'.updates == WithUpdate(v.updates, fd)
    requires t in v'.detached && v'.detached[t] != []
    ensures Taken(v, v', ws, fd, imask, empties, t)
  {
    TakenIs(ws, v, fd, imask, empties, t);
  }

  lemma RestIs(ws0: seq<Watch>, ws: seq<Watch>, list: seq<nat>)
    requires RestOf(ws0, ws, list, |list|)
    ensures |ws| == |ws0| && forall s :: 0 <= s < |ws| ==> ws[s] == ws0[s].(wlink := ws[s].wlink)
  {
  }

  lemma TakeInv(ws: seq<Watch>, fdrs: seq<FdRec>, freeWlink: nat, head: nat, v: View, fd: nat,
                imask: set<Interest>, empties: set<nat>, t: nat, ws': seq<Watch>, taken: nat, keep: nat, tail: nat)
    requires Inv(ws, fdrs, freeWlink, head, v, -1) && fd < |fdrs| == |v.lists| && t !in v.detached
    requires forall i :: 0 <= i < |v.lists[fd]| ==> v.lists[fd][i] < |ws|
    requires Chain(ws', taken, Pick(ws, v.lists[fd], imask, empties, true))
    requires Chain(ws', keep, Pick(ws, v.lists[fd], imask, empties, false))
    requires tail == Tail(Pick(ws, v.lists[fd], imask, empties, false)) && RestOf(ws, ws', v.lists[fd], |v.lists[fd]|)
    ensures Inv(ws', fdrs[fd := fdrs[fd].(whead := keep, wtail := tail)], freeWlink, head,
                TakenView(v, ws, fd, imask, empties, t), -1)
    ensures taken == Link(Pick(ws, v.lists[fd], imask, empties, true), 0)
  {
    hide Partitioned, ChainsOk, UpdatesOk, Chain, RestOf, Relist, EventsOk, TailsOk, Divides, Pick, TakenPlaces;
    var list, r := v.lists[fd], fdrs[fd].(whead := keep, wtail := tail);
    var l, m := Pick(ws, list, imask, empties, false), Pick(ws, list, imask, empties, true);
    ListBounds(ws, fdrs, freeWlink, head, v, fd);
    var place := TakenPlaces(v.place, m, t);
    var v' := TakenView(v, ws, fd, imask, empties, t);
    assert v' == Relist(v, Watching(fd), l, Detached(t), m, place);
    PickDivides(ws, list, imask, empties);
    TakeDivides(v, |ws|, fd, t, l, m);
    TakenIs(ws, v, fd, imask, empties, t);
    TakeHeads(fdrs, freeWlink, v, v', fd, t, r);
    TakeEvents(ws, ws', v, v', list, place, m, t);
    AppendTails(fdrs, v, v', fd, r);
    RestOutside(ws, ws', list);
    hide Inv, HeadOf, Distinct, TakenView;
    assert taken == Link(m, 0) by { ChainHead(ws', taken, m); }
    DivideInv(ws, fdrs, freeWlink, head, v, -1, ws', fdrs[fd := r], freeWlink, Watching(fd), l, Detached(t), m, place);
  }

  lemma ChainHead(ws: seq<Watch>, head: nat, list: seq<nat>)
    requires Chain(ws, head, list)
    ensures head == Link(list, 0)
  {
  }

  lemma RestOutside(ws0: seq<Watch>, ws: seq<Watch>, list: seq<nat>)
    requires RestOf(ws0, ws, list, |list|)
    ensures |ws| == |ws0| && forall s :: 0 <= s < |ws| && s !in list ==> ws[s] == ws0[s]
  {
  }

  lemma TakeDivides(v: View, n: nat, fd: nat, t: nat, l: seq<nat>, m: seq<nat>)
    requires fd < |v.lists| && |v.place| == n && t !in v.detached && Distinct(l) && Distinct(m)
    requires forall s: nat :: s in v.lists[fd] ==> s < n && v.place[s] == Watching(fd)
    requires forall s: nat :: s in v.lists[fd] <==> s in l || s in m
    requires forall s: nat :: s in l ==> s !in m
    ensures Divides(v, n, n, Watching(fd), l, Detached(t), m, TakenPlaces(v.place, m, t))
  {
    assert ListAt(v, Watching(fd)) == v.lists[fd] && ListAt(v, Detached(t)) == [];
    hide ListAt, Distinct;
  }

  lemma TakeHeads(fdrs: seq<FdRec>, freeWlink: nat, v: View, v': View, fd: nat, t: nat, r: FdRec)
    requires fd < |fdrs| && t in v'.detached && v'.detached == v.detached[t := v'.detached[t]]
    ensures forall p :: p != Watching(fd) && p != Detached(t) ==>
              HeadOf(fdrs[fd := r], freeWlink, v', p) == HeadOf(fdrs, freeWlink, v, p)
    ensures HeadOf(fdrs[fd := r], freeWlink, v', Watching(fd)) == r.whead
    ensures HeadOf(fdrs[fd := r], freeWlink, v', Detached(t)) == Link(v'.detached[t], 0)
  {
  }

  lemma TakeEvents(ws: seq<Watch>, ws': seq<Watch>, v: View, v': View, list: seq<nat>, place: seq<Place>, m: seq<nat>, t: nat)
    requires EventsOk(ws, v) && RestOf(ws, ws', list, |list|) && v'.place == place == TakenPlaces(v.place, m, t)
    requires forall s: nat :: s in m ==> s < |v.place| && v.place[s].Watching?
    ensures EventsOk(ws', v')
  {
  }

  // ---- a record is freed ----

  /** The first record of a list goes to the front of the free list. */
  function Moved(v: View, p: Place): View
    requires ListAt(v, p) != [] && ListAt(v, p)[0] < |v.place|
  {
    var s := ListAt(v, p)[0];
    Relist(v, p, ListAt(v, p)[1..], Free, [s] + v.free, v.place[s := Free])
  }

  lemma PlaceBounds(ws: seq<Watch>, fdrs: seq<FdRec>, freeWlink: nat, head: nat, v: View, but: int, p: Place)
    requires Inv(ws, fdrs, freeWlink, head, v, but)
    ensures |v.lists| == |fdrs| && |v.place| == |ws|
    ensures Chain(ws, HeadOf(fdrs, freeWlink, v, p), ListAt(v, p)) && Distinct(ListAt(v, p))
    ensures forall s: nat :: s in ListAt(v, p) ==> s < |ws| && v.place[s] == p
  {
    hide ListAt, HeadOf, Chain, Distinct;
    forall s: nat | s in ListAt(v, p) ensures IsAt(v, p, s) {}
  }

  lemma MoveDivides(v: View, n: nat, p: Place, list: seq<nat>)
    requires p != Free && Exists(v, p) && |v.place| == n && list == ListAt(v, p) && list != []
    requires Distinct(v.free) && Distinct(list)
    requires forall s: nat :: s in v.free ==> s < n && v.place[s] == Free
    requires forall s: nat :: s in list ==> s < n && v.place[s] == p
    ensures list[0] < n && Divides(v, n, n, p, list[1..], Free, [list[0]] + v.free, v.place[list[0] := Free])
  {
    var s, l, m := list[0], list[1..], [list[0]] + v.free;
    assert s in list && s !in v.free && list == [s] + l;
    DistinctCons(s, v.free);
    forall i | 0 <= i < |l| ensures l[i] != s { assert list[i + 1] == l[i]; }
    assert forall x: nat :: x in list <==> x == s || x in l;
    assert forall x: nat :: x in m <==> x == s || x in v.free;
    assert ListAt(v, Free) == v.free;
    assert Distinct(l) by { forall i, j | 0 <= i < j < |l| ensures l[i] != l[j] { assert list[i + 1] == l[i] && list[j + 1] == l[j]; } }
    hide ListAt, Distinct;
  }

  lemma MovedIs(v: View, p: Place)
    requires p != Free && Exists(v, p) && ListAt(v, p) != [] && ListAt(v, p)[0] < |v.place|
    ensures Moved(v, p).updates == v.updates && Moved(v, p).free == [ListAt(v, p)[0]] + v.free
    ensures Moved(v, p).place == v.place[ListAt(v, p)[0] := Free]
    ensures p.Detached? ==> Moved(v, p).lists == v.lists && Moved(v, p).detached == v.detached[p.ticket := ListAt(v, p)[1..]]
    ensures p.Watching? ==> Moved(v, p).detached == v.detached && Moved(v, p).lists == v.lists[p.fd := v.lists[p.fd][1..]]
    ensures ListAt(Moved(v, p), p) == ListAt(v, p)[1..]
  {
  }

  lemma MoveChains(ws: seq<Watch>, freeWlink: nat, free: seq<nat>, head: nat, list: seq<nat>)
    requires Chain(ws, freeWlink, free) && Chain(ws, head, list) && Distinct(list) && list != []
    requires forall s: nat :: s in list ==> s !in free
    ensures list[0] < |ws|
    ensures var ws' := ws[list[0] := ws[list[0]].(ev := 0, wlink := freeWlink)];
            Chain(ws', list[0] + 1, [list[0]] + free) && Chain(ws', ws[list[0]].wlink, list[1..])
  {
    var s, l, m := list[0], list[1..], [list[0]] + free;
    var ws' := ws[s := ws[s].(ev := 0, wlink := freeWlink)];
    assert s in list;
    forall i | 0 <= i < |m| ensures m[i] < |ws'| && ws'[m[i]].wlink == Link(m, i + 1) {
      if i > 0 { assert m[i] == free[i - 1] && free[i - 1] in free; }
    }
    forall i | 0 <= i < |l| ensures l[i] < |ws'| && ws'[l[i]].wlink == Link(l, i + 1) {
      assert l[i] == list[i + 1];
    }
  }

  lemma MoveHeads(fdrs: seq<FdRec>, fdrs': seq<FdRec>, freeWlink: nat, free': nat, v: View, v': View, p: Place)
    requires p != Free && |fdrs'| == |fdrs|
    requires p.Detached? ==> fdrs' == fdrs && v'.detached == v.detached[p.ticket := ListAt(v', p)] && p.ticket in v.detached
    requires p.Watching? ==> p.fd < |fdrs| && v'.detached == v.detached && fdrs' == fdrs[p.fd := fdrs'[p.fd]]
    ensures forall r :: r != p && r != Free ==> HeadOf(fdrs', free', v', r) == HeadOf(fdrs, freeWlink, v, r)
    ensures HeadOf(fdrs', free', v', Free) == free'
    ensures p.Watching? ==> HeadOf(fdrs', free', v', p) == fdrs'[p.fd].whead
    ensures p.Detached? ==> HeadOf(fdrs', free', v', p) == Link(ListAt(v', p), 0)
  {
  }

  lemma MoveInv(ws: seq<Watch>, fdrs: seq<FdRec>, freeWlink: nat, head: nat, v: View, but: int, p: Place, fdrs': seq<FdRec>)
    requires Inv(ws, fdrs, freeWlink, head, v, but) && ListAt(v, p) != [] && p != Free
    requires p.Detached? ==> fdrs' == fdrs
    requires p.Watching? ==> but == p.fd < |fdrs|
    requires p.Watching? && ListAt(v, p)[0] < |ws| ==>
               fdrs' == fdrs[p.fd := fdrs[p.fd].(whead := ws[ListAt(v, p)[0]].wlink)]
    ensures Exists(v, p) && |v.place| == |ws| && ListAt(v, p)[0] < |ws| && ws[ListAt(v, p)[0]].ev != 0
    ensures ws[ListAt(v, p)[0]].wlink == Link(ListAt(v, p)[1..], 0)
    ensures var s := ListAt(v, p)[0];
            Inv(ws[s := ws[s].(ev := 0, wlink := freeWlink)], fdrs', s + 1, head, Moved(v, p), but)
  {
    hide Partitioned, ChainsOk, UpdatesOk, Chain, Relist, EventsOk, TailsOk, Divides, Moved, HeadOf, Distinct;
    PlaceBounds(ws, fdrs, freeWlink, head, v, but, p);
    PlaceBounds(ws, fdrs, freeWlink, head, v, but, Free);
    var list := ListAt(v, p);
    var s := list[0];
    assert s in list;
    assert HeadOf(fdrs, freeWlink, v, Free) == freeWlink && ListAt(v, Free) == v.free by { FreeIs(fdrs, freeWlink, v); }
    MoveDivides(v, |ws|, p, list);
    MoveChains(ws, freeWlink, v.free, HeadOf(fdrs, freeWlink, v, p), list);
    var ws', v' := ws[s := ws[s].(ev := 0, wlink := freeWlink)], Moved(v, p);
    ChainHead(ws', ws[s].wlink, list[1..]);
    MovedIs(v, p);
    MoveHeads(fdrs, fdrs', freeWlink, s + 1, v, v', p);
    MoveEvents(ws, v, v', s, freeWlink);
    MoveTails(fdrs, fdrs', v, v', but, p);
    assert v' == Relist(v, p, list[1..], Free, [s] + v.free, v.place[s := Free]) by { MovedDef(v, p); }
    hide Inv, ListAt;
    DivideInv(ws, fdrs, freeWlink, head, v, but, ws', fdrs', s + 1, p, list[1..], Free, [s] + v.free, v.place[s := Free]);
  }

  lemma FreeIs(fdrs: seq<FdRec>, freeWlink: nat, v: View)
    ensures HeadOf(fdrs, freeWlink, v, Free) == freeWlink && ListAt(v, Free) == v.free
  {
  }

  lemma MovedDef(v: View, p: Place)
    requires ListAt(v, p) != [] && ListAt(v, p)[0] < |v.place|
    ensures Moved(v, p) == Relist(v, p, ListAt(v, p)[1..], Free, [ListAt(v, p)[0]] + v.free, v.place[ListAt(v, p)[0] := Free])
  {
  }

  lemma MoveEvents(ws: seq<Watch>, v: View, v': View, s: nat, link: nat)
    requires EventsOk(ws, v) && s < |ws| && v'.place == v.place[s := Free] && v.place[s] != Free
    ensures EventsOk(ws[s := ws[s].(ev := 0, wlink := link)], v') && ws[s].ev != 0
  {
  }

  lemma MoveTails(fdrs: seq<FdRec>, fdrs': seq<FdRec>, v: View, v': View, but: int, p: Place)
    requires TailsOk(fdrs, v, but) && |fdrs'| == |fdrs| && |v'.lists| == |v.lists|
    requires p.Detached? ==> fdrs' == fdrs && v'.lists == v.lists
    requires p.Watching? ==> but == p.fd < |fdrs| && fdrs' == fdrs[p.fd := fdrs'[p.fd]] && v'.lists == v.lists[p.fd := v'.lists[p.fd]]
    requires p != Free
    ensures TailsOk(fdrs', v', but)
  {
  }

  // ---- a list is emptied ----

  function Reversed(list: seq<nat>): seq<nat> {
    if list == [] then [] else Reversed(list[1..]) + [list[0]]
  }

  lemma {:induction false} ReversedAppend(list: seq<nat>, s: nat)
    ensures Reversed(list + [s]) == [s] + Reversed(list)
  {
    if list == [] {
      assert [s][1..] == [];
      assert list + [s] == [s];
    } else {
      assert (list + [s])[1..] == list[1..] + [s];
      ReversedAppend(list[1..], s);
    }
  }

  /** `i` records have been freed and their events triggered. */
  ghost predicate Emptying(ws0: seq<Watch>, ws: seq<Watch>, v0: View, v: View, fd: nat, list: seq<nat>, i: nat, triggered: seq<nat>) {
    && fd < |v0.lists| == |v.lists| && i <= |list| && list == v0.lists[fd] && |ws| == |ws0| && |triggered| == i
    && v.lists == v0.lists[fd := list[i..]] && v.detached == v0.detached && v.updates == v0.updates
    && v.free == Reversed(list[..i]) + v0.free
    && Distinct(list) && (forall k :: 0 <= k < |list| ==> list[k] < |ws0|)
    && (forall k :: i <= k < |list| ==> ws[list[k]] == ws0[list[k]])
    && (forall s: nat :: s < |ws| && s !in list ==> ws[s] == ws0[s])
    && (forall k :: 0 <= k < i ==> triggered[k] == ws0[list[k]].ev != 0)
  }

  lemma NotYet(v: View, fd: nat, list: seq<nat>)
    requires fd < |v.lists| && list == v.lists[fd]
    ensures list[0..] == list && v.lists == v.lists[fd := list[0..]] && v.free == Reversed(list[..0]) + v.free
  {
    assert list[0..] == list && list[..0] == [];
  }

  lemma BeingClosed(ws: seq<Watch>, fdrs: seq<FdRec>, freeWlink: nat, head: nat, v: View, fd: nat)
    requires Inv(ws, fdrs, freeWlink, head, v, -1)
    ensures Inv(ws, fdrs, freeWlink, head, v, fd)
  {
    hide Partitioned, ChainsOk, EventsOk, UpdatesOk;
  }

  lemma EmptyingStart(ws: seq<Watch>, fdrs: seq<FdRec>, freeWlink: nat, head: nat, v: View, fd: nat)
    requires Inv(ws, fdrs, freeWlink, head, v, -1) && fd < |fdrs|
    ensures fd < |v.lists| && Emptying(ws, ws, v, v, fd, v.lists[fd], 0, [])
    ensures Inv(ws, fdrs, freeWlink, head, v, fd) && fdrs[fd].whead == Link(v.lists[fd][0..], 0)
  {
    hide Inv, Distinct, Chain, Reversed;
    ListBounds(ws, fdrs, freeWlink, head, v, fd);
    BeingClosed(ws, fdrs, freeWlink, head, v, fd);
    NotYet(v, fd, v.lists[fd]);
    BelowSize(v.lists[fd], |ws|);
  }

  lemma EmptyingStep(ws0: seq<Watch>, ws: seq<Watch>, fdrs: seq<FdRec>, freeWlink: nat, head: nat, v0: View, v: View, fd: nat,
                    list: seq<nat>, i: nat, triggered: seq<nat>)
    requires Emptying(ws0, ws, v0, v, fd, list, i, triggered) && Inv(ws, fdrs, freeWlink, head, v, fd) && fd < |fdrs|
    requires fdrs[fd].whead == Link(list[i..], 0) && fdrs[fd].whead != 0
    ensures i < |list| && fdrs[fd].whead == list[i] + 1 && list[i] < |ws|
    ensures var p, s := Watching(fd), list[i];
            && ListAt(v, p) != [] && ListAt(v, p)[0] == s && s < |v.place| && ws[s].wlink == Link(list[i + 1..], 0)
            && Inv(ws[s := ws[s].(ev := 0, wlink := freeWlink)], fdrs[fd := fdrs[fd].(whead := ws[s].wlink)], s + 1, head, Moved(v, p), fd)
            && Emptying(ws0, ws[s := ws[s].(ev := 0, wlink := freeWlink)], v0, Moved(v, p), fd, list, i + 1, triggered + [ws[s].ev])
  {
    hide Partitioned, ChainsOk, EventsOk, UpdatesOk, Chain, Moved, TailsOk, Inv;
    var p := Watching(fd);
    assert ListAt(v, p) == list[i..] && list[i..][1..] == list[i + 1..];
    MoveInv(ws, fdrs, freeWlink, head, v, fd, p, fdrs[fd := fdrs[fd].(whead := ws[list[i]].wlink)]);
    MovedIs(v, p);
    assert list[..i + 1] == list[..i] + [list[i]];
    ReversedAppend(list[..i], list[i]);
    assert [list[i]] + (Reversed(list[..i]) + v0.free) == Reversed(list[..i + 1]) + v0.free;
    assert v0.lists[fd := list[i..]][fd := list[i + 1..]] == v0.lists[fd := list[i + 1..]];
  }

  lemma EmptyingEnd(ws0: seq<Watch>, ws: seq<Watch>, v0: View, v: View, fd: nat, list: seq<nat>, i: nat, triggered: seq<nat>)
    requires Emptying(ws0, ws, v0, v, fd, list, i, triggered) && Link(list[i..], 0) == 0
    ensures i == |list| && v.lists == v0.lists[fd := []] && v.free == Reversed(list) + v0.free
    ensures v.detached == v0.detached && v.updates == v0.updates && |triggered| == |list|
    ensures forall k :: 0 <= k < |triggered| ==> list[k] < |ws0| && triggered[k] == ws0[list[k]].ev != 0
    ensures |ws| == |ws0| && forall s: nat :: s < |ws| && s !in list ==> ws[s] == ws0[s]
  {
    assert list[i..] == [] && list[..i] == list;
  }

  /** `i` records of the detached list `t` have been freed. */
  ghost predicate Draining(ws0: seq<Watch>, ws: seq<Watch>, v0: View, v: View, t: nat, list: seq<nat>, i: nat, events: seq<nat>) {
    && t in v0.detached && list == v0.detached[t] && i <= |list| && |ws| == |ws0| && |events| == i
    && v.detached == v0.detached[t := list[i..]] && v.lists == v0.lists && v.updates == v0.updates
    && v.free == Reversed(list[..i]) + v0.free
    && Distinct(list) && (forall k :: 0 <= k < |list| ==> list[k] < |ws0|)
    && (forall k :: i <= k < |list| ==> ws[list[k]] == ws0[list[k]])
    && (forall s: nat :: s < |ws| && s !in list ==> ws[s] == ws0[s])
    && (forall k :: 0 <= k < i ==> events[k] == ws0[list[k]].ev != 0)
  }

  lemma DrainStart(ws: seq<Watch>, fdrs: seq<FdRec>, freeWlink: nat, head: nat, v: View, t: nat)
    requires Inv(ws, fdrs, freeWlink, head, v, -1) && t in v.detached
    ensures Draining(ws, ws, v, v, t, v.detached[t], 0, []) && v.detached[t][0..] == v.detached[t]
  {
    hide ChainsOk, TailsOk, EventsOk, UpdatesOk;
    var list := v.detached[t];
    DetachedBounds(v, |ws|, t);
    assert list[0..] == list && list[..0] == [] && v.detached == v.detached[t := list[0..]];
  }

  lemma DetachedBounds(v: View, n: nat, t: nat)
    requires Partitioned(v, n) && t in v.detached
    ensures Distinct(v.detached[t]) && forall i :: 0 <= i < |v.detached[t]| ==> v.detached[t][i] < n
  {
    assert Distinct(ListAt(v, Detached(t)));
    forall i | 0 <= i < |v.detached[t]| ensures v.detached[t][i] < n {
      var s := v.detached[t][i];
      assert s in ListAt(v, Detached(t)) && IsAt(v, Detached(t), s);
    }
  }

  lemma DrainStep(ws0: seq<Watch>, ws1: seq<Watch>, ws: seq<Watch>, v0: View, v1: View, v: View, t: nat,
                  list: seq<nat>, i: nat, events: seq<nat>, ev: nat, rest: nat)
    requires Draining(ws0, ws1, v0, v1, t, list, i, events) && i < |list| && |ws| == |ws1|
    requires Popped(ws1, ws, list[i] + 1, ev) && PoppedFrom(v1, v, t, list[i] + 1, rest)
    ensures Draining(ws0, ws, v0, v, t, list, i + 1, events + [ev]) && rest == Link(list[i + 1..], 0)
  {
    assert list[i..][1..] == list[i + 1..] && list[..i + 1] == list[..i] + [list[i]];
    ReversedAppend(list[..i], list[i]);
    hide Reversed;
    assert [list[i]] + (Reversed(list[..i]) + v0.free) == Reversed(list[..i + 1]) + v0.free;
    assert v0.detached[t := list[i..]][t := list[i + 1..]] == v0.detached[t := list[i + 1..]];
  }

  lemma DrainEnd(ws0: seq<Watch>, ws: seq<Watch>, v0: View, v: View, t: nat, list: seq<nat>, i: nat, events: seq<nat>)
    requires Draining(ws0, ws, v0, v, t, list, i, events) && Link(list[i..], 0) == 0
    ensures i == |list| && v.detached == v0.detached[t := []] && v.free == Reversed(list) + v0.free
  {
    assert list[i..] == [] && list[..i] == list;
  }

  /** With the list empty, the record is put in order. */
  lemma CloseInv(ws: seq<Watch>, fdrs: seq<FdRec>, freeWlink: nat, head: nat, v: View, fd: nat, r: FdRec)
    requires Inv(ws, fdrs, freeWlink, head, v, fd) && fd < |fdrs| == |v.lists| && v.lists[fd] == []
    requires r.whead == fdrs[fd].whead && r.wtail == 0 && r.updateLink == fdrs[fd].updateLink
    ensures Inv(ws, fdrs[fd := r], freeWlink, head, v, -1)
  {
    hide Partitioned, ChainsOk, EventsOk, UpdatesOk, HeadOf;
    RecordAt(fdrs, freeWlink, v, fd, r, v.updates);
    assert v.(updates := v.updates) == v;
    SameWatches(ws, fdrs, fdrs[fd := r], freeWlink, v, v);
    UpdatesSame(fdrs, fdrs[fd := r], head, v.updates);
  }

  // ---- updates and counts ----

  lemma UpdateHead(ws: seq<Watch>, fdrs: seq<FdRec>, freeWlink: nat, head: nat, v: View)
    requires Inv(ws, fdrs, freeWlink, head, v, -1)
    ensures |v.lists| == |fdrs| && (v.updates == [] <==> head == LINK_SENTINEL)
    ensures v.updates != [] ==> v.updates[0] < |fdrs| && head == v.updates[0] + 1
  {
  }

  lemma BelowSize(list: seq<nat>, n: nat)
    requires forall s: nat :: s in list ==> s < n
    ensures forall i :: 0 <= i < |list| ==> list[i] < n
  {
    assert forall i :: 0 <= i < |list| ==> list[i] in list;
  }

  lemma DequeueInv(ws: seq<Watch>, fdrs: seq<FdRec>, freeWlink: nat, head: nat, v: View, r: FdRec)
    requires Inv(ws, fdrs, freeWlink, head, v, -1) && v.updates != [] && r.updateLink == LINK_CLEAN
    requires v.updates[0] < |fdrs| ==> r.whead == fdrs[v.updates[0]].whead && r.wtail == fdrs[v.updates[0]].wtail
    ensures v.updates[0] < |fdrs|
    ensures Inv(ws, fdrs[v.updates[0] := r], freeWlink, fdrs[v.updates[0]].updateLink, v.(updates := v.updates[1..]), -1)
  {
    hide Partitioned, ChainsOk, TailsOk, EventsOk;
    Dequeued(fdrs, head, v.updates, r);
    RecordSame(ws, fdrs, freeWlink, v, v.updates[0], r, v.updates[1..]);
    hide UpdatesOk;
  }

  lemma ChainNext(ws: seq<Watch>, head: nat, list: seq<nat>, i: nat)
    requires Chain(ws, head, list) && i < |list|
    ensures list[i] < |ws| && ws[list[i]].wlink == Link(list, i + 1)
  {
  }

  /** How many of the first `n` records are in use. */
  function Busy(place: seq<Place>, n: nat): nat
    requires n <= |place|
  {
    if n == 0 then 0 else Busy(place, n - 1) + if place[n - 1].Free? then 0 else 1
  }

  ghost function Elements(list: seq<nat>): set<nat> {
    if list == [] then {} else Elements(list[..|list| - 1]) + {list[|list| - 1]}
  }

  lemma LastOrBefore(list: seq<nat>, s: nat)
    requires list != []
    ensures s in list <==> s in list[..|list| - 1] || s == list[|list| - 1]
  {
    assert list == list[..|list| - 1] + [list[|list| - 1]];
  }

  lemma {:induction false} ElementsOf(list: seq<nat>)
    requires Distinct(list)
    ensures |Elements(list)| == |list| && forall s: nat :: s in Elements(list) <==> s in list
  {
    if list != [] {
      var n := |list| - 1;
      ElementsOf(list[..n]);
      assert list[n] !in Elements(list[..n]);
      forall s: nat ensures s in Elements(list) <==> s in list {
        LastOrBefore(list, s);
      }
    }
  }

  ghost function FreeBelow(place: seq<Place>, n: nat): set<nat>
    requires n <= |place|
  {
    if n == 0 then {} else FreeBelow(place, n - 1) + if place[n - 1].Free? then {n - 1} else {}
  }

  lemma {:induction false} FreeBelowIs(place: seq<Place>, n: nat)
    requires n <= |place|
    ensures |FreeBelow(place, n)| + Busy(place, n) == n
    ensures forall s: nat :: s in FreeBelow(place, n) <==> s < n && place[s].Free?
  {
    if n > 0 { FreeBelowIs(place, n - 1); }
  }

  lemma FreeListed(v: View, n: nat)
    requires Partitioned(v, n)
    ensures forall s: nat :: s < n && v.place[s].Free? ==> s in v.free
  {
    assert ListAt(v, Free) == v.free;
    hide Distinct, ListAt;
    forall s: nat | s < n && v.place[s].Free? ensures s in v.free { assert s in ListAt(v, v.place[s]); }
  }

  /** Free records and the others are all there are. */
  lemma FreeCount(ws: seq<Watch>, fdrs: seq<FdRec>, freeWlink: nat, head: nat, v: View)
    requires Inv(ws, fdrs, freeWlink, head, v, -1)
    ensures |v.place| == |ws| && |v.free| + Busy(v.place, |ws|) == |ws|
  {
    hide ChainsOk, TailsOk, EventsOk, UpdatesOk, Partitioned, Distinct, ListAt, HeadOf;
    PlaceBounds(ws, fdrs, freeWlink, head, v, -1, Free);
    FreeIs(fdrs, freeWlink, v);
    ElementsOf(v.free);
    FreeBelowIs(v.place, |ws|);
    FreeListed(v, |ws|);
    hide Inv, ListAt, HeadOf, Chain, Distinct, Elements, FreeBelow, Busy;
    assert Elements(v.free) == FreeBelow(v.place, |ws|);
  }
}
