/**
 Linked lists threaded through arrays: the watch records of file descriptors, each on the free list, on
 the list of one descriptor or on one detached list, and the list of descriptors whose interest the
 kernel has yet to be told of.  A link is an index plus one; 0 ends a watch list.
 */
module WatchLists {

  const LINK_CLEAN: nat := 0
  const LINK_SENTINEL: nat := 0xffff_ffff
  const USER_EPOCH: nat := 2

  datatype Interest = Reading | Writing | Closing

  /** `ev` is an event number, 0 for none. */
  datatype Watch = Watch(ev: nat, mask: set<Interest>, wlink: nat)

  /** `body` is the descriptor's owner, 0 for none. */
  datatype FdRec = FdRec(body: nat, epoch: nat, whead: nat, wtail: nat, updateLink: nat)

  const NEW_FD: FdRec := FdRec(0, 0, LINK_CLEAN, LINK_CLEAN, LINK_CLEAN)

  /** Where a record is. */
  datatype Place = Free | Watching(fd: nat) | Detached(ticket: nat)

  /** The lists that the links stand for. */
  datatype View = View(
    free: seq<nat>, lists: seq<seq<nat>>, detached: map<nat, seq<nat>>, place: seq<Place>, updates: seq<nat>)

  function Link(list: seq<nat>, i: nat): nat { if i < |list| then list[i] + 1 else LINK_CLEAN }

  function Tail(list: seq<nat>): nat { if list == [] then LINK_CLEAN else list[|list| - 1] + 1 }

  /** The links from `head` on lead through `list`. */
  predicate Chain(ws: seq<Watch>, head: nat, list: seq<nat>) {
    && head == Link(list, 0)
    && forall i :: 0 <= i < |list| ==> list[i] < |ws| && ws[list[i]].wlink == Link(list, i + 1)
  }

  predicate Distinct(list: seq<nat>) {
    forall i, j :: 0 <= i < j < |list| ==> list[i] != list[j]
  }

  function ListAt(v: View, p: Place): seq<nat> {
    match p
    case Free => v.free
    case Watching(fd) => if fd < |v.lists| then v.lists[fd] else []
    case Detached(t) => if t in v.detached then v.detached[t] else []
  }

  predicate IsAt(v: View, p: Place, s: nat) { s < |v.place| && v.place[s] == p }

  /** Every record is on exactly one list, once. */
  ghost predicate Partitioned(v: View, n: nat) {
    && |v.place| == n
    && (forall s :: 0 <= s < n ==> s in ListAt(v, v.place[s]))
    && (forall p: Place, s: nat :: s in ListAt(v, p) ==> IsAt(v, p, s))
    && (forall p :: Distinct(ListAt(v, p)))
  }

  function HeadOf(fdrs: seq<FdRec>, freeWlink: nat, v: View, p: Place): nat {
    match p
    case Free => freeWlink
    case Watching(fd) => if fd < |fdrs| then fdrs[fd].whead else LINK_CLEAN
    case Detached(t) => if t in v.detached then Link(v.detached[t], 0) else LINK_CLEAN
  }

  ghost predicate ChainsOk(ws: seq<Watch>, fdrs: seq<FdRec>, freeWlink: nat, v: View) {
    |v.lists| == |fdrs| && forall p :: Chain(ws, HeadOf(fdrs, freeWlink, v, p), ListAt(v, p))
  }

  ghost predicate TailsOk(fdrs: seq<FdRec>, v: View, but: int) {
    |v.lists| == |fdrs| && forall fd :: 0 <= fd < |fdrs| && fd != but ==> fdrs[fd].wtail == Tail(v.lists[fd])
  }

  /** Records off the free list have an event. */
  ghost predicate EventsOk(ws: seq<Watch>, v: View) {
    |v.place| == |ws| && forall s :: 0 <= s < |ws| ==> (v.place[s].Free? <==> ws[s].ev == 0)
  }

  function UpdateLink(updates: seq<nat>, i: nat): nat { if i < |updates| then updates[i] + 1 else LINK_SENTINEL }

  /** A descriptor is on the update list at most once, and its link says whether it is. */
  ghost predicate UpdatesOk(fdrs: seq<FdRec>, head: nat, updates: seq<nat>) {
    && |fdrs| < LINK_SENTINEL
    && head == UpdateLink(updates, 0)
    && Distinct(updates)
    && (forall i :: 0 <= i < |updates| ==> updates[i] < |fdrs| && fdrs[updates[i]].updateLink == UpdateLink(updates, i + 1))
    && (forall fd :: 0 <= fd < |fdrs| ==> (fd in updates <==> fdrs[fd].updateLink != LINK_CLEAN))
  }

  /** `but` is a descriptor whose list is being emptied, -1 if none is. */
  ghost predicate Inv(ws: seq<Watch>, fdrs: seq<FdRec>, freeWlink: nat, head: nat, v: View, but: int) {
    && Partitioned(v, |ws|) && ChainsOk(ws, fdrs, freeWlink, v) && TailsOk(fdrs, v, but)
    && EventsOk(ws, v) && UpdatesOk(fdrs, head, v.updates)
  }

  // ---- changing lists ----

  /** A chain that shares no record with what changes. */
  lemma ChainStays(ws: seq<Watch>, ws': seq<Watch>, head: nat, list: seq<nat>)
    requires Chain(ws, head, list) && |ws| <= |ws'|
    requires forall i :: 0 <= i < |list| ==> ws'[list[i]].wlink == ws[list[i]].wlink
    ensures Chain(ws', head, list)
  {
  }

  function WithList(v: View, p: Place, list: seq<nat>): View {
    match p
    case Free => v.(free := list)
    case Watching(fd) => if fd < |v.lists| then v.(lists := v.lists[fd := list]) else v
    case Detached(t) => v.(detached := v.detached[t := list])
  }

  predicate Exists(v: View, p: Place) { p.Watching? ==> p.fd < |v.lists| }

  lemma WithListAt(v: View, p: Place, list: seq<nat>, q: Place)
    requires Exists(v, p)
    ensures ListAt(WithList(v, p, list), q) == if q == p then list else ListAt(v, q)
  {
  }

  /** Two lists are changed, and the records that change places are put down. */
  function Relist(v: View, p: Place, l: seq<nat>, q: Place, m: seq<nat>, place: seq<Place>): View {
    WithList(WithList(v, p, l), q, m).(place := place)
  }

  lemma RelistAt(v: View, p: Place, l: seq<nat>, q: Place, m: seq<nat>, place: seq<Place>, r: Place)
    requires Exists(v, p) && Exists(v, q) && p != q
    ensures ListAt(Relist(v, p, l, q, m, place), r) == if r == q then m else if r == p then l else ListAt(v, r)
  {
    WithListAt(v, p, l, r);
    WithListAt(WithList(v, p, l), q, m, r);
  }

  /** The records of two lists, and those new at the end, are divided between the two lists again. */
  ghost predicate Divides(v: View, n: nat, n': nat, p: Place, l: seq<nat>, q: Place, m: seq<nat>, place: seq<Place>) {
    && p != q && Exists(v, p) && Exists(v, q) && n <= n' == |place| && |v.place| == n
    && Distinct(l) && Distinct(m)
    && (forall s: nat :: s in l || s in m <==> s in ListAt(v, p) || s in ListAt(v, q) || n <= s < n')
    && (forall s :: s in l ==> s !in m)
    && (forall s :: 0 <= s < n' ==> place[s] == if s in l then p else if s in m then q else if s < n then v.place[s] else Free)
  }

  lemma Divided(v: View, n: nat, n': nat, p: Place, l: seq<nat>, q: Place, m: seq<nat>, place: seq<Place>)
    requires Partitioned(v, n) && Divides(v, n, n', p, l, q, m, place)
    ensures Partitioned(Relist(v, p, l, q, m, place), n')
    ensures forall r :: ListAt(Relist(v, p, l, q, m, place), r) == if r == q then m else if r == p then l else ListAt(v, r)
  {
    var v' := Relist(v, p, l, q, m, place);
    forall r ensures ListAt(v', r) == if r == q then m else if r == p then l else ListAt(v, r) {
      RelistAt(v, p, l, q, m, place, r);
    }
    assert v'.place == place;
    hide ListAt, Relist, Distinct, Exists;
    forall s | 0 <= s < n' ensures s in ListAt(v', v'.place[s]) {
      assert s < n ==> s in ListAt(v, v.place[s]);
    }
    forall r: Place, s: nat | s in ListAt(v', r) ensures IsAt(v', r, s) {
      if r != p && r != q {
        assert s in ListAt(v, r) && IsAt(v, r, s);
        assert s in ListAt(v, p) ==> IsAt(v, p, s);
        assert s in ListAt(v, q) ==> IsAt(v, q, s);
      } else if s < n {
        assert s in ListAt(v, p) ==> IsAt(v, p, s);
        assert s in ListAt(v, q) ==> IsAt(v, q, s);
      }
    }
    forall r ensures Distinct(ListAt(v', r)) {
      assert Distinct(ListAt(v, r));
    }
  }

  /** The other chains do not notice. */
  lemma DividedChains(ws: seq<Watch>, fdrs: seq<FdRec>, freeWlink: nat, v: View,
                      ws': seq<Watch>, fdrs': seq<FdRec>, freeWlink': nat, v': View, p: Place, q: Place)
    requires Partitioned(v, |ws|) && ChainsOk(ws, fdrs, freeWlink, v) && |ws| <= |ws'| && |v'.lists| == |fdrs'|
    requires forall s :: 0 <= s < |ws| && s !in ListAt(v, p) && s !in ListAt(v, q) ==> ws'[s].wlink == ws[s].wlink
    requires forall r :: r != p && r != q ==>
               && ListAt(v', r) == ListAt(v, r)
               && HeadOf(fdrs', freeWlink', v', r) == HeadOf(fdrs, freeWlink, v, r)
    requires Chain(ws', HeadOf(fdrs', freeWlink', v', p), ListAt(v', p))
    requires Chain(ws', HeadOf(fdrs', freeWlink', v', q), ListAt(v', q))
    ensures ChainsOk(ws', fdrs', freeWlink', v')
  {
    hide ListAt, HeadOf;
    forall r ensures Chain(ws', HeadOf(fdrs', freeWlink', v', r), ListAt(v', r)) {
      if r != p && r != q {
        var list := ListAt(v, r);
        assert Chain(ws, HeadOf(fdrs, freeWlink, v, r), list);
        forall i | 0 <= i < |list| ensures ws'[list[i]].wlink == ws[list[i]].wlink {
          assert list[i] in list && IsAt(v, r, list[i]);
          assert list[i] in ListAt(v, p) ==> IsAt(v, p, list[i]);
          assert list[i] in ListAt(v, q) ==> IsAt(v, q, list[i]);
        }
        ChainStays(ws, ws', HeadOf(fdrs, freeWlink, v, r), list);
      }
    }
  }

  // ---- the update list ----

  lemma DistinctCons(x: nat, list: seq<nat>)
    requires Distinct(list) && x !in list
    ensures Distinct([x] + list)
  {
    forall i | 0 <= i < |list| ensures list[i] != x { assert list[i] in list; }
  }

  lemma QueuedLinks(fdrs: seq<FdRec>, head: nat, updates: seq<nat>, fd: nat, r: FdRec, i: nat)
    requires UpdatesOk(fdrs, head, updates) && fd < |fdrs| && fd !in updates && r.updateLink == head && i <= |updates|
    ensures var u := [fd] + updates;
            u[i] < |fdrs| && fdrs[fd := r][u[i]].updateLink == UpdateLink(u, i + 1)
  {
    var u := [fd] + updates;
    if i > 0 { assert u[i] == updates[i - 1] && updates[i - 1] in updates; }
  }

  /** A descriptor not on the list is put in front. */
  lemma Queued(fdrs: seq<FdRec>, head: nat, updates: seq<nat>, fd: nat, r: FdRec)
    requires UpdatesOk(fdrs, head, updates) && fd < |fdrs| && fdrs[fd].updateLink == LINK_CLEAN && r.updateLink == head
    ensures UpdatesOk(fdrs[fd := r], fd + 1, [fd] + updates)
  {
    var fdrs', u := fdrs[fd := r], [fd] + updates;
    assert head != LINK_CLEAN;
    DistinctCons(fd, updates);
    forall i | 0 <= i < |u| ensures u[i] < |fdrs'| && fdrs'[u[i]].updateLink == UpdateLink(u, i + 1) {
      QueuedLinks(fdrs, head, updates, fd, r, i);
    }
    hide Distinct, UpdateLink;
    forall x | 0 <= x < |fdrs'| ensures x in u <==> fdrs'[x].updateLink != LINK_CLEAN {
      assert x in u <==> x == fd || x in updates;
    }
  }

  lemma TailOfUpdates(updates: seq<nat>)
    requires updates != [] && Distinct(updates)
    ensures UpdateLink(updates, 0) == updates[0] + 1
    ensures var u := updates[1..];
            && Distinct(u) && (forall i :: 0 <= i < |u| ==> u[i] == updates[i + 1] != updates[0])
            && (forall i :: 0 <= i <= |u| ==> UpdateLink(u, i) == UpdateLink(updates, i + 1))
            && (forall x :: x in updates <==> x == updates[0] || x in u)
  {
    assert updates == [updates[0]] + updates[1..];
  }

  lemma Dequeued(fdrs: seq<FdRec>, head: nat, updates: seq<nat>, r: FdRec)
    requires UpdatesOk(fdrs, head, updates) && updates != [] && r.updateLink == LINK_CLEAN
    ensures updates[0] < |fdrs| && head == updates[0] + 1
    ensures UpdatesOk(fdrs[updates[0] := r], fdrs[updates[0]].updateLink, updates[1..])
  {
    hide Distinct, UpdateLink;
    var fd, u, fdrs' := updates[0], updates[1..], fdrs[updates[0] := r];
    TailOfUpdates(updates);
    forall i | 0 <= i < |u| ensures u[i] < |fdrs'| && fdrs'[u[i]].updateLink == UpdateLink(u, i + 1) {
      assert fdrs[updates[i + 1]].updateLink == UpdateLink(updates, i + 2);
    }
    forall x | 0 <= x < |fdrs'| ensures x in u <==> fdrs'[x].updateLink != LINK_CLEAN {
      assert x in updates <==> x == fd || x in u;
    }
  }

  lemma UpdatesSame(fdrs: seq<FdRec>, fdrs': seq<FdRec>, head: nat, updates: seq<nat>)
    requires UpdatesOk(fdrs, head, updates) && |fdrs'| == |fdrs|
    requires forall fd :: 0 <= fd < |fdrs| ==> fdrs'[fd].updateLink == fdrs[fd].updateLink
    ensures UpdatesOk(fdrs', head, updates)
  {
  }

  // ---- dividing a watch list ----

  /** A notification of `imask` concerns the record, or its event is gone. */
  predicate Hit(w: Watch, imask: set<Interest>, empties: set<nat>) {
    imask * w.mask != {} || w.ev in empties
  }

  /** The records of a list that are hit, in order, or those that are not. */
  function Pick(ws: seq<Watch>, list: seq<nat>, imask: set<Interest>, empties: set<nat>, hit: bool): (r: seq<nat>)
    requires forall i :: 0 <= i < |list| ==> list[i] < |ws|
    ensures forall s :: s in r ==> s in list
  {
    if list == [] then []
    else
      var rest := Pick(ws, list[..|list| - 1], imask, empties, hit);
      var s := list[|list| - 1];
      if Hit(ws[s], imask, empties) == hit then rest + [s] else rest
  }

  /** An order-preserving partition: what is in one part is not in the other, nothing is lost, and each
      part keeps the order. */
  lemma {:induction false} PickDivides(ws: seq<Watch>, list: seq<nat>, imask: set<Interest>, empties: set<nat>)
    requires forall i :: 0 <= i < |list| ==> list[i] < |ws|
    requires Distinct(list)
    ensures var l, m := Pick(ws, list, imask, empties, false), Pick(ws, list, imask, empties, true);
            && Distinct(l) && Distinct(m)
            && (forall s :: s in list <==> s in l || s in m)
            && (forall s :: s in l ==> !Hit(ws[s], imask, empties))
            && (forall s :: s in m ==> Hit(ws[s], imask, empties))
            && |l| + |m| == |list|
  {
    if list != [] {
      var n := |list| - 1;
      PickDivides(ws, list[..n], imask, empties);
      assert list == list[..n] + [list[n]];
      assert forall i :: 0 <= i < n ==> list[..n][i] != list[n];
    }
  }

  lemma Meet(a: set<Interest>, b: set<Interest>)
    ensures a * b != {} <==> exists x :: x in a && x in b
  {
    if a * b != {} {
      var x :| x in a * b;
      assert x in a && x in b;
    } else {
      forall x | x in a ensures x !in b { assert x !in a * b; }
    }
  }

  /** Nobody misses a notification, and nobody is bothered without need: a record of the list is taken exactly
      if it waits for something that is notified or its event is gone, whatever the other records are. */
  lemma PickTakes(ws: seq<Watch>, list: seq<nat>, imask: set<Interest>, empties: set<nat>, s: nat)
    requires (forall i :: 0 <= i < |list| ==> list[i] < |ws|) && Distinct(list) && s in list
    ensures s in Pick(ws, list, imask, empties, true) <==> ws[s].ev in empties || exists x :: x in imask && x in ws[s].mask
    ensures s in Pick(ws, list, imask, empties, false) <==> ws[s].ev !in empties && forall x :: x in imask ==> x !in ws[s].mask
  {
    PickDivides(ws, list, imask, empties);
    hide Pick, Distinct;
    Meet(imask, ws[s].mask);
  }

  /** Both parts are subsequences of the list. */
  lemma {:induction false} PickKeepsOrder(ws: seq<Watch>, list: seq<nat>, imask: set<Interest>, empties: set<nat>, hit: bool, i: nat, j: nat)
    returns (a: nat, b: nat)
    requires forall k :: 0 <= k < |list| ==> list[k] < |ws|
    requires i < j < |Pick(ws, list, imask, empties, hit)|
    ensures a < b < |list| && list[a] == Pick(ws, list, imask, empties, hit)[i] && list[b] == Pick(ws, list, imask, empties, hit)[j]
  {
    var n := |list| - 1;
    var rest := Pick(ws, list[..n], imask, empties, hit);
    if j < |rest| {
      a, b := PickKeepsOrder(ws, list[..n], imask, empties, hit, i, j);
    } else {
      assert rest[i] in list[..n];
      a :| 0 <= a < n && list[..n][a] == rest[i];
      b := n;
    }
  }
}
