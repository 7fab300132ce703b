/**
 The timer heap, updated in place in an array: a stable priority queue from which elements whose value
 has become empty may be removed at any position.
 */
module TimerHeap {
  import opened HeapOrder

  /** Stamps identify elements and are close enough together for the wrapping counter. */
  ghost predicate Comparable<V(!new)>(m: multiset<Elem<V>>) {
    && (forall e :: e in m ==> m[e] == 1)
    && (forall e, f :: e in m && f in m && e.stamp == f.stamp ==> e == f)
    && (forall e, f :: e in m && f in m ==> Near(e.stamp, f.stamp))
  }

  /** Comparable, and none newer than the count of insertions. */
  ghost predicate Stamped<V(!new)>(m: multiset<Elem<V>>, stamp: nat) {
    Comparable(m) && forall e :: e in m ==> e.stamp <= stamp
  }

  lemma WithoutOne<V(!new)>(m: multiset<Elem<V>>, e: Elem<V>, stamp: nat)
    requires Stamped(m, stamp)
    ensures Stamped(m - multiset{e}, stamp)
  {
    var n := m - multiset{e};
    assert forall f :: f in n ==> f in m && n[f] <= m[f];
  }

  /** `n` is `m` less some elements whose values are empty. */
  ghost predicate Culled<V(!new)>(m: multiset<Elem<V>>, n: multiset<Elem<V>>, empties: set<V>) {
    n <= m && forall e :: e in m && e.value !in empties ==> n[e] == m[e]
  }

  // ---- histories of the queue ----

  /** What the operations do to the contents: an insertion, the removal of an empty element, a pop, and
      the removal of everything. */
  datatype Op<V> = Put(e: Elem<V>) | Drop(e: Elem<V>) | Take(e: Elem<V>) | Wipe

  ghost predicate Removes<V(!new)>(op: Op<V>, e: Elem<V>) { op == Drop(e) || op == Take(e) || op == Wipe }

  /** The contents after the first `n` operations. */
  ghost function After<V(!new)>(ops: seq<Op<V>>, n: nat): set<Elem<V>>
    requires n <= |ops|
  {
    if n == 0 then {} else Done(After(ops, n - 1), ops[n - 1])
  }

  ghost function Done<V(!new)>(contents: set<Elem<V>>, op: Op<V>): set<Elem<V>> {
    match op
    case Put(e) => contents + {e}
    case Drop(e) => contents - {e}
    case Take(e) => contents - {e}
    case Wipe => {}
  }

  /** What is removed is there, and what is popped is the first of all elements. */
  ghost predicate Allowed<V(!new)>(contents: set<Elem<V>>, op: Op<V>) {
    && (op.Drop? || op.Take? ==> op.e in contents)
    && (op.Take? ==> forall f :: f in contents && f != op.e ==> Less(op.e, f))
  }

  /** Insertions count up to `stamp`. */
  ghost predicate CountsUp<V(!new)>(ops: seq<Op<V>>, stamp: nat) {
    && (forall i :: 0 <= i < |ops| && ops[i].Put? ==> ops[i].e.stamp <= stamp)
    && (forall i, j :: 0 <= i < j < |ops| && ops[i].Put? && ops[j].Put? ==> ops[i].e.stamp < ops[j].e.stamp)
  }

  ghost predicate Legal<V(!new)>(ops: seq<Op<V>>, stamp: nat) {
    CountsUp(ops, stamp) && forall i :: 0 <= i < |ops| ==> Allowed(After(ops, i), ops[i])
  }

  lemma {:induction false} AfterPrefix<V(!new)>(ops: seq<Op<V>>, op: Op<V>, n: nat)
    requires n <= |ops|
    ensures After(ops + [op], n) == After(ops, n)
  {
    if n > 0 { AfterPrefix(ops, op, n - 1); }
  }

  lemma OneMoreCounts<V(!new)>(ops: seq<Op<V>>, stamp: nat, op: Op<V>, stamp': nat)
    requires CountsUp(ops, stamp) && stamp <= stamp' && (op.Put? ==> stamp < op.e.stamp <= stamp')
    ensures CountsUp(ops + [op], stamp')
  {
  }

  lemma OneMoreAfter<V(!new)>(ops: seq<Op<V>>, op: Op<V>)
    ensures After(ops + [op], |ops| + 1) == Done(After(ops, |ops|), op)
  {
    hide Done;
    AfterPrefix(ops, op, |ops|);
  }

  lemma OneMore<V(!new)>(ops: seq<Op<V>>, stamp: nat, op: Op<V>, stamp': nat)
    requires Legal(ops, stamp) && Allowed(After(ops, |ops|), op) && stamp <= stamp'
    requires op.Put? ==> stamp < op.e.stamp <= stamp'
    ensures Legal(ops + [op], stamp')
    ensures After(ops + [op], |ops| + 1) == Done(After(ops, |ops|), op)
  {
    hide Allowed, CountsUp;
    OneMoreCounts(ops, stamp, op, stamp');
    OneMoreAfter(ops, op);
    hide After, Done;
    var ops' := ops + [op];
    forall i | 0 <= i < |ops'| ensures Allowed(After(ops', i), ops'[i]) {
      AfterPrefix(ops, op, i);
      if i < |ops| { assert Allowed(After(ops, i), ops[i]); }
    }
  }

  lemma {:induction false} Stays<V(!new)>(ops: seq<Op<V>>, i: nat, j: nat)
    requires i < j <= |ops| && ops[i].Put?
    requires forall k :: i < k < j ==> !Removes(ops[k], ops[i].e)
    ensures ops[i].e in After(ops, j)
    decreases j
  {
    if i + 1 < j { Stays(ops, i, j - 1); }
  }

  lemma {:induction false} CameIn<V(!new)>(ops: seq<Op<V>>, n: nat, e: Elem<V>) returns (i: nat)
    requires n <= |ops| && e in After(ops, n)
    ensures i < n && ops[i] == Put(e)
  {
    if ops[n - 1] == Put(e) {
      i := n - 1;
    } else {
      i := CameIn(ops, n - 1, e);
    }
  }

  lemma WasIn<V(!new)>(ops: seq<Op<V>>, stamp: nat, i: nat)
    requires Legal(ops, stamp) && i < |ops| && (ops[i].Drop? || ops[i].Take?)
    ensures ops[i].e in After(ops, i)
  {
    assert Allowed(After(ops, i), ops[i]);
  }

  /** What has been removed does not come back: its stamp is used up. */
  lemma {:induction false} StaysOut<V(!new)>(ops: seq<Op<V>>, stamp: nat, i: nat, n: nat)
    requires CountsUp(ops, stamp) && i < n <= |ops| && (ops[i].Drop? || ops[i].Take?) && ops[i].e in After(ops, i)
    ensures ops[i].e !in After(ops, n)
    decreases n
  {
    if i + 1 < n {
      StaysOut(ops, stamp, i, n - 1);
      var j := CameIn(ops, i, ops[i].e);
    }
  }

  /** Since `ops`, some elements have been culled, all with empty values. */
  ghost predicate Drops<V(!new)>(ops: seq<Op<V>>, ops': seq<Op<V>>, empties: set<V>) {
    ops <= ops' && forall k :: |ops| <= k < |ops'| ==> ops'[k].Drop? && ops'[k].e.value in empties
  }

  lemma DropsNone<V(!new)>(ops: seq<Op<V>>, empties: set<V>)
    ensures Drops(ops, ops, empties)
  {
  }

  lemma DropsMore<V(!new)>(ops: seq<Op<V>>, ops': seq<Op<V>>, e: Elem<V>, empties: set<V>)
    requires Drops(ops, ops', empties) && e.value in empties
    ensures Drops(ops, ops' + [Drop(e)], empties)
  {
  }

  lemma CulledMore<V(!new)>(m: multiset<Elem<V>>, n: multiset<Elem<V>>, e: Elem<V>, empties: set<V>)
    requires Culled(m, n, empties) && e.value in empties
    ensures Culled(m, n - multiset{e}, empties)
  {
  }

  lemma CulledNone<V(!new)>(m: multiset<Elem<V>>, empties: set<V>)
    ensures Culled(m, m, empties)
  {
  }

  lemma StillThere<V(!new)>(m: multiset<Elem<V>>, n: multiset<Elem<V>>, empties: set<V>)
    requires Culled(m, n, empties)
    ensures forall e :: e in n ==> e in m
  {
  }

  lemma SetLess<T>(a: set<T>, e: T)
    requires e in a
    ensures multiset(a) - multiset{e} == multiset(a - {e})
  {
  }

  lemma SetMore<T>(a: set<T>, e: T)
    requires e !in a
    ensures multiset(a) + multiset{e} == multiset(a + {e})
  {
  }

  lemma Removal<V(!new)>(ops: seq<Op<V>>, stamp: nat, m: multiset<Elem<V>>, op: Op<V>)
    requires Legal(ops, stamp) && m == multiset(After(ops, |ops|)) && (op.Drop? || op.Take?) && op.e in m
    requires op.Take? ==> forall f :: f in m && f != op.e ==> Less(op.e, f)
    ensures Legal(ops + [op], stamp) && m - multiset{op.e} == multiset(After(ops + [op], |ops| + 1))
  {
    hide Legal, After, Less;
    assert forall f :: f in After(ops, |ops|) ==> f in m;
    OneMore(ops, stamp, op, stamp);
    SetLess(After(ops, |ops|), op.e);
  }

  lemma Insertion<V(!new)>(ops: seq<Op<V>>, stamp: nat, m: multiset<Elem<V>>, e: Elem<V>)
    requires Legal(ops, stamp) && Stamped(m, stamp) && m == multiset(After(ops, |ops|)) && e.stamp == stamp + 1
    ensures Legal(ops + [Put(e)], stamp + 1) && m + multiset{e} == multiset(After(ops + [Put(e)], |ops| + 1))
  {
    hide Legal, After, Less, Comparable;
    assert e !in m;
    OneMore(ops, stamp, Put(e), stamp + 1);
    SetMore(After(ops, |ops|), e);
  }

  /** The generator of positions to look at, after `n` draws. */
  function Drawn(seed: nat, n: nat): nat {
    if n == 0 then seed else (Drawn(seed, n - 1) * 1664525 + 1013904223) % WORD
  }

  /** The position drawn among `size`. */
  function Position(seed: nat, size: nat): (pos: nat)
    requires size > 0
    ensures pos < size
  {
    seed % size
  }

  lemma DrawnNone(seed: nat)
    ensures Drawn(seed, 0) == seed
  {
  }

  lemma DrawnMore(seed: nat, n: nat)
    ensures Drawn(seed, n + 1) == (Drawn(seed, n) * 1664525 + 1013904223) % WORD
  {
  }

  /** Since `ops`, when the array held `s`, the empty element at the first position drawn has gone. */
  ghost predicate FirstDropped<V(!new)>(s: seq<Elem<V>>, seed: nat, ops: seq<Op<V>>, ops': seq<Op<V>>, empties: set<V>) {
    && |s| >= 32 && s[Position(seed, |s|)].value in empties
    && |ops'| > |ops| && ops'[|ops|] == Drop(s[Position(seed, |s|)])
  }

  /** `n` empty elements have been removed at random. */
  ghost predicate Culling<V(!new)>(s: seq<Elem<V>>, seed: nat, ops: seq<Op<V>>, ops': seq<Op<V>>, m: multiset<Elem<V>>,
                                   n: nat, empties: set<V>) {
    && Culled(multiset(s), m, empties) && Drops(ops, ops', empties) && |ops'| == |ops| + n
    && if n == 0 then ops' == ops else FirstDropped(s, seed, ops, ops', empties)
  }

  lemma CullingNone<V(!new)>(s: seq<Elem<V>>, seed: nat, ops: seq<Op<V>>, empties: set<V>)
    ensures Culling(s, seed, ops, ops, multiset(s), 0, empties)
  {
  }

  lemma CullingMore<V(!new)>(s: seq<Elem<V>>, seed: nat, ops: seq<Op<V>>, ops': seq<Op<V>>, m: multiset<Elem<V>>, n: nat,
                             empties: set<V>, e: Elem<V>)
    requires Culling(s, seed, ops, ops', m, n, empties) && e.value in empties
    requires n == 0 ==> |s| >= 32 && e == s[Position(seed, |s|)]
    ensures Culling(s, seed, ops, ops' + [Drop(e)], m - multiset{e}, n + 1, empties)
  {
    hide Culled, Drops;
    CulledMore(multiset(s), m, e, empties);
    DropsMore(ops, ops', e, empties);
  }

  lemma CullingEnds<V(!new)>(s: seq<Elem<V>>, seed: nat, ops: seq<Op<V>>, ops': seq<Op<V>>, m: multiset<Elem<V>>, n: nat,
                             empties: set<V>)
    requires Culling(s, seed, ops, ops', m, n, empties)
    requires n == 0 ==> |s| < 32 || s[Position(seed, |s|)].value !in empties
    ensures Culled(multiset(s), m, empties) && Drops(ops, ops', empties) && |ops'| == |ops| + n
    ensures if |s| < 32 || s[Position(seed, |s|)].value !in empties then ops' == ops else FirstDropped(s, seed, ops, ops', empties)
  {
    hide Culled, Drops;
  }

  class Heap<V(==, 0, !new)> {
    var es: array<Elem<V>>
    var size: nat
    var order: nat
    var cullRand: nat
    /** History: the number of insertions, of which `order` keeps the last 32 bits. */
    var stamp: nat
    /** History: everything that has happened to the contents. */
    ghost var ops: seq<Op<V>>

    ghost function Contents(): multiset<Elem<V>>
      requires size <= es.Length
      reads `size, `es, es
    {
      multiset(es[..size])
    }

    ghost predicate Sound()
      reads `size, `es, `order, `cullRand, `stamp, es
    {
      && size <= es.Length && size <= MAX_SIZE
      && order == stamp % WORD && cullRand < WORD
      && Stamped(Contents(), stamp)
    }

    ghost predicate Heaped()
      reads `size, `es, `order, `cullRand, `stamp, es
    {
      Sound() && HeapOrder.Heap(es[..size])
    }

    /** The array holds what the history leaves. */
    ghost predicate Valid()
      reads this, es
    {
      Heaped() && Legal(ops, stamp) && Contents() == multiset(After(ops, |ops|))
    }

    constructor ()
      ensures Valid() && fresh(es) && Contents() == multiset{} && stamp == 0 && ops == []
    {
      es := new Elem<V>[0];
      size, order, cullRand, stamp, ops := 0, 0, 8173, 0, [];
    }

    /** The program's comparison of two positions is the order of elements. */
    method IsBefore(i: nat, j: nat) returns (b: bool)
      requires Sound() && i < size && j < size
      ensures b <==> Less(es[i], es[j])
    {
      b := Before(es[i], es[j]);
      assert es[i] == es[..size][i] && es[j] == es[..size][j];
      assert es[i] in Contents() && es[j] in Contents();
      BeforeIsLess(es[i], es[j]);
    }

    method SwapAt(i: nat, j: nat)
      requires Sound() && i < size && j < size
      modifies es
      ensures Sound() && es[..size] == Swap(old(es[..size]), i, j) && Contents() == old(Contents())
    {
      ghost var s := es[..size];
      es[i], es[j] := es[j], es[i];
      assert es[..size] == Swap(s, i, j);
      SwapKeeps(s, i, j);
    }

    method SiftUp(start: nat)
      requires Sound() && start < size && HeapUp(es[..size], start)
      modifies es
      ensures Heaped() && Contents() == old(Contents())
    {
      var pos: nat := start;
      while pos != 0
        invariant Sound() && pos < size && HeapUp(es[..size], pos) && Contents() == old(Contents())
      {
        hide HeapUp, HeapOrder.Heap, Stamped, Less;
        var p := Parent(pos);
        var less := IsBefore(pos, p);
        assert es[..size][pos] == es[pos] && es[..size][p] == es[p];
        if !less {
          break;
        }
        UpStep(es[..size], pos);
        SwapAt(pos, p);
        pos := p;
      }
      assert pos == 0 || es[..size][pos] == es[pos];
      UpDone(es[..size], pos);
    }

    /** The first of `pos` and its children in the order. */
    method Smallest(pos: nat) returns (smallest: nat)
      requires Sound() && pos < size
      ensures smallest < size && (smallest == pos || (smallest > 0 && Parent(smallest) == pos))
      ensures smallest != pos ==> Less(es[smallest], es[pos])
      ensures FirstBelow(es[..size], pos, smallest)
    {
      hide Stamped;
      smallest := pos;
      var t, last := FirstChild(pos), LastChild(pos, size);
      while t < last
        invariant FirstChild(pos) <= t
        invariant smallest < size && (smallest == pos || (FirstChild(pos) <= smallest < last))
        invariant smallest != pos ==> Less(es[smallest], es[pos])
        invariant forall i :: FirstChild(pos) <= i < t && i < last ==> !Less(es[i], es[smallest])
      {
        var less := IsBefore(t, smallest);
        if less {
          smallest := t;
        }
        t := t + 1;
      }
      forall i | 0 < i < size && Parent(i) == pos ensures !Less(es[..size][i], es[..size][smallest]) {
        Shape(pos, i, size);
      }
      if smallest != pos { Shape(pos, smallest, size); }
    }

    method SiftDown(start: nat)
      requires Sound() && start < size && HeapDown(es[..size], start)
      modifies es
      ensures Heaped() && Contents() == old(Contents())
    {
      var pos: nat := start;
      while true
        invariant Sound() && pos < size && HeapDown(es[..size], pos) && Contents() == old(Contents())
        decreases size - pos
      {
        hide HeapDown, HeapOrder.Heap, Stamped, Less, FirstBelow;
        var smallest := Smallest(pos);
        assert es[..size][pos] == es[pos] && es[..size][smallest] == es[smallest];
        if smallest == pos {
          DownDone(es[..size], pos);
          break;
        }
        DownStep(es[..size], pos, smallest);
        SwapAt(pos, smallest);
        pos := smallest;
      }
    }

    method LastTo(pos: nat)
      requires size <= es.Length && pos < size - 1
      modifies this`size, es
      ensures size == old(size) - 1 && es[..size] == LastAt(old(es[..size]), pos)
    {
      ghost var s := es[..size];
      size := size - 1;
      es[pos] := es[size];
      assert forall i :: 0 <= i < size ==> es[i] == LastAt(s, pos)[i];
    }

    /** The last element is taken off the end and put at `pos`. */
    method MoveLast(pos: nat)
      requires Heaped() && pos < size - 1
      modifies this`size, es
      ensures Sound() && size == old(size) - 1
      ensures es[..size] == LastAt(old(es[..size]), pos)
      ensures Contents() == old(Contents()) - multiset{old(es[pos])}
    {
      hide Stamped, HeapOrder.Heap, LastAt;
      ghost var s := es[..size];
      LastMoved(s, pos);
      WithoutOne(multiset(s), s[pos], stamp);
      assert s[pos] == es[pos];
      LastTo(pos);
    }

    method DropLast()
      requires Heaped() && size > 0
      modifies this`size
      ensures Heaped() && size == old(size) - 1
      ensures Contents() == old(Contents()) - multiset{old(es[size - 1])}
    {
      hide Stamped, HeapOrder.Heap;
      ghost var s := es[..size];
      WithoutLast(s);
      PrefixHeap(s);
      size := size - 1;
      assert es[..size] == s[..|s| - 1];
      WithoutOne(multiset(s), s[|s| - 1], stamp);
    }

    /** `hard_cull`: removes the element at `pos`, wherever that is. */
    method HardCull(pos: nat)
      requires Heaped() && pos < size
      modifies this`size, es
      ensures Heaped() && size == old(size) - 1
      ensures Contents() == old(Contents()) - multiset{old(es[pos])}
    {
      hide Stamped, Loose, HeapOrder.Heap, LastAt;
      if pos == size - 1 {
        DropLast();
      } else {
        Replaced(es[..size], pos);
        MoveLast(pos);
        ghost var rest := Contents();
        Settle(pos);
        assert Contents() == rest;
      }
    }

    /** The element now at `pos` moves up or down to its place. */
    method Settle(pos: nat)
      requires Sound() && pos < size
      requires Loose(es[..size], pos)
      modifies es
      ensures Heaped() && Contents() == old(Contents())
    {
      hide Stamped, HeapUp, HeapDown, HeapOrder.Heap, Less;
      var up := false;
      if pos != 0 {
        up := IsBefore(pos, Parent(pos));
        assert es[..size][pos] == es[pos] && es[..size][Parent(pos)] == es[Parent(pos)];
      }
      if up {
        SiftUp(pos);
      } else {
        SiftDown(pos);
      }
    }

    lemma Holds(pos: nat)
      requires pos < size <= es.Length
      ensures es[pos] in Contents()
    {
      assert es[pos] == es[..size][pos];
    }

    lemma IsFirst()
      requires Heaped() && size != 0
      ensures es[0] in Contents()
      ensures forall f :: f in Contents() && f != es[0] ==> Less(es[0], f)
    {
      var s := es[..size];
      assert s[0] == es[0] && s[0] in multiset(s);
      forall f | f in multiset(s) && f != s[0] ensures Less(s[0], f) {
        var i :| 0 <= i < |s| && s[i] == f;
        RootIsFirst(s, i);
      }
    }

    /** The top is the first of all elements, strictly. */
    method Top() returns (e: Elem<V>)
      requires Valid() && size != 0
      ensures e == es[0] && e in Contents()
      ensures forall f :: f in Contents() && f != e ==> Less(e, f)
    {
      e := es[0];
      IsFirst();
    }

    method Pop()
      requires Valid() && size != 0
      modifies this`size, this`ops, es
      ensures Valid() && size == old(size) - 1
      ensures Contents() == old(Contents()) - multiset{old(es[0])}
      ensures ops == old(ops) + [Take(old(es[0]))]
    {
      hide HeapOrder.Heap, Stamped, Legal, After, Less;
      ghost var e := es[0];
      IsFirst();
      Removal(ops, stamp, Contents(), Take(e));
      HardCull(0);
      ops := ops + [Take(e)];
    }

    /** `cull`: drops empty elements from the top. */
    method Cull(empties: set<V>)
      requires Valid()
      modifies this`size, this`ops, es
      ensures Valid() && Culled(old(Contents()), Contents(), empties)
      ensures Drops(old(ops), ops, empties)
      ensures size != 0 ==> es[0].value !in empties
    {
      hide HeapOrder.Heap, Stamped, Legal, After, Less, Culled, Drops;
      CulledNone(Contents(), empties);
      DropsNone(ops, empties);
      while size != 0 && es[0].value in empties
        invariant Valid() && Culled(old(Contents()), Contents(), empties)
        invariant Drops(old(ops), ops, empties)
        decreases size
      {
        CulledMore(old(Contents()), Contents(), es[0], empties);
        DropsMore(old(ops), ops, es[0], empties);
        DropAt(0);
      }
    }

    /** An empty element is culled. */
    method DropAt(pos: nat)
      requires Valid() && pos < size
      modifies this`size, this`ops, es
      ensures Valid() && size == old(size) - 1
      ensures Contents() == old(Contents()) - multiset{old(es[pos])}
      ensures ops == old(ops) + [Drop(old(es[pos]))]
    {
      hide HeapOrder.Heap, Stamped, Legal, After, Less;
      ghost var e := es[pos];
      Holds(pos);
      Removal(ops, stamp, Contents(), Drop(e));
      HardCull(pos);
      ops := ops + [Drop(e)];
    }

    method Clear()
      requires Valid()
      modifies this`size, this`ops
      ensures Valid() && Contents() == multiset{} && size == 0 && ops == old(ops) + [Wipe]
    {
      OneMore(ops, stamp, Wipe, stamp);
      size, ops := 0, ops + [Wipe];
      assert es[..size] == [];
    }

    method Expand()
      requires Heaped() && size == es.Length
      modifies this`es
      ensures Heaped() && fresh(es) && es[..size] == old(es[..size]) && es.Length > size
      ensures Contents() == old(Contents())
      ensures es.Length == if old(es.Length) == 0 then 31 else old(es.Length) * 4 + 3
    {
      hide HeapOrder.Heap, Stamped, Less;
      var capacity := if es.Length != 0 then es.Length * 4 + 3 else 31;
      var nes := new Elem<V>[capacity];
      for i := 0 to size
        invariant es == old(es) && forall k :: 0 <= k < i ==> nes[k] == es[k]
      {
        nes[i] := es[i];
      }
      assert nes[..size] == es[..size];
      es := nes;
    }

    /** The element at the next random position is removed if it is empty. */
    method CullDrawn(empties: set<V>) returns (e: Elem<V>, empty: bool)
      requires Valid() && size >= 32
      modifies this`size, this`cullRand, this`ops, es
      ensures Valid() && e == old(es[..size])[Position(old(cullRand), old(size))] && empty == (e.value in empties)
      ensures cullRand == (old(cullRand) * 1664525 + 1013904223) % WORD
      ensures empty ==> size == old(size) - 1 && ops == old(ops) + [Drop(e)] && Contents() == old(Contents()) - multiset{e}
      ensures !empty ==> size == old(size) && ops == old(ops) && es[..size] == old(es[..size])
      ensures !empty ==> Contents() == old(Contents())
    {
      hide HeapOrder.Heap, Stamped, Legal, After, Less;
      var pos := cullRand % size;
      cullRand := (cullRand * 1664525 + 1013904223) % WORD;
      e := es[pos];
      assert e == es[..size][pos];
      empty := e.value in empties;
      if empty {
        DropAt(pos);
      }
    }

    lemma Fits()
      requires Valid()
      ensures size <= es.Length && Contents() == multiset(es[..size])
    {
    }

    /** Removes elements at random positions as long as they are found empty. */
    method CullRandom(empties: set<V>)
      requires Valid()
      modifies this`size, this`cullRand, this`ops, es
      ensures Valid() && Culled(old(Contents()), Contents(), empties) && size <= old(size)
      ensures Drops(old(ops), ops, empties)
      ensures if old(size) < 32 || old(es[..size])[Position(old(cullRand), old(size))].value !in empties
              then ops == old(ops) && es[..size] == old(es[..size])
              else FirstDropped(old(es[..size]), old(cullRand), old(ops), ops, empties)
      ensures |ops| >= |old(ops)| && cullRand == Drawn(old(cullRand), |ops| - |old(ops)| + if size >= 32 then 1 else 0)
    {
      hide Valid, Contents, Culled, Drops, Drawn, Culling, FirstDropped, Position;
      Fits();
      CullingNone(es[..size], cullRand, ops, empties);
      DrawnNone(cullRand);
      ghost var s, n: nat := es[..size], 0;
      while size >= 32
        invariant Valid() && size <= es.Length && Culling(s, old(cullRand), old(ops), ops, Contents(), n, empties)
        invariant size + n == |s| && cullRand == Drawn(old(cullRand), n)
        invariant n == 0 ==> es[..size] == s
        decreases size
      {
        DrawnMore(old(cullRand), n);
        ghost var m, all := Contents(), ops;
        var e, empty := CullDrawn(empties);
        if !empty {
          CullingEnds(s, old(cullRand), old(ops), ops, Contents(), n, empties);
          return;
        }
        CullingMore(s, old(cullRand), old(ops), all, m, n, empties, e);
        n := n + 1;
      }
      CullingEnds(s, old(cullRand), old(ops), ops, Contents(), n, empties);
    }

    method PutLast(e: Elem<V>)
      requires size < es.Length
      modifies this`size, es
      ensures size == old(size) + 1 && es[..size] == old(es[..size]) + [e]
    {
      es[size] := e;
      size := size + 1;
    }

    /** A new element, with the next count, goes to the end. */
    method Append(when: int, value: V)
      requires Heaped() && size < es.Length && size < MAX_SIZE
      requires forall e :: e in Contents() ==> Near(e.stamp, stamp + 1)
      modifies this`size, this`order, this`stamp, es
      ensures Sound() && size == old(size) + 1 && stamp == old(stamp) + 1
      ensures Contents() == old(Contents()) + multiset{Elem(when, stamp, value)}
      ensures HeapUp(es[..size], size - 1)
    {
      hide HeapOrder.Heap, Stamped, HeapUp, Near, Less;
      ghost var s, e := es[..size], Elem(when, stamp + 1, value);
      Added(multiset(s), e, stamp);
      AppendHeap(s, e);
      NextOrder(stamp);
      JoinedBy(s, e);
      stamp := stamp + 1;
      order := (order + 1) % WORD;
      PutLast(Elem(when, stamp, value));
    }

    /** A new element goes to the end and up to its place. */
    method Insert(when: int, value: V)
      requires Heaped() && size < MAX_SIZE
      requires forall e :: e in Contents() ==> Near(e.stamp, stamp + 1)
      modifies this`es, this`size, this`order, this`stamp, es
      ensures Heaped() && stamp == old(stamp) + 1 && (fresh(es) || es == old(es)) && size == old(size) + 1
      ensures Contents() == old(Contents()) + multiset{Elem(when, stamp, value)}
    {
      hide HeapOrder.Heap, Stamped, HeapUp, Near, Less, Contents;
      if size == es.Length {
        Expand();
      }
      Append(when, value);
      SiftUp(size - 1);
    }

    /** The second half of `emplace`, recorded. */
    method Enter(when: int, value: V)
      requires Valid() && size < MAX_SIZE
      requires forall e :: e in Contents() ==> Near(e.stamp, stamp + 1)
      modifies this, es
      ensures Valid() && stamp == old(stamp) + 1 && (fresh(es) || es == old(es))
      ensures size == old(size) + 1 && cullRand == old(cullRand)
      ensures Contents() == old(Contents()) + multiset{Elem(when, stamp, value)}
      ensures ops == old(ops) + [Put(Elem(when, stamp, value))]
    {
      hide HeapOrder.Heap, Stamped, Near, Legal, After, Less, Contents;
      ghost var e := Elem(when, stamp + 1, value);
      Insertion(ops, stamp, Contents(), e);
      Insert(when, value);
      ops := ops + [Put(e)];
      assert |ops| == |old(ops)| + 1;
    }

    /** Inserts an element behind all with the same deadline; may drop empty ones. */
    method Emplace(when: int, value: V, empties: set<V>)
      requires Valid() && size < MAX_SIZE
      requires forall e :: e in Contents() ==> Near(e.stamp, stamp + 1)
      modifies this, es
      ensures Valid() && stamp == old(stamp) + 1 && (fresh(es) || es == old(es))
      ensures exists kept :: Culled(old(Contents()), kept, empties)
                && Contents() == kept + multiset{Elem(when, stamp, value)}
                && (old(size) < 32 ==> kept == old(Contents()))
      ensures ops != [] && ops[|ops| - 1] == Put(Elem(when, stamp, value)) && Drops(old(ops), ops[..|ops| - 1], empties)
      ensures if old(size) >= 32 && old(es[..size][Position(cullRand, size)].value) in empties
              then FirstDropped(old(es[..size]), old(cullRand), old(ops), ops[..|ops| - 1], empties)
              else ops == old(ops) + [Put(Elem(when, stamp, value))]
      ensures |ops| > |old(ops)| && cullRand == Drawn(old(cullRand), |ops| - 1 - |old(ops)| + if size > 32 then 1 else 0)
    {
      hide Valid, Contents, Near, Culled, Drops, Position, FirstDropped, Drawn;
      Fits();
      CullRandom(empties);
      Fits();
      ghost var kept, culled := Contents(), ops;
      assert old(size) < 32 ==> kept == old(Contents());
      StillThere(old(Contents()), kept, empties);
      Enter(when, value);
      assert ops[..|ops| - 1] == culled;
    }

    /** A stable priority queue: of two elements inserted before, the one with the earlier deadline, or with
        the same deadline and inserted first, is popped first unless it was removed otherwise. */
    lemma PopsInOrder(i: nat, i': nat, j: nat)
      requires Valid() && i < j < |ops| && i' < j && ops[i].Put? && ops[i'].Put? && ops[j] == Take(ops[i'].e)
      requires ops[i].e.when < ops[i'].e.when || (ops[i].e.when == ops[i'].e.when && i < i')
      ensures exists k :: i < k < j && Removes(ops[k], ops[i].e)
    {
      if forall k :: i < k < j ==> !Removes(ops[k], ops[i].e) {
        Stays(ops, i, j);
      }
    }

    /** What is popped or culled was inserted before, and neither popped nor culled before. */
    lemma RemovedOnce(j: nat, k: nat)
      requires Valid() && j < k < |ops| && (ops[j].Drop? || ops[j].Take?) && (ops[k].Drop? || ops[k].Take?)
      ensures ops[k].e != ops[j].e && exists i :: 0 <= i < k && ops[i] == Put(ops[k].e)
    {
      hide Allowed, Comparable;
      WasIn(ops, stamp, j);
      WasIn(ops, stamp, k);
      StaysOut(ops, stamp, j, k);
      var i := CameIn(ops, k, ops[k].e);
    }
  }

  lemma JoinedBy<V>(s: seq<Elem<V>>, e: Elem<V>)
    ensures multiset(s + [e]) == multiset(s) + multiset{e}
  {
  }

  lemma NextOrder(n: nat)
    ensures (n % WORD + 1) % WORD == (n + 1) % WORD
  {
  }

  lemma WithoutLast<V>(s: seq<Elem<V>>)
    requires s != []
    ensures multiset(s[..|s| - 1]) == multiset(s) - multiset{s[|s| - 1]}
  {
    assert s == s[..|s| - 1] + [s[|s| - 1]];
  }

  lemma LastMoved<V>(s: seq<Elem<V>>, pos: nat)
    requires pos < |s| - 1
    ensures multiset(LastAt(s, pos)) == multiset(s) - multiset{s[pos]}
  {
    WithoutLast(s);
    var p := s[..|s| - 1];
    assert multiset(p[pos := s[|s| - 1]]) == multiset(p) - multiset{p[pos]} + multiset{s[|s| - 1]};
  }

  lemma PrefixHeap<V>(s: seq<Elem<V>>)
    requires HeapOrder.Heap(s) && s != []
    ensures HeapOrder.Heap(s[..|s| - 1])
  {
    var t := s[..|s| - 1];
    forall i | 0 < i < |t| ensures InOrder(t, i) { assert InOrder(s, i); }
  }

  lemma AppendHeap<V>(s: seq<Elem<V>>, e: Elem<V>)
    requires HeapOrder.Heap(s)
    ensures HeapUp(s + [e], |s|)
  {
    forall i | 0 < i < |s + [e]| && i != |s| ensures InOrder(s + [e], i) { assert InOrder(s, i); }
  }

  lemma Added<V(!new)>(m: multiset<Elem<V>>, e: Elem<V>, stamp: nat)
    requires Stamped(m, stamp) && e.stamp == stamp + 1 && forall f :: f in m ==> Near(f.stamp, e.stamp)
    ensures Stamped(m + multiset{e}, e.stamp)
  {
    assert e !in m;
  }
}
