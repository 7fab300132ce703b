/**
 The order of the timer heap: deadlines, ties broken by a wrapping 32-bit insertion counter; the shape of
 the heap, whose root has three children and every other node four; and what moving an element one
 level does to the heap order.
 */
module HeapOrder {

  const WORD: nat := 0x1_0000_0000
  const HALF: nat := 0x8000_0000

  /** Beyond this size the index arithmetic would wrap. */
  const MAX_SIZE: nat := 0x3fff_ffff

  // ---- circular_int ----

  /** `difference_type(a - b) < 0` for 32-bit counters. */
  predicate CircularLess(a: nat, b: nat)
    requires a < WORD && b < WORD
  {
    (a - b) % WORD >= HALF
  }

  lemma Wraps(a: nat, b: nat)
    ensures (a % WORD - b % WORD) % WORD == (a - b) % WORD
  {
    var q, r := a / WORD, b / WORD;
    ModShift(a % WORD - b % WORD, q - r);
    assert a - b == a % WORD - b % WORD + (q - r) * WORD;
  }

  lemma {:induction false} ModShift(x: int, k: int)
    ensures (x + k * WORD) % WORD == x % WORD
    decreases if k < 0 then -k else k
  {
    if k > 0 {
      ModShift(x, k - 1);
      AddWord(x + (k - 1) * WORD);
    } else if k < 0 {
      ModShift(x, k + 1);
      AddWord(x + k * WORD);
    }
  }

  lemma AddWord(x: int)
    ensures (x + WORD) % WORD == x % WORD
  {
  }

  /** Exactly when the wrapping comparison puts the earlier of two counters strictly first: the later
      one is, modulo the word, less than half a word ahead. */
  lemma CircularExact(a: nat, b: nat)
    ensures CircularLess(a % WORD, b % WORD) && !CircularLess(b % WORD, a % WORD) <==> 0 < (b - a) % WORD < HALF
  {
    Wraps(a, b);
    Wraps(b, a);
    var d := (b - a) % WORD;
    ModShift(-d, -((b - a) / WORD));
    assert a - b == -d + (-((b - a) / WORD)) * WORD;
    assert d > 0 ==> (-d) % WORD == WORD - d;
  }

  /** Half a word apart, each of two counters comes before the other. */
  lemma CircularFails(a: nat)
    ensures CircularLess(a % WORD, (a + HALF) % WORD) && CircularLess((a + HALF) % WORD, a % WORD)
  {
    Wraps(a, a + HALF);
    Wraps(a + HALF, a);
  }

  // ---- elements ----

  /** `stamp` counts insertions without wrapping; the program keeps `Order`. */
  datatype Elem<V> = Elem(when: int, stamp: nat, value: V)

  function Order<V>(e: Elem<V>): (o: nat)
    ensures o < WORD
  {
    e.stamp % WORD
  }

  /** The program's comparison. */
  predicate Before<V>(a: Elem<V>, b: Elem<V>) {
    a.when < b.when || (a.when == b.when && CircularLess(Order(a), Order(b)))
  }

  /** What it stands for: deadline first, then order of insertion. */
  predicate Less<V>(a: Elem<V>, b: Elem<V>) {
    a.when < b.when || (a.when == b.when && a.stamp < b.stamp)
  }

  predicate Near(a: nat, b: nat) { a < b + HALF && b < a + HALF }

  lemma BeforeIsLess<V>(a: Elem<V>, b: Elem<V>)
    requires Near(a.stamp, b.stamp)
    ensures Before(a, b) <==> Less(a, b)
  {
    Wraps(a.stamp, b.stamp);
    assert a.stamp < b.stamp <==> (a.stamp - b.stamp) % WORD >= HALF;
  }

  // ---- shape ----

  function Parent(i: nat): nat { i / 4 }

  function FirstChild(i: nat): (c: nat)
    requires i < MAX_SIZE
    ensures c < WORD
  {
    i * 4 + if i == 0 then 1 else 0
  }

  function LastChild(i: nat, size: nat): (c: nat)
    requires i < MAX_SIZE
    ensures c < WORD
  {
    var p := i * 4 + 4;
    if p < size then p else size
  }

  /** Children and parents fit together, at the odd root as elsewhere. */
  lemma Shape(i: nat, j: nat, size: nat)
    requires i < size <= MAX_SIZE && j < size
    ensures FirstChild(i) <= j < LastChild(i, size) <==> j > 0 && Parent(j) == i
  {
  }

  // ---- heap order ----

  predicate InOrder<V>(s: seq<Elem<V>>, i: nat)
    requires 0 < i < |s|
  {
    !Less(s[i], s[Parent(i)])
  }

  predicate Heap<V>(s: seq<Elem<V>>) {
    forall i :: 0 < i < |s| ==> InOrder(s, i)
  }

  /** Nothing below `pos` is before the parent of `pos`. */
  predicate Covered<V>(s: seq<Elem<V>>, pos: nat)
    requires pos < |s|
  {
    forall i :: 0 < i < |s| && Parent(i) == pos && pos > 0 ==> !Less(s[i], s[Parent(pos)])
  }

  /** In order but for `pos`, which may have to move up. */
  predicate HeapUp<V>(s: seq<Elem<V>>, pos: nat)
    requires pos < |s|
  {
    (forall i :: 0 < i < |s| && i != pos ==> InOrder(s, i)) && Covered(s, pos)
  }

  /** In order but for `pos`, which may have to move down. */
  predicate HeapDown<V>(s: seq<Elem<V>>, pos: nat)
    requires pos < |s|
  {
    (forall i :: 0 < i < |s| && Parent(i) != pos ==> InOrder(s, i)) && Covered(s, pos)
  }

  function Swap<V>(s: seq<Elem<V>>, i: nat, j: nat): seq<Elem<V>>
    requires i < |s| && j < |s|
  {
    s[i := s[j]][j := s[i]]
  }

  lemma SwapKeeps<V>(s: seq<Elem<V>>, i: nat, j: nat)
    requires i < |s| && j < |s|
    ensures multiset(Swap(s, i, j)) == multiset(s)
  {
  }

  lemma UpStep<V>(s: seq<Elem<V>>, pos: nat)
    requires 0 < pos < |s| && HeapUp(s, pos) && Less(s[pos], s[Parent(pos)])
    ensures HeapUp(Swap(s, pos, Parent(pos)), Parent(pos))
  {
    var p, t := Parent(pos), Swap(s, pos, Parent(pos));
    forall i | 0 < i < |t| && i != p ensures InOrder(t, i) {
      assert i != pos ==> InOrder(s, i);
    }
    forall i | 0 < i < |t| && Parent(i) == p && p > 0 ensures !Less(t[i], t[Parent(p)]) {
      assert InOrder(s, p);
      assert i != pos ==> InOrder(s, i);
    }
  }

  lemma UpDone<V>(s: seq<Elem<V>>, pos: nat)
    requires pos < |s| && HeapUp(s, pos) && (pos == 0 || !Less(s[pos], s[Parent(pos)]))
    ensures Heap(s)
  {
  }

  /** `c` is the first child of `pos` in the order. */
  predicate FirstBelow<V>(s: seq<Elem<V>>, pos: nat, c: nat)
    requires pos < |s| && c < |s|
  {
    forall i :: 0 < i < |s| && Parent(i) == pos ==> !Less(s[i], s[c])
  }

  lemma DownStep<V>(s: seq<Elem<V>>, pos: nat, c: nat)
    requires pos < |s| && 0 < c < |s| && HeapDown(s, pos) && Parent(c) == pos
    requires Less(s[c], s[pos]) && FirstBelow(s, pos, c)
    ensures HeapDown(Swap(s, pos, c), c)
  {
    var t := Swap(s, pos, c);
    forall i | 0 < i < |t| && Parent(i) != c ensures InOrder(t, i) {
      if Parent(i) != pos { assert InOrder(s, i); }
    }
    forall i | 0 < i < |t| && Parent(i) == c ensures !Less(t[i], t[Parent(c)]) {
      assert InOrder(s, i);
    }
  }

  lemma DownDone<V>(s: seq<Elem<V>>, pos: nat)
    requires pos < |s| && HeapDown(s, pos) && FirstBelow(s, pos, pos)
    ensures Heap(s)
  {
    forall i | 0 < i < |s| ensures InOrder(s, i) {}
  }

  /** In order but for `pos`, which has to move one way only. */
  predicate Loose<V>(s: seq<Elem<V>>, pos: nat)
    requires pos < |s|
  {
    if pos == 0 || !Less(s[pos], s[Parent(pos)]) then HeapDown(s, pos) else HeapUp(s, pos)
  }

  /** Without the element at `pos`, where the last one is now. */
  function LastAt<V>(s: seq<Elem<V>>, pos: nat): (t: seq<Elem<V>>)
    requires pos < |s| - 1
    ensures |t| == |s| - 1
  {
    s[..|s| - 1][pos := s[|s| - 1]]
  }

  /** An element is removed by putting the last one in its place. */
  lemma Replaced<V>(s: seq<Elem<V>>, pos: nat)
    requires Heap(s) && pos < |s| - 1
    ensures Loose(LastAt(s, pos), pos)
  {
    var t := LastAt(s, pos);
    assert forall i :: 0 < i < |t| ==> InOrder(s, i);
    forall i | 0 < i < |t| && Parent(i) == pos && pos > 0 ensures !Less(t[i], t[Parent(pos)]) {
      assert InOrder(s, i) && InOrder(s, pos);
    }
    if pos == 0 || !Less(t[pos], t[Parent(pos)]) {
      forall i | 0 < i < |t| && Parent(i) != pos ensures InOrder(t, i) { assert InOrder(s, i); }
    } else {
      forall i | 0 < i < |t| && i != pos ensures InOrder(t, i) { assert InOrder(s, i) && InOrder(s, pos); }
    }
  }

  lemma {:induction false} RootIsFirst<V>(s: seq<Elem<V>>, i: nat)
    requires Heap(s) && i < |s|
    ensures !Less(s[i], s[0])
  {
    if i > 0 {
      RootIsFirst(s, Parent(i));
      assert InOrder(s, i);
    }
  }
}
