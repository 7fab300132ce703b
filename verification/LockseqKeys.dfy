/** The keys of the lock-sequence test protocol, how they are printed and how `check` reads them. */
module LockseqKeys {
  import opened Strings

  const WORD: nat := 0x1_0000_0000

  /** unsigned(-1), the mark for "not a number". */
  const NOT_A_NUMBER: nat := WORD - 1

  predicate IsDigit(c: char) { '0' <= c <= '9' }

  function DigitValue(c: char): nat
    requires IsDigit(c)
  {
    c as nat - '0' as nat
  }

  /** The loop of `parse_digits` from `from` on, with value `v` so far; the arithmetic is 32-bit. */
  function ParseFrom(s: string, from: nat, to: nat, v: nat): (r: nat)
    requires from <= to <= |s| && v < WORD
    ensures r < WORD
    decreases |s| - from
  {
    if from == to then v
    else if !IsDigit(s[from]) then NOT_A_NUMBER
    else
      var vv := (v * 10 + DigitValue(s[from])) % WORD;
      if vv < v then NOT_A_NUMBER else ParseFrom(s, from + 1, to, vv)
  }

  function ParseDigits(s: string, from: nat, to: nat): (r: nat)
    requires to <= |s|
    ensures r < WORD
  {
    if from >= to then NOT_A_NUMBER else ParseFrom(s, from, to, 0)
  }

  method ParseDigitsLoop(s: string, from: nat, to: nat) returns (r: nat)
    requires to <= |s|
    ensures r == ParseDigits(s, from, to)
  {
    if from >= to {
      return NOT_A_NUMBER;
    }
    var v, i := 0, from;
    while i < to
      invariant from <= i <= to && v < WORD
      invariant ParseDigits(s, from, to) == ParseFrom(s, i, to, v)
    {
      if !IsDigit(s[i]) {
        return NOT_A_NUMBER;
      }
      var vv := (v * 10 + DigitValue(s[i])) % WORD;
      if vv < v {
        return NOT_A_NUMBER;
      }
      v := vv;
      i := i + 1;
    }
    return v;
  }

  // ---- printing ----

  function Digit(d: nat): (c: char)
    requires d < 10
    ensures IsDigit(c) && DigitValue(c) == d
  {
    ('0' as nat + d) as char
  }

  /** Decimal, as std::format prints an unsigned number. */
  function Dec(n: nat): (s: string)
    ensures |s| > 0 && forall i :: 0 <= i < |s| ==> IsDigit(s[i])
  {
    if n < 10 then [Digit(n)] else Dec(n / 10) + [Digit(n % 10)]
  }

  /** Three digits, zero-padded. */
  function Pad3(n: nat): (s: string)
    requires n < 1000
    ensures |s| == 3
  {
    [Digit(n / 100), Digit(n / 10 % 10), Digit(n % 10)]
  }

  lemma {:induction false} ParseSplit(s: string, from: nat, mid: nat, to: nat, v: nat)
    requires from <= mid <= to <= |s| && v < WORD
    requires forall i :: from <= i < mid ==> IsDigit(s[i])
    requires ParseFrom(s, from, mid, v) != NOT_A_NUMBER
    ensures ParseFrom(s, from, to, v) == ParseFrom(s, mid, to, ParseFrom(s, from, mid, v))
    decreases |s| - from
  {
    if from < mid {
      ParseSplit(s, from + 1, mid, to, (v * 10 + DigitValue(s[from])) % WORD);
    }
  }

  lemma {:induction false} ParseShift(s: string, p: string, t: string, from: nat, to: nat, v: nat)
    requires from <= to <= |s| && v < WORD
    ensures ParseFrom(p + s + t, |p| + from, |p| + to, v) == ParseFrom(s, from, to, v)
    decreases |s| - from
  {
    if from < to {
      assert (p + s + t)[|p| + from] == s[from];
      if IsDigit(s[from]) {
        ParseShift(s, p, t, from + 1, to, (v * 10 + DigitValue(s[from])) % WORD);
      }
    }
  }

  /** Reading one more digit. */
  lemma ParseAppend(s: string, d: nat, v: nat)
    requires d < 10 && v * 10 + d < WORD
    requires forall i :: 0 <= i < |s| ==> IsDigit(s[i])
    requires ParseFrom(s, 0, |s|, 0) == v && v != NOT_A_NUMBER
    ensures ParseFrom(s + [Digit(d)], 0, |s| + 1, 0) == v * 10 + d
  {
    var t := s + [Digit(d)];
    assert [] + s + [Digit(d)] == t;
    ParseShift(s, [], [Digit(d)], 0, |s|, 0);
    ParseSplit(t, 0, |s|, |s| + 1, 0);
    assert t[|s|] == Digit(d);
    assert ParseFrom(t, |s| + 1, |s| + 1, v * 10 + d) == v * 10 + d;
  }

  /** `parse_digits` reads back what was printed, for every number it can represent. */
  lemma {:induction false} ParseDec(n: nat)
    requires n < NOT_A_NUMBER
    ensures ParseFrom(Dec(n), 0, |Dec(n)|, 0) == n
  {
    if n < 10 {
      assert ParseFrom(Dec(n), 1, 1, n) == n;
    } else {
      ParseDec(n / 10);
      ParseAppend(Dec(n / 10), n % 10, n / 10);
    }
  }

  // ---- keys ----

  function GroupKey(gid: nat): string { "g" + Dec(gid) }

  function LockKey(gid: nat): string { GroupKey(gid) + "/lock" }

  function ValueKey(gid: nat, vid: nat): string
    requires vid < 1000
  {
    GroupKey(gid) + "/v" + Pad3(vid)
  }

  function ClientKey(cid: nat): string { "c" + Dec(cid) }

  /** Position of the first slash, or the length. */
  function Slash(s: string): (p: nat)
    ensures p <= |s| && (p < |s| ==> s[p] == '/')
    ensures forall i :: 0 <= i < p ==> s[i] != '/'
  {
    if s == [] || s[0] == '/' then 0 else 1 + Slash(s[1..])
  }

  /** `g` stands at the front of a key and names a group: "g", a number, "/". */
  predicate IsGroup(g: string) {
    && |g| >= 3 && g[0] == 'g' && Slash(g) == |g| - 1 && ParseDigits(g, 1, |g| - 1) != NOT_A_NUMBER
  }

  datatype Slot = Lock | Value(index: nat)

  /** The entry of the group that a key names with what follows the slash. */
  predicate IsSlot(rest: string, slot: Slot) {
    match slot
    case Lock => rest == "lock"
    case Value(i) => i < 1000 && rest == "v" + Pad3(i)
  }

  lemma SlashPrefix(g: string, key: string)
    requires Slash(g) < |g| && g <= key
    ensures Slash(key) == Slash(g)
  {
  }

  lemma {:induction false} ParseLocal(s: string, t: string, from: nat, to: nat, v: nat)
    requires to <= |s| && to <= |t| && v < WORD && from <= to
    requires forall i :: from <= i < to ==> s[i] == t[i]
    ensures ParseFrom(s, from, to, v) == ParseFrom(t, from, to, v)
    decreases |s| - from
  {
    if from < to && IsDigit(s[from]) {
      ParseLocal(s, t, from + 1, to, (v * 10 + DigitValue(s[from])) % WORD);
    }
  }

  /** The group of a key is the part up to its first slash, and no other prefix is a group. */
  lemma GroupUnique(g: string, key: string)
    requires g <= key && IsGroup(g)
    ensures Slash(key) < |key| && g == key[..Slash(key) + 1]
  {
    SlashPrefix(g, key);
  }

  lemma DigitsOf(i: nat)
    requires i < 1000
    ensures i / 100 < 10 && i == (i / 100 * 10 + i / 10 % 10) * 10 + i % 10
  {
  }

  lemma FitsWord(x: nat)
    requires x < WORD
    ensures x % WORD == x
  {
  }

  lemma ParseDigit(s: string, from: nat, to: nat, v: nat, d: nat)
    requires from < to <= |s| && d < 10 && s[from] == Digit(d) && v * 10 + d < WORD
    ensures ParseFrom(s, from, to, v) == ParseFrom(s, from + 1, to, v * 10 + d)
  {
    hide IsDigit, DigitValue, Digit;
    FitsWord(v * 10 + d);
  }

  lemma ParseThree(s: string, a: nat, b: nat, c: nat)
    requires |s| == 4 && a < 10 && b < 10 && c < 10
    requires s[1] == Digit(a) && s[2] == Digit(b) && s[3] == Digit(c)
    ensures ParseDigits(s, 1, 4) == (a * 10 + b) * 10 + c
  {
    ParseDigit(s, 1, 4, 0, a);
    ParseDigit(s, 2, 4, a, b);
    ParseDigit(s, 3, 4, a * 10 + b, c);
    assert ParseFrom(s, 4, 4, (a * 10 + b) * 10 + c) == (a * 10 + b) * 10 + c;
  }

  lemma SplitDigits(a: nat, b: nat, c: nat)
    requires a < 10 && b < 10 && c < 10
    ensures var n := (a * 10 + b) * 10 + c; n < 1000 && n / 100 == a && n / 10 % 10 == b && n % 10 == c
  {
    assert ((a * 10 + b) * 10 + c) / 10 == a * 10 + b;
  }

  lemma PadOf(a: nat, b: nat, c: nat)
    requires a < 10 && b < 10 && c < 10
    ensures (a * 10 + b) * 10 + c < 1000 && Pad3((a * 10 + b) * 10 + c) == [Digit(a), Digit(b), Digit(c)]
  {
    SplitDigits(a, b, c);
  }

  lemma DigitUnique(c: char)
    requires IsDigit(c)
    ensures c == Digit(DigitValue(c))
  {
  }

  lemma ThreeDigits(s: string, i: nat)
    requires |s| == 4 && s[0] == 'v'
    ensures ParseDigits(s, 1, 4) == i && i != NOT_A_NUMBER <==> IsSlot(s, Value(i))
  {
    if IsSlot(s, Value(i)) {
      DigitsOf(i);
      assert s[1] == Digit(i / 100) && s[2] == Digit(i / 10 % 10) && s[3] == Digit(i % 10);
      ParseThree(s, i / 100, i / 10 % 10, i % 10);
    } else if IsDigit(s[1]) && IsDigit(s[2]) && IsDigit(s[3]) {
      var a, b, c := DigitValue(s[1]), DigitValue(s[2]), DigitValue(s[3]);
      DigitUnique(s[1]);
      DigitUnique(s[2]);
      DigitUnique(s[3]);
      ParseThree(s, a, b, c);
      var n := (a * 10 + b) * 10 + c;
      PadOf(a, b, c);
      assert s == "v" + [Digit(a), Digit(b), Digit(c)];
    } else {
      NotThree(s);
    }
  }

  lemma NotThree(s: string)
    requires |s| == 4 && !(IsDigit(s[1]) && IsDigit(s[2]) && IsDigit(s[3]))
    ensures ParseDigits(s, 1, 4) == NOT_A_NUMBER
  {
    if IsDigit(s[1]) {
      var a := DigitValue(s[1]);
      assert ParseFrom(s, 1, 4, 0) == ParseFrom(s, 2, 4, a);
      if IsDigit(s[2]) {
        assert ParseFrom(s, 2, 4, a) == ParseFrom(s, 3, 4, a * 10 + DigitValue(s[2]));
      }
    }
  }

  /** Within a group keys are ordered: the lock first, then the values by index. */
  lemma SlotOrder(g: string, r: string, r': string, s: Slot, s': Slot)
    requires IsSlot(r, s) && IsSlot(r', s')
    ensures Less(g + r, g + r') <==> (s.Lock? && s'.Value?) || (s.Value? && s'.Value? && s.index < s'.index)
  {
    LessAt(g + r, g + r', g);
    assert (g + r)[|g|..] == r && (g + r')[|g|..] == r';
    if s.Lock? && s'.Lock? { LessIrreflexive(r); }
    if s.Value? && s'.Value? {
      var a, b := s.index, s'.index;
      assert r[0] == r'[0];
      assert r[1..] == Pad3(a) && r'[1..] == Pad3(b);
      PadOrder(a, b);
    }
  }

  lemma LessThree(p: string, q: string)
    requires |p| == 3 && |q| == 3
    ensures Less(p, q) <==> p[0] < q[0] || (p[0] == q[0] && (p[1] < q[1] || (p[1] == q[1] && p[2] < q[2])))
  {
    var p1, q1 := p[1..], q[1..];
    var p2, q2 := p1[1..], q1[1..];
    assert p2[1..] == [] && q2[1..] == [];
    assert Less(p2, q2) <==> p[2] < q[2];
    assert Less(p1, q1) <==> p[1] < q[1] || (p[1] == q[1] && p[2] < q[2]);
  }

  lemma PadOrder(a: nat, b: nat)
    requires a < 1000 && b < 1000
    ensures Less(Pad3(a), Pad3(b)) <==> a < b
  {
    LessThree(Pad3(a), Pad3(b));
    DigitsOf(a);
    DigitsOf(b);
  }

  // ---- printed keys read back ----

  lemma {:induction false} SlashAfter(p: string, rest: string)
    requires forall i :: 0 <= i < |p| ==> p[i] != '/'
    ensures Slash(p + "/" + rest) == |p|
  {
    if p != [] {
      assert (p + "/" + rest)[1..] == p[1..] + "/" + rest;
      SlashAfter(p[1..], rest);
    }
  }

  /** The printed group name is one that `check` accepts. */
  lemma GroupKeyIsGroup(gid: nat)
    requires gid < NOT_A_NUMBER
    ensures IsGroup(GroupKey(gid) + "/")
  {
    var g := GroupKey(gid) + "/";
    SlashAfter(GroupKey(gid), "");
    assert GroupKey(gid) + "/" + "" == g;
    ParseDec(gid);
    ParseShift(Dec(gid), "g", "/", 0, |Dec(gid)|, 0);
    assert "g" + Dec(gid) + "/" == g;
  }

  lemma GroupKeyInjective(a: nat, b: nat)
    requires a < NOT_A_NUMBER && b < NOT_A_NUMBER && GroupKey(a) == GroupKey(b)
    ensures a == b
  {
    ParseDec(a);
    ParseDec(b);
    assert Dec(a) == GroupKey(a)[1..] && Dec(b) == GroupKey(b)[1..];
  }

  /** Two printed keys are equal only if group and entry are. */
  lemma KeysInjective(a: nat, r: string, s: Slot, b: nat, r': string, s': Slot)
    requires a < NOT_A_NUMBER && b < NOT_A_NUMBER && IsSlot(r, s) && IsSlot(r', s')
    requires GroupKey(a) + "/" + r == GroupKey(b) + "/" + r'
    ensures a == b && s == s'
  {
    GroupKeyIsGroup(a);
    GroupKeyIsGroup(b);
    var key := GroupKey(a) + "/" + r;
    assert GroupKey(a) + "/" <= key && GroupKey(b) + "/" <= key;
    GroupUnique(GroupKey(a) + "/", key);
    GroupUnique(GroupKey(b) + "/", key);
    assert GroupKey(a) == key[..Slash(key)] && GroupKey(b) == key[..Slash(key)];
    GroupKeyInjective(a, b);
    assert r == key[Slash(key) + 1..] && r' == key[Slash(key) + 1..];
    assert r == r';
    if s.Value? { assert r[0] == 'v'; ThreeDigits(r, s.index); }
    if s'.Value? { assert r[0] == 'v'; ThreeDigits(r, s'.index); }
  }

  /** A client's lock values begin with its name and a blank, which no other client's do. */
  lemma ClientPrefix(a: nat, b: nat, x: string, y: string)
    requires a < NOT_A_NUMBER && b < NOT_A_NUMBER
    requires ClientKey(a) + " " + x == ClientKey(b) + " " + y
    ensures a == b
  {
    var v := ClientKey(a) + " " + x;
    var p, q := |ClientKey(a)|, |ClientKey(b)|;
    assert v[p] == ' ' && v[q] == ' ';
    assert forall i :: 1 <= i < p ==> v[i] == Dec(a)[i - 1];
    assert v == ClientKey(b) + " " + y;
    assert forall i :: 1 <= i < q ==> v[i] == Dec(b)[i - 1];
    assert p == q;
    assert Dec(a) == v[1..p] && Dec(b) == v[1..q];
    ParseDec(a);
    ParseDec(b);
  }
}
