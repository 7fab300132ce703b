/** Strings as the program orders and prints them: lexicographic order and decimal numerals. */
module Strings {

  /** The order of std::string, hence the iteration order of a std::map keyed by strings. */
  predicate Less(a: string, b: string) {
    b != [] && (a == [] || a[0] < b[0] || (a[0] == b[0] && Less(a[1..], b[1..])))
  }

  lemma {:induction false} LessTrans(a: string, b: string, c: string)
    requires Less(a, b) && Less(b, c)
    ensures Less(a, c)
  {
    if a != [] && a[0] == b[0] && b[0] == c[0] {
      LessTrans(a[1..], b[1..], c[1..]);
    }
  }

  lemma {:induction false} LessIrreflexive(a: string)
    ensures !Less(a, a)
  {
    if a != [] { LessIrreflexive(a[1..]); }
  }

  lemma {:induction false} LessTotal(a: string, b: string)
    ensures Less(a, b) || a == b || Less(b, a)
  {
    if a != [] && b != [] && a[0] == b[0] {
      LessTotal(a[1..], b[1..]);
      if a[1..] == b[1..] { assert a == [a[0]] + a[1..] && b == [b[0]] + b[1..]; }
    }
  }

  /** `keys` lists the set `s` in the order a std::map iterates over it. */
  ghost predicate IsOrderOf(keys: seq<string>, s: set<string>) {
    && (forall k :: k in keys <==> k in s)
    && (forall i, j :: 0 <= i < j < |keys| ==> Less(keys[i], keys[j]))
  }

  lemma {:induction false} LeastKey(s: set<string>) returns (k: string)
    requires s != {}
    ensures k in s && forall x :: x in s ==> x == k || Less(k, x)
  {
    var y :| y in s;
    if s == {y} {
      k := y;
    } else {
      var rest := s - {y};
      var z := LeastKey(rest);
      LessTotal(y, z);
      k := if Less(y, z) then y else z;
      forall x | x in s ensures x == k || Less(k, x) {
        if x in rest && Less(y, z) && x != z { LessTrans(y, z, x); }
      }
    }
  }

  /** Every finite set of keys has an iteration order. */
  lemma {:induction false} OrderExists(s: set<string>) returns (keys: seq<string>)
    ensures IsOrderOf(keys, s)
  {
    if s == {} {
      keys := [];
    } else {
      var k := LeastKey(s);
      var rest := OrderExists(s - {k});
      keys := [k] + rest;
      forall x ensures x in keys <==> x in s {
        if x in s && x != k { assert x in rest; }
      }
    }
  }

  lemma {:induction false} LessAt(a: string, b: string, p: string)
    requires p <= a && p <= b
    ensures Less(a, b) <==> Less(a[|p|..], b[|p|..])
  {
    if p != [] {
      LessAt(a[1..], b[1..], p[1..]);
      assert a[1..][|p| - 1..] == a[|p|..] && b[1..][|p| - 1..] == b[|p|..];
    }
  }

  /** The strings with a common prefix are contiguous in the order. */
  lemma {:induction false} PrefixConvex(a: string, b: string, c: string, p: string)
    requires p <= a && p <= c && Less(a, b) && Less(b, c)
    ensures p <= b
  {
    if p != [] {
      assert b != [] && b[0] == p[0] by {
        assert a[0] == p[0] && c[0] == p[0];
      }
      PrefixConvex(a[1..], b[1..], c[1..], p[1..]);
      assert b == [b[0]] + b[1..] && p == [p[0]] + p[1..];
    }
  }
}
