/**
 `lockseq_model::check`: one pass over the keys of a database, in order, decides whether every group
 has the layout that lock-sequence clients can leave behind.
 */
module LockseqCheck {
  import opened Options
  import opened Strings
  import opened LockseqKeys

  // ---- the documented layout ----

  function LockValue(m: map<string, string>, g: string): string {
    if g + "lock" in m then m[g + "lock"] else ""
  }

  function ValueName(g: string, i: nat): string
    requires i < 1000
  {
    g + ("v" + Pad3(i))
  }

  predicate Has(m: map<string, string>, g: string, i: nat) {
    i < 1000 && ValueName(g, i) in m
  }

  function At(m: map<string, string>, g: string, i: nat): string
    requires Has(m, g, i)
  {
    m[ValueName(g, i)]
  }

  /** Zero or more values with no gaps, all the same. */
  ghost predicate UnlockedLayout(m: map<string, string>, g: string, c: nat) {
    && c <= 1000
    && (forall i: nat :: Has(m, g, i) <==> i < c)
    && forall i, j :: 0 <= i < j < c ==> At(m, g, i) == At(m, g, j)
  }

  predicate LockWord(v: string) { |v| >= 4 && v[0] == 'c' }

  /** The lock, values equal to it up to `a`, none up to `b`, then equal values up to `c`. */
  ghost predicate LockedLayout(m: map<string, string>, g: string, a: nat, b: nat, c: nat) {
    && LockWord(LockValue(m, g))
    && a <= b <= c <= 1000
    && (forall i: nat :: Has(m, g, i) <==> i < a || b <= i < c)
    && (forall i :: 0 <= i < a ==> At(m, g, i) == LockValue(m, g))
    && forall i, j :: b <= i < j < c ==> At(m, g, i) == At(m, g, j)
  }

  ghost predicate GroupOk(m: map<string, string>, g: string) {
    if LockValue(m, g) == "" then exists c :: UnlockedLayout(m, g, c)
    else exists a, b, c :: LockedLayout(m, g, a, b, c)
  }

  /** `k` is the lock or a value of group `g`. */
  ghost predicate KeyOf(k: string, g: string, slot: Slot) {
    IsGroup(g) && g <= k && IsSlot(k[|g|..], slot)
  }

  ghost predicate KeyOk(m: map<string, string>, k: string)
    requires k in m
  {
    exists g, slot :: KeyOf(k, g, slot) && (slot.Value? ==> m[k] != "")
  }

  /** Only keys of groups, and every group well laid out. */
  ghost predicate DbOk(m: map<string, string>) {
    && (forall k :: k in m ==> KeyOk(m, k))
    && (forall g :: IsGroup(g) ==> GroupOk(m, g))
  }

  // ---- the automaton ----

  datatype LockState = Free | LockedStart | LockedRest

  /** What the automaton's state says about the part of group `g` it has seen: the values with index
      below `index`.  `a` and `b` delimit the gap, if any. */
  ghost predicate Partial(m: map<string, string>, g: string, index: nat, expected: string, ls: LockState,
                          a: nat, b: nat)
  {
    && index <= 1000
    && match ls
       case Free =>
         && LockValue(m, g) == "" && (index > 0 <==> expected != "")
         && forall j :: 0 <= j < index ==> Has(m, g, j) && At(m, g, j) == expected
       case LockedStart =>
         && LockWord(LockValue(m, g)) && expected == LockValue(m, g)
         && forall j :: 0 <= j < index ==> Has(m, g, j) && At(m, g, j) == expected
       case LockedRest =>
         && LockWord(LockValue(m, g)) && expected != "" && a <= b < index
         && (forall j :: 0 <= j < a ==> Has(m, g, j) && At(m, g, j) == LockValue(m, g))
         && (forall j :: a <= j < b ==> !Has(m, g, j))
         && (forall j :: b <= j < index ==> Has(m, g, j) && At(m, g, j) == expected)
         && !(Has(m, g, a) && At(m, g, a) == LockValue(m, g))
  }

  /** A group whose remaining values are none is well laid out. */
  lemma Finish(m: map<string, string>, g: string, index: nat, expected: string, ls: LockState, a: nat, b: nat)
    requires Partial(m, g, index, expected, ls, a, b)
    requires forall j :: j >= index ==> !Has(m, g, j)
    ensures GroupOk(m, g)
  {
    match ls
    case Free => assert UnlockedLayout(m, g, index);
    case LockedStart => assert LockedLayout(m, g, index, index, index);
    case LockedRest => assert LockedLayout(m, g, a, b, index);
  }

  /** The next value of the group, in order, is number `j`. */
  ghost predicate NextValue(m: map<string, string>, g: string, index: nat, j: nat) {
    j >= index && Has(m, g, j) && At(m, g, j) != "" && forall i :: index <= i < j ==> !Has(m, g, i)
  }

  /** In a free group, or after the gap, the next value must follow on and equal the one before. */
  lemma Rejected(m: map<string, string>, g: string, index: nat, expected: string, ls: LockState,
                 a: nat, b: nat, j: nat)
    requires Partial(m, g, index, expected, ls, a, b) && NextValue(m, g, index, j)
    requires ls != LockedStart
    requires j != index || (expected != "" && At(m, g, j) != expected)
    ensures !GroupOk(m, g)
  {
    assert Has(m, g, j) && (j != index ==> !Has(m, g, index));
    if ls == Free {
      assert j == index ==> Has(m, g, index - 1);
      forall c ensures !UnlockedLayout(m, g, c) {}
    } else {
      assert Has(m, g, b) && Has(m, g, index - 1) && !(Has(m, g, a) && At(m, g, a) == LockValue(m, g));
      forall a': nat, b': nat, c': nat ensures !LockedLayout(m, g, a', b', c') {}
    }
  }

  /** A value that follows on. */
  lemma Accepted(m: map<string, string>, g: string, index: nat, expected: string, ls: LockState,
                 a: nat, b: nat)
    requires Partial(m, g, index, expected, ls, a, b) && NextValue(m, g, index, index)
    requires expected == "" || At(m, g, index) == expected
    ensures Partial(m, g, index + 1, At(m, g, index), ls, a, b)
  {
  }

  /** The first value after the run equal to the lock. */
  lemma Resumed(m: map<string, string>, g: string, index: nat, expected: string, a: nat, b: nat, j: nat)
    requires Partial(m, g, index, expected, LockedStart, a, b) && NextValue(m, g, index, j)
    requires j != index || At(m, g, j) != expected
    ensures Partial(m, g, j + 1, At(m, g, j), LockedRest, index, j)
  {
  }

  // ---- keys in order ----

  function GroupOf(k: string): string
    requires Slash(k) < |k|
  {
    k[..Slash(k) + 1]
  }

  lemma KeyGroup(k: string, g: string, slot: Slot)
    requires KeyOf(k, g, slot)
    ensures Slash(k) < |k| && g == GroupOf(k)
  {
    hide IsSlot, ParseDigits;
    GroupUnique(g, k);
  }

  /** The last key seen, at `keys[i - 1]`, is the lock of `g` if no value has been seen, and otherwise
      the value before `index`. */
  ghost predicate Last(keys: seq<string>, i: nat, g: string, index: nat)
    requires 0 < i <= |keys|
  {
    if index == 0 then keys[i - 1] == g + "lock"
    else index <= 1000 && keys[i - 1] == ValueName(g, index - 1)
  }

  predicate Sorted(keys: seq<string>) {
    forall i, j :: 0 <= i < j < |keys| ==> Less(keys[i], keys[j])
  }

  lemma AfterLast(keys: seq<string>, i: nat, g: string, index: nat, k: nat, r: string, slot: Slot)
    requires Sorted(keys) && 0 < i <= k < |keys| && Last(keys, i, g, index)
    requires keys[k] == g + r && IsSlot(r, slot)
    ensures slot.Value? && slot.index >= index
  {
    if index == 0 {
      SlotOrder(g, "lock", r, Lock, slot);
    } else {
      SlotOrder(g, "v" + Pad3(index - 1), r, Value(index - 1), slot);
    }
  }

  /** Before the first key of a group there is none of it. */
  lemma FreshGroup(keys: seq<string>, i: nat, g: string, last: string, k: nat)
    requires Sorted(keys) && k < i < |keys| && g <= keys[i]
    requires last <= keys[i - 1] && !(last <= keys[i])
    requires IsGroup(g) && IsGroup(last)
    ensures !(g <= keys[k])
  {
    if g <= keys[k] {
      if k < i - 1 { PrefixConvex(keys[k], keys[i - 1], keys[i], g); }
      GroupUnique(g, keys[i - 1]);
      GroupUnique(last, keys[i - 1]);
    }
  }

  /** After the last key of a group there is none of it. */
  lemma LeftGroup(keys: seq<string>, i: nat, g: string, k: nat)
    requires Sorted(keys) && 0 < i <= k < |keys| && g <= keys[i - 1] && !(g <= keys[i])
    ensures !(g <= keys[k])
  {
    if g <= keys[k] && k > i { PrefixConvex(keys[i - 1], keys[i], keys[k], g); }
  }

  // ---- the pass ----

  /** Is `k` a well-formed key of `m` with a value the layout allows there? */
  lemma KeyJudged(m: map<string, string>, k: string, g: string)
    requires k in m && IsGroup(g) && g <= k
    ensures KeyOk(m, k) <==> k == g + "lock"
                             || (|k| == |g| + 4 && k[|g|] == 'v' && m[k] != ""
                                 && ParseDigits(k, |g| + 1, |g| + 4) != NOT_A_NUMBER)
    ensures |k| == |g| + 4 && k[|g|] == 'v' && ParseDigits(k, |g| + 1, |g| + 4) != NOT_A_NUMBER ==>
              ParseDigits(k, |g| + 1, |g| + 4) < 1000 && k == ValueName(g, ParseDigits(k, |g| + 1, |g| + 4))
  {
    var rest := k[|g|..];
    assert k == g + rest;
    if |k| == |g| + 4 && k[|g|] == 'v' {
      ParseShift(rest, g, [], 1, 4, 0);
      assert g + rest + [] == k;
      var n := ParseDigits(k, |g| + 1, |g| + 4);
      assert n == ParseDigits(rest, 1, 4);
      ThreeDigits(rest, n);
      if n != NOT_A_NUMBER { assert KeyOf(k, g, Value(n)); }
    }
    if k == g + "lock" {
      assert KeyOf(k, g, Lock);
    }
    if KeyOk(m, k) {
      var g', slot :| KeyOf(k, g', slot) && (slot.Value? ==> m[k] != "");
      GroupUnique(g, k);
      GroupUnique(g', k);
      if slot.Value? { ThreeDigits(rest, slot.index); }
    }
  }

  /** Without a group in front a key is none of the layout's. */
  lemma KeyNeedsGroup(m: map<string, string>, k: string)
    requires k in m && KeyOk(m, k)
    ensures |k| >= 3 && k[0] == 'g' && Slash(k) < |k| && IsGroup(GroupOf(k))
  {
    var g, slot :| KeyOf(k, g, slot) && (slot.Value? ==> m[k] != "");
    KeyGroup(k, g, slot);
  }

  lemma HeaderIsGroup(k: string)
    requires |k| >= 3 && k[0] == 'g' && Slash(k) < |k| && ParseDigits(k, 1, Slash(k)) != NOT_A_NUMBER
    ensures IsGroup(GroupOf(k)) && GroupOf(k) <= k
  {
    var g := GroupOf(k);
    SlashSelf(k);
    assert Slash(k) > 1;
    ParseLocal(k, g, 1, Slash(k), 0);
  }

  lemma HeaderFails(k: string)
    requires |k| < 3 || k[0] != 'g' || Slash(k) == |k| || ParseDigits(k, 1, Slash(k)) == NOT_A_NUMBER
    ensures !(Slash(k) < |k| && IsGroup(GroupOf(k)))
  {
    if Slash(k) < |k| && |k| >= 3 && k[0] == 'g' {
      SlashSelf(k);
      if Slash(k) > 1 { ParseLocal(k, GroupOf(k), 1, Slash(k), 0); }
    }
  }

  lemma {:induction false} SlashSelf(k: string)
    requires Slash(k) < |k|
    ensures Slash(GroupOf(k)) == Slash(k)
  {
    if k[0] != '/' {
      SlashSelf(k[1..]);
      assert GroupOf(k)[1..] == GroupOf(k[1..]);
    }
  }

  ghost predicate SeenOk(m: map<string, string>, keys: seq<string>, i: nat, group: string)
    requires i <= |keys|
  {
    forall k :: 0 <= k < i ==>
      && keys[k] in m && KeyOk(m, keys[k])
      && Slash(keys[k]) < |keys[k]| && IsGroup(GroupOf(keys[k]))
      && (GroupOf(keys[k]) == group || GroupOk(m, GroupOf(keys[k])))
  }

  lemma NotThere(m: map<string, string>, keys: seq<string>, g: string)
    requires IsOrderOf(keys, m.Keys) && IsGroup(g)
    requires forall k :: 0 <= k < |keys| ==> Slash(keys[k]) < |keys[k]| && GroupOf(keys[k]) != g
    ensures GroupOk(m, g)
  {
    forall k | k in m ensures !(g <= k) {
      assert k in keys;
      if g <= k { GroupUnique(g, k); }
    }
    assert UnlockedLayout(m, g, 0) && LockValue(m, g) == "";
  }

  /** The whole map has been seen: its layout is right. */
  lemma AllSeen(m: map<string, string>, keys: seq<string>)
    requires IsOrderOf(keys, m.Keys)
    requires SeenOk(m, keys, |keys|, "")
    ensures DbOk(m)
  {
    hide KeyOk, GroupOk, GroupOf, Slash, Less;
    forall k | k in m ensures KeyOk(m, k) { assert k in keys; }
    forall g | IsGroup(g) ensures GroupOk(m, g) {
      if forall k :: 0 <= k < |keys| ==> GroupOf(keys[k]) != g { NotThere(m, keys, g); }
    }
  }

  /** Values not yet seen are numbered `index` or more, and those below the next key's are absent. */
  lemma NextKey(m: map<string, string>, keys: seq<string>, i: nat, g: string, index: nat, j: nat)
    requires IsOrderOf(keys, m.Keys) && i < |keys| && IsGroup(g) && j < 1000
    requires keys[i] == ValueName(g, j) && index <= j
    requires forall k, n: nat :: 0 <= k < i && n < 1000 && keys[k] == ValueName(g, n) ==> n < index
    ensures forall n :: index <= n < j ==> !Has(m, g, n)
  {
    forall n | index <= n < j ensures !Has(m, g, n) {
      if Has(m, g, n) {
        assert ValueName(g, n) in keys;
        var k :| 0 <= k < |keys| && keys[k] == ValueName(g, n);
        SlotOrder(g, "v" + Pad3(n), "v" + Pad3(j), Value(n), Value(j));
        LessIrreflexive(keys[i]);
        if k > i { LessTrans(keys[i], keys[k], keys[i]); }
      }
    }
  }

  /** The first key of a group is a value only if the group has no lock. */
  lemma NoLock(m: map<string, string>, keys: seq<string>, i: nat, g: string, j: nat)
    requires IsOrderOf(keys, m.Keys) && i < |keys| && j < 1000 && keys[i] == ValueName(g, j)
    requires forall k :: 0 <= k < i ==> !(g <= keys[k])
    ensures g + "lock" !in m
  {
    if g + "lock" in m {
      assert g + "lock" in keys;
      var k :| 0 <= k < |keys| && keys[k] == g + "lock";
      assert g <= keys[k];
      SlotOrder(g, "v" + Pad3(j), "lock", Value(j), Lock);
      SlotOrder(g, "lock", "v" + Pad3(j), Lock, Value(j));
    }
  }

  /** All values of a group are among the keys seen once the pass has left the group. */
  lemma NoneLeft(m: map<string, string>, keys: seq<string>, i: nat, g: string, index: nat)
    requires IsOrderOf(keys, m.Keys) && 0 < i <= |keys| && g <= keys[i - 1]
    requires i < |keys| ==> !(g <= keys[i])
    requires forall k, n: nat :: 0 <= k < i && n < 1000 && keys[k] == ValueName(g, n) ==> n < index
    ensures forall j :: j >= index ==> !Has(m, g, j)
  {
    forall j: nat | j >= index ensures !Has(m, g, j) {
      if Has(m, g, j) {
        var k :| 0 <= k < |keys| && keys[k] == ValueName(g, j);
        if k >= i { LeftGroup(keys, i, g, k); }
      }
    }
  }

  /** The values of group `g` among the first `i` keys are those below `index`. */
  ghost predicate ValuesBelow(keys: seq<string>, i: nat, g: string, index: nat)
    requires i <= |keys|
  {
    forall k, n: nat :: 0 <= k < i && n < 1000 && keys[k] == ValueName(g, n) ==> n < index
  }

  lemma OneMoreBelow(keys: seq<string>, i: nat, g: string, index: nat, j: nat)
    requires i < |keys| && ValuesBelow(keys, i, g, index) && index <= j < 1000 && keys[i] == ValueName(g, j)
    ensures ValuesBelow(keys, i + 1, g, j + 1)
  {
    forall k, n: nat | 0 <= k < i + 1 && n < 1000 && keys[k] == ValueName(g, n) ensures n < j + 1 {
      if k == i {
        SlotOrder(g, "v" + Pad3(j), "v" + Pad3(n), Value(j), Value(n));
        LessIrreflexive(keys[i]);
      }
    }
  }

  lemma LockBelow(keys: seq<string>, i: nat, g: string)
    requires i < |keys| && keys[i] == g + "lock"
    requires forall k :: 0 <= k < i ==> !(g <= keys[k])
    ensures ValuesBelow(keys, i + 1, g, 0)
  {
    forall k, n: nat | 0 <= k < i + 1 && n < 1000 ensures keys[k] != ValueName(g, n) {
      if k == i {
        SlotOrder(g, "lock", "v" + Pad3(n), Lock, Value(n));
        LessIrreflexive(keys[i]);
      }
    }
  }

  /** Between two keys. */
  ghost predicate PassInv(m: map<string, string>, keys: seq<string>, i: nat, group: string, index: nat,
                          expected: string, ls: LockState, a: nat, b: nat)
    requires i <= |keys|
  {
    && SeenOk(m, keys, i, group)
    && (group == "" ==> i == 0)
    && (group != "" ==>
          && IsGroup(group) && i > 0 && group <= keys[i - 1] && Last(keys, i, group, index)
          && Partial(m, group, index, expected, ls, a, b)
          && ValuesBelow(keys, i, group, index))
  }

  /** At a key whose group is known: either it opens the group or it continues it. */
  ghost predicate AtKey(m: map<string, string>, keys: seq<string>, i: nat, group: string, index: nat,
                        expected: string, ls: LockState, a: nat, b: nat, opens: bool)
    requires i < |keys|
  {
    && SeenOk(m, keys, i, group)
    && IsGroup(group) && group <= keys[i]
    && (opens ==> index == 0 && expected == "" && ls == Free && forall k :: 0 <= k < i ==> !(group <= keys[k]))
    && (!opens ==> PassInv(m, keys, i, group, index, expected, ls, a, b))
  }

  lemma Open(m: map<string, string>, keys: seq<string>, i: nat, last: string, index: nat,
             expected: string, ls: LockState, a: nat, b: nat)
    requires IsOrderOf(keys, m.Keys) && i < |keys| && PassInv(m, keys, i, last, index, expected, ls, a, b)
    requires last == "" || !(last <= keys[i])
    requires var k := keys[i];
             |k| >= 3 && k[0] == 'g' && Slash(k) < |k| && ParseDigits(k, 1, Slash(k)) != NOT_A_NUMBER
    ensures AtKey(m, keys, i, GroupOf(keys[i]), 0, "", Free, a, b, true)
  {
    var group := GroupOf(keys[i]);
    HeaderIsGroup(keys[i]);
    if last != "" {
      NoneLeft(m, keys, i, last, index);
      Finish(m, last, index, expected, ls, a, b);
      forall k | 0 <= k < i ensures !(group <= keys[k]) { FreshGroup(keys, i, group, last, k); }
    }
  }

  lemma SeeKey(m: map<string, string>, keys: seq<string>, i: nat, group: string)
    requires i < |keys| && SeenOk(m, keys, i, group) && IsGroup(group) && group <= keys[i]
    requires keys[i] in m && KeyOk(m, keys[i])
    ensures SeenOk(m, keys, i + 1, group)
  {
    GroupUnique(group, keys[i]);
  }

  lemma AtLock(m: map<string, string>, keys: seq<string>, i: nat, group: string, index: nat,
               expected: string, ls: LockState, a: nat, b: nat, opens: bool)
    requires IsOrderOf(keys, m.Keys) && i < |keys| && AtKey(m, keys, i, group, index, expected, ls, a, b, opens)
    requires keys[i] == group + "lock"
    ensures opens
    ensures LockValue(m, group) == "" ==> PassInv(m, keys, i + 1, group, 0, "", Free, a, b)
    ensures LockWord(LockValue(m, group)) ==>
              PassInv(m, keys, i + 1, group, 0, LockValue(m, group), LockedStart, a, b)
    ensures LockValue(m, group) != "" && !LockWord(LockValue(m, group)) ==> !DbOk(m)
  {
    assert keys[i] in m;
    if !opens { AfterLast(keys, i, group, index, i, "lock", Lock); }
    assert KeyOf(keys[i], group, Lock);
    SeeKey(m, keys, i, group);
    LockBelow(keys, i, group);
    if LockValue(m, group) != "" && !LockWord(LockValue(m, group)) {
      assert !GroupOk(m, group);
    }
  }

  lemma AtValue(m: map<string, string>, keys: seq<string>, i: nat, group: string, index: nat,
                expected: string, ls: LockState, a: nat, b: nat, opens: bool, j: nat)
    requires IsOrderOf(keys, m.Keys) && i < |keys| && AtKey(m, keys, i, group, index, expected, ls, a, b, opens)
    requires j < 1000 && keys[i] == ValueName(group, j) && keys[i] in m && m[keys[i]] != ""
    ensures Partial(m, group, index, expected, ls, a, b) && NextValue(m, group, index, j)
    ensures At(m, group, j) == m[keys[i]]
    ensures SeenOk(m, keys, i + 1, group) && ValuesBelow(keys, i + 1, group, j + 1)
  {
    hide Less, ParseDigits, Slash, SeenOk, Pad3, Last;
    var rest := "v" + Pad3(j);
    assert keys[i][|group|..] == rest && KeyOf(keys[i], group, Value(j));
    SeeKey(m, keys, i, group);
    if opens {
      NoLock(m, keys, i, group, j);
      forall k, n: nat | 0 <= k < i && n < 1000 ensures keys[k] != ValueName(group, n) {
        assert group <= ValueName(group, n);
      }
    } else {
      AfterLast(keys, i, group, index, i, rest, Value(j));
    }
    NextKey(m, keys, i, group, index, j);
    OneMoreBelow(keys, i, group, index, j);
  }

  lemma BadHeader(m: map<string, string>, k: string)
    requires k in m
    requires |k| < 3 || k[0] != 'g' || Slash(k) == |k| || ParseDigits(k, 1, Slash(k)) == NOT_A_NUMBER
    ensures !DbOk(m)
  {
    HeaderFails(k);
    if KeyOk(m, k) { KeyNeedsGroup(m, k); }
  }

  /** The variables of the pass that survive from key to key. */
  datatype Pass = Pass(group: string, index: nat, expected: string, ls: LockState)

  const START: Pass := Pass("", 0, "", Free)

  function StepGroup(p: Pass, key: string): Option<Pass> {
    if p.group != "" && p.group <= key then Some(p)
    else if |key| < 3 || key[0] != 'g' || Slash(key) == |key| || ParseDigits(key, 1, Slash(key)) == NOT_A_NUMBER then None
    else Some(Pass(key[..Slash(key) + 1], 0, "", Free))
  }

  predicate NamesLock(p: Pass, key: string) {
    |key| == |p.group| + 4 && p.group <= key && key[|p.group|..] == "lock"
  }

  function StepLock(p: Pass, value: string): Option<Pass> {
    if p.index != 0 || p.ls != Free then None
    else if value == "" then Some(p)
    else if |value| < 4 || value[0] != 'c' then None
    else Some(p.(ls := LockedStart, expected := value))
  }

  function StepValue(p: Pass, vindex: nat, value: string): Option<Pass> {
    if vindex != p.index && (p.ls != LockedStart || vindex < p.index) then None
    else
      var q := if vindex != p.index then p.(ls := LockedRest, index := vindex, expected := "") else p;
      if q.expected != "" && value != q.expected && q.ls != LockedStart then None
      else
        var ls := if q.expected != "" && value != q.expected then LockedRest else q.ls;
        Some(Pass(q.group, q.index + 1, value, ls))
  }

  /** A value key of the group, with a value. */
  predicate Formed(p: Pass, key: string, value: string) {
    && |key| == |p.group| + 4 && key[|p.group|] == 'v' && value != ""
    && ParseDigits(key, |p.group| + 1, |p.group| + 4) != NOT_A_NUMBER
  }

  function StepOf(p: Pass, key: string, value: string): Option<Pass> {
    if !Formed(p, key, value) then None
    else StepValue(p, ParseDigits(key, |p.group| + 1, |p.group| + 4), value)
  }

  /** What the pass does at one key; None if it reports the key. */
  function StepKey(p: Pass, key: string, value: string): Option<Pass> {
    match StepGroup(p, key)
    case None => None
    case Some(q) =>
      if NamesLock(q, key) then StepLock(q, value) else StepOf(q, key, value)
  }

  /** The key the pass reports when it goes on from key `i`. */
  function PassFrom(keys: seq<string>, m: map<string, string>, i: nat, p: Pass): Option<string>
    requires i <= |keys| && forall k :: k in keys ==> k in m
    decreases |keys| - i
  {
    if i == |keys| then None
    else match StepKey(p, keys[i], m[keys[i]])
      case None => Some(keys[i])
      case Some(q) => PassFrom(keys, m, i + 1, q)
  }

  /** The checks of index and value for a value of the current group. */
  method CheckValue(ghost p: Pass, index: nat, expected: string, ls: LockState, vindex: nat, value: string)
    returns (ok: bool, index': nat, expected': string, ls': LockState)
    requires p == Pass(p.group, index, expected, ls)
    ensures StepValue(p, vindex, value) == if ok then Some(Pass(p.group, index', expected', ls')) else None
  {
    index', expected', ls', ok := index, expected, ls, false;
    if vindex != index {
      if ls == Free || ls == LockedRest || vindex < index {
        return;
      }
      ls', index', expected' := LockedRest, vindex, "";
    }
    if expected' != "" && value != expected' {
      if ls' != LockedStart {
        return;
      }
      ls', expected' := LockedRest, value;
    }
    expected', index', ok := value, index' + 1, true;
  }

  method Check(keys: seq<string>, m: map<string, string>) returns (r: Option<string>)
    requires IsOrderOf(keys, m.Keys)
    ensures r == None <==> DbOk(m)
    ensures r.Some? ==> r.value in m
  {
    hide DbOk, ParseDigits, Slash, StepValue;
    var group, expected, index, lockState := "", "", 0, Free;
    for i := 0 to |keys|
      invariant PassFrom(keys, m, 0, START) == PassFrom(keys, m, i, Pass(group, index, expected, lockState))
    {
      var key, value := keys[i], m[keys[i]];
      ghost var p := Pass(group, index, expected, lockState);

      // new group?
      if group == "" || !(group <= key) {
        if |key| < 3 || key[0] != 'g' {
          return Reported(keys, m, key);
        }
        var slash := Slash(key);
        if slash == |key| || ParseDigits(key, 1, slash) == NOT_A_NUMBER {
          return Reported(keys, m, key);
        }
        group := key[..slash + 1];
        expected, index, lockState := "", 0, Free;
      }

      ghost var q := Pass(group, index, expected, lockState);
      assert StepGroup(p, key) == Some(q);

      // the lock
      if |key| == |group| + 4 && key[|group|..] == "lock" {
        assert NamesLock(q, key);
        if index != 0 || lockState != Free {
          return Reported(keys, m, key);
        }
        if value == "" {
          continue;
        }
        if |value| < 4 || value[0] != 'c' {
          return Reported(keys, m, key);
        }
        lockState, expected := LockedStart, value;
        assert StepKey(p, key, value) == Some(Pass(group, index, expected, lockState));
        continue;
      }

      // otherwise a value
      assert !NamesLock(q, key);
      if |key| != |group| + 4 || key[|group|] != 'v' || value == "" {
        return Reported(keys, m, key);
      }
      var vindex := ParseDigits(key, |group| + 1, |group| + 4);
      if vindex == NOT_A_NUMBER {
        return Reported(keys, m, key);
      }
      assert StepKey(p, key, value) == StepValue(q, vindex, value);
      var ok;
      ok, index, expected, lockState := CheckValue(q, index, expected, lockState, vindex, value);
      if !ok {
        return Reported(keys, m, key);
      }
    }
    StartJudges(keys, m);
    return None;
  }

  /** The key at which the pass stops. */
  function Reported(keys: seq<string>, m: map<string, string>, key: string): (r: Option<string>)
    requires IsOrderOf(keys, m.Keys) && key in m && PassFrom(keys, m, 0, START) == Some(key)
    ensures r == Some(key) && !DbOk(m)
  {
    StartJudges(keys, m);
    Some(key)
  }

  // ---- the pass decides the layout ----

  lemma StepGroupOk(m: map<string, string>, keys: seq<string>, i: nat, p: Pass, a: nat, b: nat)
    requires IsOrderOf(keys, m.Keys) && i < |keys| && PassInv(m, keys, i, p.group, p.index, p.expected, p.ls, a, b)
    ensures match StepGroup(p, keys[i])
            case None => !DbOk(m)
            case Some(q) => AtKey(m, keys, i, q.group, q.index, q.expected, q.ls, a, b, !(p.group != "" && p.group <= keys[i]))
  {
    assert keys[i] in m;
    if !(p.group != "" && p.group <= keys[i]) {
      if StepGroup(p, keys[i]) == None {
        BadHeader(m, keys[i]);
      } else {
        Open(m, keys, i, p.group, p.index, p.expected, p.ls, a, b);
      }
    }
  }

  /** The index and value checks for one value of the current group. */
  lemma StepValueOk(m: map<string, string>, p: Pass, a: nat, b: nat, j: nat) returns (a': nat, b': nat)
    requires Partial(m, p.group, p.index, p.expected, p.ls, a, b) && NextValue(m, p.group, p.index, j)
    ensures match StepValue(p, j, At(m, p.group, j))
            case None => !GroupOk(m, p.group)
            case Some(q) => q.group == p.group && q.index == j + 1 && Partial(m, q.group, q.index, q.expected, q.ls, a', b')
  {
    a', b' := a, b;
    match StepValue(p, j, At(m, p.group, j))
    case None =>
      Rejected(m, p.group, p.index, p.expected, p.ls, a, b, j);
    case Some(q) =>
      if p.ls == LockedStart && q.ls == LockedRest {
        Resumed(m, p.group, p.index, p.expected, a, b, j);
        a', b' := p.index, j;
      } else {
        Accepted(m, p.group, p.index, p.expected, p.ls, a, b);
      }
  }

  lemma BadKey(m: map<string, string>, k: string)
    requires k in m && !KeyOk(m, k)
    ensures !DbOk(m)
  {
  }

  lemma BadGroup(m: map<string, string>, g: string)
    requires IsGroup(g) && !GroupOk(m, g)
    ensures !DbOk(m)
  {
  }

  lemma Stored(m: map<string, string>, keys: seq<string>, i: nat, g: string, j: nat, expected: string,
               ls: LockState, a: nat, b: nat)
    requires i < |keys| && IsGroup(g) && j < 1000 && keys[i] == ValueName(g, j)
    requires SeenOk(m, keys, i + 1, g) && ValuesBelow(keys, i + 1, g, j + 1)
    requires Partial(m, g, j + 1, expected, ls, a, b)
    ensures PassInv(m, keys, i + 1, g, j + 1, expected, ls, a, b)
  {
    assert g <= keys[i];
  }

  lemma StepOther(m: map<string, string>, keys: seq<string>, i: nat, q: Pass, a: nat, b: nat, opens: bool)
    returns (a': nat, b': nat)
    requires IsOrderOf(keys, m.Keys) && i < |keys| && AtKey(m, keys, i, q.group, q.index, q.expected, q.ls, a, b, opens)
    requires keys[i] in m && !NamesLock(q, keys[i])
    ensures match StepOf(q, keys[i], m[keys[i]])
            case None => !DbOk(m)
            case Some(r) => PassInv(m, keys, i + 1, r.group, r.index, r.expected, r.ls, a', b')
  {
    hide DbOk, PassInv, Partial, NextValue, IsGroup, ParseDigits, Slash, KeyOk, GroupOk;
    var key := keys[i];
    a', b' := a, b;
    KeyJudged(m, key, q.group);
    assert key == q.group + "lock" ==> NamesLock(q, key);
    if Formed(q, key, m[key]) {
      var j := ParseDigits(key, |q.group| + 1, |q.group| + 4);
      AtValue(m, keys, i, q.group, q.index, q.expected, q.ls, a, b, opens, j);
      a', b' := StepValueOk(m, q, a, b, j);
      match StepValue(q, j, m[key])
      case None => BadGroup(m, q.group);
      case Some(r) => Stored(m, keys, i, r.group, j, r.expected, r.ls, a', b');
    } else {
      BadKey(m, key);
    }
  }

  lemma StepKeyOk(m: map<string, string>, keys: seq<string>, i: nat, p: Pass, a: nat, b: nat) returns (a': nat, b': nat)
    requires IsOrderOf(keys, m.Keys) && i < |keys| && PassInv(m, keys, i, p.group, p.index, p.expected, p.ls, a, b)
    requires keys[i] in m
    ensures match StepKey(p, keys[i], m[keys[i]])
            case None => !DbOk(m)
            case Some(q) => PassInv(m, keys, i + 1, q.group, q.index, q.expected, q.ls, a', b')
  {
    hide DbOk, PassInv, AtKey, IsGroup, ParseDigits, Slash, StepValue, Formed;
    var key := keys[i];
    a', b' := a, b;
    StepGroupOk(m, keys, i, p, a, b);
    match StepGroup(p, key)
    case None =>
    case Some(q) =>
      var opens := !(p.group != "" && p.group <= key);
      if NamesLock(q, key) {
        assert key == q.group + "lock";
        AtLock(m, keys, i, q.group, q.index, q.expected, q.ls, a, b, opens);
        LockIsFirst(m, keys, i, q, a, b, opens);
      } else {
        a', b' := StepOther(m, keys, i, q, a, b, opens);
      }
  }

  lemma LockIsFirst(m: map<string, string>, keys: seq<string>, i: nat, q: Pass, a: nat, b: nat, opens: bool)
    requires i < |keys| && AtKey(m, keys, i, q.group, q.index, q.expected, q.ls, a, b, opens) && opens
    ensures q.index == 0 && q.ls == Free && q.expected == ""
  {
  }

  /** The pass reports a key exactly when the layout is wrong. */
  lemma {:induction false} PassJudges(keys: seq<string>, m: map<string, string>, i: nat, p: Pass, a: nat, b: nat)
    requires IsOrderOf(keys, m.Keys) && i <= |keys| && PassInv(m, keys, i, p.group, p.index, p.expected, p.ls, a, b)
    ensures PassFrom(keys, m, i, p) == None <==> DbOk(m)
    decreases |keys| - i
  {
    hide DbOk, PassInv;
    if i == |keys| {
      Finished(m, keys, p.group, p.index, p.expected, p.ls, a, b);
    } else {
      assert keys[i] in keys;
      var a', b' := StepKeyOk(m, keys, i, p, a, b);
      match StepKey(p, keys[i], m[keys[i]])
      case None =>
      case Some(q) => PassJudges(keys, m, i + 1, q, a', b');
    }
  }

  lemma StartJudges(keys: seq<string>, m: map<string, string>)
    requires IsOrderOf(keys, m.Keys)
    ensures PassFrom(keys, m, 0, START) == None <==> DbOk(m)
  {
    hide DbOk;
    PassJudges(keys, m, 0, START, 0, 0);
  }

  lemma Finished(m: map<string, string>, keys: seq<string>, group: string, index: nat, expected: string,
                 ls: LockState, a: nat, b: nat)
    requires IsOrderOf(keys, m.Keys) && PassInv(m, keys, |keys|, group, index, expected, ls, a, b)
    ensures DbOk(m)
  {
    if group != "" {
      NoneLeft(m, keys, |keys|, group, index);
      Finish(m, group, index, expected, ls, a, b);
    }
    AllSeen(m, keys);
  }
}
