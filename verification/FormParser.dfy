/**
 URLs and form-urlencoded queries: what the parts of a URL are, what the name/value pairs of a query are
 (section 5.1 of the WHATWG URL Standard, on bytes), and a machine that reads a query once from left to
 right and finds the same pairs.  Bytes are characters below 256.
 */
module FormParser {

  predicate IsHex(c: char) { '0' <= c <= '9' || 'A' <= c <= 'F' || 'a' <= c <= 'f' }

  function HexValue(c: char): (v: nat)
    requires IsHex(c)
    ensures v < 16
  {
    if c <= '9' then c as nat - '0' as nat
    else if c <= 'F' then c as nat - 'A' as nat + 10
    else c as nat - 'a' as nat + 10
  }

  /** The characters a URL may contain besides `?` and `#`. */
  predicate IsSafe(c: char) {
    '0' <= c <= '9' || 'A' <= c <= 'Z' || 'a' <= c <= 'z' || c in "!$%&'()*+,-./:;=@[\\]^_`{|}~"
  }

  // ---- the parts of a URL ----

  predicate Accepted(url: string) {
    url != "" && url[0] == '/' && forall i :: 0 <= i < |url| ==> IsSafe(url[i]) || url[i] in "?#"
  }

  datatype Range = Range(first: nat, second: nat)

  function Part(url: string, r: Range): string
    requires r.first <= r.second <= |url|
  {
    url[r.first..r.second]
  }

  /** Path, search and hash: the hash begins at the first `#`, the search at the first `?` before it. */
  ghost predicate PartsOk(url: string, f: seq<Range>) {
    && |f| == 3
    && f[0].first == 0 && f[0].second == f[1].first && f[1].second == f[2].first && f[2].second == |url|
    && f[0].second <= f[1].second <= f[2].second
    && '?' !in Part(url, f[0]) && '#' !in Part(url, f[0]) && '#' !in Part(url, f[1])
    && (Part(url, f[1]) != "" ==> Part(url, f[1])[0] == '?')
    && (Part(url, f[2]) != "" ==> Part(url, f[2])[0] == '#')
  }

  /** Where the marks are. */
  lemma Marks(url: string, f: seq<Range>)
    requires PartsOk(url, f)
    ensures var p, h := f[0].second, f[1].second;
            && p <= h <= |url| && f == [Range(0, p), Range(p, h), Range(h, |url|)]
            && (forall i :: 0 <= i < p ==> url[i] != '?') && (forall i :: 0 <= i < h ==> url[i] != '#')
            && (p < h ==> url[p] == '?') && (h < |url| ==> url[h] == '#')
  {
    var p, h := f[0].second, f[1].second;
    forall i | 0 <= i < p ensures url[i] != '?' && url[i] != '#' { assert url[i] == Part(url, f[0])[i]; }
    forall i | p <= i < h ensures url[i] != '#' { assert url[i] == Part(url, f[1])[i - p]; }
    assert p < h ==> Part(url, f[1])[0] == url[p];
    assert h < |url| ==> Part(url, f[2])[0] == url[h];
  }

  /** There is only one way to take a URL apart, and the parts make up the URL. */
  lemma PartsUnique(url: string, f: seq<Range>, g: seq<Range>)
    requires PartsOk(url, f) && PartsOk(url, g)
    ensures f == g
    ensures Part(url, f[0]) + Part(url, f[1]) + Part(url, f[2]) == url
  {
    Marks(url, f);
    Marks(url, g);
    var p, h := f[0].second, f[1].second;
    assert h == g[1].second;
    assert p == g[0].second;
    assert url == url[..p] + url[p..h] + url[h..];
  }

  // ---- the pairs of a query ----

  predicate Escape(s: string) {
    |s| >= 3 && s[0] == '%' && IsHex(s[1]) && IsHex(s[2])
  }

  function Byte(hi: char, lo: char): char
    requires IsHex(hi) && IsHex(lo)
  {
    (HexValue(hi) * 16 + HexValue(lo)) as char
  }

  /** `+` is a blank and `%XY` the byte XY. */
  function Decode(s: string): string {
    if s == "" then ""
    else if Escape(s) then [Byte(s[1], s[2])] + Decode(s[3..])
    else [if s[0] == '+' then ' ' else s[0]] + Decode(s[1..])
  }

  /** Where `c` first occurs, or the length. */
  function Find(s: string, c: char): (i: nat)
    ensures i <= |s| && (i < |s| ==> s[i] == c)
    ensures forall k :: 0 <= k < i ==> s[k] != c
  {
    if s == "" || s[0] == c then 0 else 1 + Find(s[1..], c)
  }

  datatype Pair = Pair(name: string, value: string)

  /** A sequence between two `&`: split at the first `=`, both sides decoded. */
  function PairOf(seg: string): Pair {
    var e := Find(seg, '=');
    if e == |seg| then Pair(Decode(seg), "") else Pair(Decode(seg[..e]), Decode(seg[e + 1..]))
  }

  /** The pairs of all non-empty sequences between `&`s. */
  function Pairs(q: string): seq<Pair>
    decreases |q|
  {
    var a := Find(q, '&');
    var here := if a == 0 then [] else [PairOf(q[..a])];
    if a == |q| then here else here + Pairs(q[a + 1..])
  }

  // ---- one pass ----

  datatype Stage = Start | InName | InValue

  /** What a left-to-right reader has of the current sequence: how far it is, name and value so far. */
  datatype Reader = Reader(stage: Stage, name: string, value: string)

  const FRESH: Reader := Reader(Start, "", "")

  function Finished(r: Reader): seq<Pair> {
    if r.stage == Start then [] else [Pair(r.name, r.value)]
  }

  function Push(r: Reader, c: char): Reader {
    if r.stage == InValue then r.(value := r.value + [c]) else Reader(InName, r.name + [c], r.value)
  }

  /** The pairs still to come. */
  function Read(q: string, r: Reader): seq<Pair>
    decreases |q|
  {
    if q == "" then Finished(r)
    else if q[0] == '&' then Finished(r) + Read(q[1..], FRESH)
    else if q[0] == '=' && r.stage != InValue then Read(q[1..], r.(stage := InValue))
    else if Escape(q) then Read(q[3..], Push(r, Byte(q[1], q[2])))
    else Read(q[1..], Push(r, if q[0] == '+' then ' ' else q[0]))
  }

  /** The pair that a reader makes of the rest of its sequence. */
  function Complete(r: Reader, seg: string): Pair {
    if r.stage == InValue then Pair(r.name, r.value + Decode(seg))
    else
      var e := Find(seg, '=');
      if e == |seg| then Pair(r.name + Decode(seg), r.value)
      else Pair(r.name + Decode(seg[..e]), r.value + Decode(seg[e + 1..]))
  }

  /** The pairs behind the `&` at `a`, if there is one. */
  function Behind(q: string, a: nat): seq<Pair>
    requires a <= |q|
  {
    if a == |q| then [] else Pairs(q[a + 1..])
  }

  /** What the reader finds in the rest of a query. */
  function Expected(q: string, r: Reader): seq<Pair> {
    var a := Find(q, '&');
    (if a == 0 then Finished(r) else [Complete(r, q[..a])]) + Behind(q, a)
  }

  /** How many characters one step of decoding takes, and what it makes of them. */
  function Width(s: string): nat { if Escape(s) then 3 else 1 }

  function Decoded(s: string): char
    requires s != ""
  {
    if Escape(s) then Byte(s[1], s[2]) else if s[0] == '+' then ' ' else s[0]
  }

  lemma {:induction false} FindFrom(s: string, c: char, n: nat)
    requires n <= Find(s, c)
    ensures Find(s[n..], c) == Find(s, c) - n
  {
    if n > 0 {
      assert s[1..][n - 1..] == s[n..];
      FindFrom(s[1..], c, n - 1);
    }
  }

  lemma DecodeStep(s: string)
    requires s != ""
    ensures Width(s) <= |s| && Decode(s) == [Decoded(s)] + Decode(s[Width(s)..])
  {
  }

  lemma CompleteValue(r: Reader, seg: string)
    requires seg != "" && r.stage == InValue
    ensures Width(seg) <= |seg| && Complete(r, seg) == Complete(Push(r, Decoded(seg)), seg[Width(seg)..])
  {
    hide Width, Decoded, Find;
    DecodeStep(seg);
    var rest := Decode(seg[Width(seg)..]);
    hide Decode;
    assert r.value + ([Decoded(seg)] + rest) == r.value + [Decoded(seg)] + rest;
  }

  lemma NameWidth(seg: string, e: nat)
    requires seg != "" && seg[0] != '=' && e == Find(seg, '=')
    ensures 0 < Width(seg) <= e && Width(seg[..e]) == Width(seg) && Decoded(seg[..e]) == Decoded(seg)
  {
    hide Find, Byte;
  }

  lemma Slices(s: string, n: nat, e: nat)
    requires n <= e <= |s|
    ensures s[n..][..e - n] == s[..e][n..]
    ensures e < |s| ==> s[n..][e - n + 1..] == s[e + 1..]
    ensures e == |s| ==> s[..e] == s
  {
  }

  /** The first byte of a name is that of the part before the first `=`, and does not move that `=`. */
  lemma NameStep(seg: string)
    requires seg != "" && seg[0] != '='
    ensures var n, e := Width(seg), Find(seg, '=');
            && n <= e && Find(seg[n..], '=') == e - n && seg[n..][..e - n] == seg[..e][n..]
            && Decode(seg[..e]) == [Decoded(seg)] + Decode(seg[..e][n..])
            && (e < |seg| ==> seg[n..][e - n + 1..] == seg[e + 1..])
            && (e == |seg| ==> seg[..e] == seg)
  {
    hide Width, Decoded, Find, Decode;
    var n, e := Width(seg), Find(seg, '=');
    NameWidth(seg, e);
    FindFrom(seg, '=', n);
    DecodeStep(seg[..e]);
    Slices(seg, n, e);
  }

  lemma CompleteName(r: Reader, seg: string)
    requires seg != "" && seg[0] != '=' && r.stage != InValue && r.value == ""
    ensures Width(seg) <= |seg| && Complete(r, seg) == Complete(Push(r, Decoded(seg)), seg[Width(seg)..])
  {
    hide Width, Decoded, Find, Decode;
    NameStep(seg);
    var n, e := Width(seg), Find(seg, '=');
    var rest := Decode(seg[..e][n..]);
    assert e == |seg| ==> seg[n..][..e - n] == seg[n..];
    assert r.name + ([Decoded(seg)] + rest) == r.name + [Decoded(seg)] + rest;
  }

  /** A reader takes a step, and the pair it is working on stays the same. */
  lemma CompleteStep(r: Reader, seg: string)
    requires seg != "" && (seg[0] == '=' ==> r.stage == InValue)
    requires r.stage != InValue ==> r.value == ""
    ensures Width(seg) <= |seg| && Complete(r, seg) == Complete(Push(r, Decoded(seg)), seg[Width(seg)..])
  {
    hide Width, Decoded, Complete, Push;
    if r.stage == InValue {
      CompleteValue(r, seg);
    } else {
      CompleteName(r, seg);
    }
  }

  lemma Done(r: Reader)
    requires r.stage != Start
    ensures Finished(r) == [Complete(r, "")]
  {
    assert r.name + "" == r.name && r.value + "" == r.value;
  }

  /** Reading on from `n` in the same sequence. */
  lemma Onward(q: string, r: Reader, r': Reader, n: nat)
    requires 0 < n <= Find(q, '&') && r'.stage != Start
    requires Complete(r, q[..Find(q, '&')]) == Complete(r', q[..Find(q, '&')][n..])
    ensures n <= |q| && Expected(q, r) == Expected(q[n..], r')
  {
    hide Complete, Behind, Expected, Find, Finished;
    var a := Find(q, '&');
    FindFrom(q, '&', n);
    BehindFrom(q, a, n);
    assert q[n..][..a - n] == q[..a][n..];
    ExpectedIs(q, r, a, q[..a]);
    ExpectedIs(q[n..], r', a - n, q[..a][n..]);
  }

  lemma ExpectedIs(q: string, r: Reader, a: nat, seg: string)
    requires a == Find(q, '&') && seg == q[..a] && (a == 0 ==> r.stage != Start)
    ensures Expected(q, r) == [Complete(r, seg)] + Behind(q, a)
  {
    hide Complete, Behind, Find, Finished;
    if a == 0 { Done(r); }
  }

  lemma BehindFrom(q: string, a: nat, n: nat)
    requires n <= a <= |q|
    ensures Behind(q[n..], a - n) == Behind(q, a)
  {
    if a < |q| { assert q[n..][a - n + 1..] == q[a + 1..]; }
  }

  lemma {:induction false} ReadMeets(q: string, r: Reader)
    requires r.stage == Start ==> r.name == ""
    requires r.stage != InValue ==> r.value == ""
    ensures Read(q, r) == Expected(q, r)
    decreases |q|
  {
    var a := Find(q, '&');
    var seg := q[..a];
    if q != "" {
      if q[0] == '&' {
        ReadMeets(q[1..], FRESH);
        FreshExpects(q[1..]);
      } else if q[0] == '=' && r.stage != InValue {
        var r' := r.(stage := InValue);
        ReadMeets(q[1..], r');
        assert Find(seg, '=') == 0 && seg[..0] == "";
        assert r.name + "" == r.name;
        Onward(q, r, r', 1);
      } else {
        var n, c := Width(q), Decoded(q);
        assert n <= a && Width(seg) == n && Decoded(seg) == c;
        CompleteStep(r, seg);
        Onward(q, r, Push(r, c), n);
        ReadMeets(q[n..], Push(r, c));
      }
    }
  }

  lemma FreshCompletes(seg: string)
    ensures Complete(FRESH, seg) == PairOf(seg)
  {
    var e := Find(seg, '=');
    assert "" + Decode(seg) == Decode(seg) && "" + Decode(seg[..e]) == Decode(seg[..e]);
    if e < |seg| { assert "" + Decode(seg[e + 1..]) == Decode(seg[e + 1..]); }
  }

  lemma FreshExpects(q: string)
    ensures Expected(q, FRESH) == Pairs(q)
  {
    var a := Find(q, '&');
    FreshCompletes(q[..a]);
    hide Complete, PairOf, Find;
    if a == |q| {
      var here := if a == 0 then [] else [PairOf(q[..a])];
      assert here + [] == here;
    }
  }

  /** Reading once from left to right finds exactly the pairs of the specification. */
  lemma ReadFindsPairs(q: string)
    ensures Read(q, FRESH) == Pairs(q)
  {
    ReadMeets(q, FRESH);
    FreshExpects(q);
  }
}
