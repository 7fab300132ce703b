/**
 What `make_info` derives from the URL of a message: the ranges of its parts, and the parameters as
 offsets into a text that is decoded only where it has to be.
 */
module HttpMessage {
  import opened FormParser

  datatype Offsets = Offsets(nstart: nat, nend: nat, vstart: nat, vend: nat)

  predicate Inside(o: Offsets, n: nat) {
    o.nstart <= o.nend <= n && o.vstart <= o.vend <= n
  }

  predicate AllInside(os: seq<Offsets>, n: nat) {
    forall i :: 0 <= i < |os| ==> Inside(os[i], n)
  }

  /** The pairs that offsets stand for. */
  function Resolve(os: seq<Offsets>, text: string): (r: seq<Pair>)
    requires AllInside(os, |text|)
    ensures |r| == |os|
  {
    seq(|os|, i requires 0 <= i < |os| =>
      Pair(text[os[i].nstart..os[i].nend], text[os[i].vstart..os[i].vend]))
  }

  lemma ResolveGrows(os: seq<Offsets>, text: string, more: string)
    requires AllInside(os, |text|)
    ensures Resolve(os, text + more) == Resolve(os, text)
  {
    forall i | 0 <= i < |os|
      ensures (text + more)[os[i].nstart..os[i].nend] == text[os[i].nstart..os[i].nend]
      ensures (text + more)[os[i].vstart..os[i].vend] == text[os[i].vstart..os[i].vend]
    {}
  }

  lemma ResolveAppend(os: seq<Offsets>, o: Offsets, text: string)
    requires AllInside(os, |text|) && Inside(o, |text|)
    ensures Resolve(os + [o], text) == Resolve(os, text) + [Pair(text[o.nstart..o.nend], text[o.vstart..o.vend])]
  {
  }

  /** The loop's offsets describe what a reader would have, when `text` has been read. */
  ghost predicate Tracks(r: Reader, text: string, nstart: nat, nend: nat, vstart: nat) {
    match r.stage
    case Start => nstart == |text| && r == FRESH
    case InName => nstart <= |text| && r == Reader(InName, text[nstart..], "")
    case InValue =>
      nstart <= nend <= |text| && vstart <= |text| && r == Reader(InValue, text[nstart..nend], text[vstart..])
  }

  lemma TracksPush(r: Reader, text: string, nstart: nat, nend: nat, vstart: nat, c: char)
    requires Tracks(r, text, nstart, nend, vstart)
    ensures Tracks(Push(r, c), text + [c], nstart, nend, vstart)
  {
    var t := text + [c];
    match r.stage
    case Start => assert t[nstart..] == [c] && r.name + [c] == [c];
    case InName => assert t[nstart..] == text[nstart..] + [c];
    case InValue => assert t[nstart..nend] == text[nstart..nend] && t[vstart..] == text[vstart..] + [c];
  }

  /** A `=` that ends the name. */
  lemma TracksEquals(r: Reader, text: string, nstart: nat, nend: nat, vstart: nat)
    requires Tracks(r, text, nstart, nend, vstart) && r.stage != InValue
    ensures Tracks(r.(stage := InValue), text + "=", nstart, |text|, |text| + 1)
  {
    var t := text + "=";
    assert t[nstart..|text|] == text[nstart..] && t[|text| + 1..] == "";
  }

  /** The offsets pushed at the end of a sequence. */
  lemma TracksEnd(r: Reader, text: string, nstart: nat, nend: nat, vstart: nat)
    requires Tracks(r, text, nstart, nend, vstart) && r.stage != Start
    ensures var (e, v) := if r.stage == InName then (|text|, |text|) else (nend, vstart);
            && Inside(Offsets(nstart, e, v, |text|), |text|)
            && Finished(r) == [Pair(text[nstart..e], text[v..|text|])]
  {
    assert text[|text|..|text|] == "" && text[nstart..|text|] == text[nstart..];
    if r.stage == InValue { assert text[vstart..|text|] == text[vstart..]; }
  }

  datatype Info = UrlInfo | ParamsInfo

  const NONE: Range := Range(0, 0)

  class Message {
    var url: string
    var flags: set<Info>
    const f: array<Range>
    var qurl: string
    var qpairs: seq<Offsets>

    ghost predicate UrlReady()
      reads this, f
    {
      if Accepted(url) then PartsOk(url, f[..]) else f[..] == [NONE, NONE, NONE]
    }

    /** The query: what follows the `?` in an accepted URL. */
    ghost predicate ParamsAre(ps: seq<Pair>)
      reads this
    {
      exists parts :: (if Accepted(url) then PartsOk(url, parts) else parts == [NONE, NONE, NONE])
        && ps == if Part(url, parts[1]) == "" then [] else Pairs(Part(url, parts[1])[1..])
    }

    ghost predicate Valid()
      reads this, f
    {
      && f.Length == 3
      && (UrlInfo in flags ==> UrlReady())
      && (ParamsInfo in flags ==> AllInside(qpairs, |qurl|) && ParamsAre(Resolve(qpairs, qurl)))
    }

    constructor ()
      ensures Valid() && fresh(f) && url == "" && flags == {}
    {
      url, flags, qurl, qpairs := "", {}, "", [];
      f := new Range[3](_ => NONE);
    }

    /** A new URL: nothing known about the old one counts any more. */
    method SetUrl(u: string)
      requires Valid()
      modifies this
      ensures Valid() && url == u && UrlInfo !in flags && ParamsInfo !in flags
    {
      url := u;
      flags := flags - {UrlInfo, ParamsInfo};
    }

    /** The character at a position, or the terminator behind the last. */
    function Peek(i: nat): char
      reads this
    {
      if i < |url| then url[i] else 0 as char
    }

    /** Ranges from `fpos` up to `limit` end at `s`; each begins where the one before ends. */
    method Fill(fpos: nat, limit: nat, s: nat)
      requires f.Length == 3 && fpos <= limit <= 3
      modifies f
      ensures f[..] == Filled(old(f[..]), fpos, limit, s)
    {
      ghost var was := f[..];
      var i := fpos;
      while i < limit
        invariant fpos <= i <= limit
        invariant f[..] == Filled(was, fpos, i, s)
      {
        f[i] := Range(if i == 0 then 0 else f[i - 1].second, s);
        i := i + 1;
      }
    }

    /** The first half of `make_info`. */
    method SplitUrl()
      requires f.Length == 3
      modifies f
      ensures UrlReady()
    {
      hide Accepted, PartsOk, IsSafe, Filled, Splitting;
      var n, s, fpos := |url|, 0, 0;
      var failed := url == "" || url[0] != '/';
      if failed {
        n := 0;
        Refused(url, 0);
      } else {
        SplitStart(url, f[..]);
      }
      while s != n
        invariant s <= n <= |url| && fpos <= 2
        invariant if failed then n == s == fpos == 0 && !Accepted(url)
                  else n == |url| && Splitting(url, f[..], s, fpos)
        decreases n - s
      {
        if IsSafe(url[s]) {
          SplitSafe(url, f[..], s, fpos);
          s := s + 1;
        } else if url[s] == '?' {
          SplitMark(url, f[..], s, fpos);
          if fpos == 0 {
            Fill(0, 1, s);
            fpos := 1;
          }
          s := s + 1;
        } else if url[s] == '#' {
          SplitHash(url, f[..], s, fpos);
          Fill(fpos, 2, s);
          fpos := 2;
          s := s + 1;
        } else {
          Refused(url, s);
          failed := true;
          fpos, s, n := 0, 0, 0;
        }
      }
      if failed {
        FillAll(f[..]);
      } else {
        SplitDone(url, f[..], fpos);
      }
      Fill(fpos, 3, s);
    }

    /** Two characters ahead of a `%` may be the end of the query; but what stands there, a `#` or the
        terminator, is not a digit. */
    lemma GuardIsEscape(s: nat, s2: nat)
      requires s < s2 <= |url| && (s2 < |url| ==> url[s2] == '#')
      ensures Escape(url[s..s2]) <==> url[s] == '%' && s2 - s >= 2 && IsHex(Peek(s + 1)) && IsHex(Peek(s + 2))
      ensures Escape(url[s..s2]) ==> s2 - s >= 3 && url[s..s2][1] == Peek(s + 1) && url[s..s2][2] == Peek(s + 2)
    {
    }

    /** One byte of a name or value is decoded.  What is between `last` and `s` is not in `qurl` yet. */
    method TakeByte(s: nat, s2: nat, last: nat) returns (s': nat, last': nat)
      requires last <= s < s2 <= |url| && (s2 < |url| ==> url[s2] == '#')
      modifies this`qurl
      ensures last <= last' <= s' == s + Width(url[s..s2]) <= s2 && s < s'
      ensures qurl + url[last'..s'] == old(qurl) + url[last..s] + [Decoded(url[s..s2])]
    {
      hide IsHex, HexValue, Escape;
      s', last' := s, last;
      GuardIsEscape(s, s2);
      if url[s] == '%' && s2 - s >= 2 && IsHex(Peek(s + 1)) && IsHex(Peek(s + 2)) {
        qurl := qurl + url[last..s] + [Byte(Peek(s + 1), Peek(s + 2))];
        s' := s + 3;
        last' := s';
      } else if url[s] == '+' {
        qurl := qurl + url[last..s] + " ";
        s' := s + 1;
        last' := s';
      } else {
        s' := s + 1;
        assert url[last..s'] == url[last..s] + [url[s]];
      }
      assert last' == s' ==> url[last'..s'] == "";
    }

    /** The loop of `make_info` over the query from `s1` to `s2`. */
    method ParseParams(s1: nat, s2: nat)
      requires s1 <= s2 <= |url| && (s2 < |url| ==> url[s2] == '#')
      modifies this`qurl, this`qpairs
      ensures AllInside(qpairs, |qurl|) && Resolve(qpairs, qurl) == Pairs(url[s1..s2])
    {
      hide Parsing, Pairs, IsHex, HexValue, Escape, Push, AllInside, Read, Decoded, Width;
      qurl, qpairs := "", [];
      var state, s, last := Start, s1, s1;
      var nstart: nat, nend: nat, vstart: nat, vend: nat := 0, 0, 0, 0;
      ghost var l := Loop("", [], FRESH, 0, 0, 0);
      ParseStart(url[s1..s2]);
      while s != s2
        invariant s1 <= last <= s <= s2
        invariant l == Loop(qurl + url[last..s], qpairs, l.r, nstart, nend, vstart)
        invariant Parsing(l, url[s..s2], url[s1..s2]) && state == l.r.stage
        decreases s2 - s
      {
        ghost var rest := url[s..s2];
        assert rest[0] == url[s] && rest[1..] == url[s + 1..s2];
        assert qurl + url[last..s + 1] == l.text + [url[s]];
        if url[s] == '&' {
          l := ParseAmp(l, rest, url[s1..s2]);
          if state != Start {
            vend := |qurl| + s - last;
            if state == InName {
              nend, vstart := vend, vend;
            }
            qpairs := qpairs + [Offsets(nstart, nend, vstart, vend)];
            state := Start;
          }
          s := s + 1;
          nstart := |qurl| + s - last;
          nend := nstart;
        } else if url[s] == '=' && state != InValue {
          l := ParseEquals(l, rest, url[s1..s2]);
          nend := |qurl| + s - last;
          vstart := nend + 1;
          state := InValue;
          s := s + 1;
        } else {
          l := ParsePush(l, rest, url[s1..s2]);
          if state == Start {
            state := InName;
          }
          s, last := TakeByte(s, s2, last);
          assert rest[Width(rest)..] == url[s..s2];
        }
      }
      if last != s {
        qurl := qurl + url[last..s];
      } else {
        assert qurl + url[last..s] == qurl;
      }
      assert url[s..s2] == "";
      l := ParseEnd(l, url[s1..s2]);
      if state != Start {
        vend := |qurl|;
        if state == InName {
          nend, vstart := vend, vend;
        }
        qpairs := qpairs + [Offsets(nstart, nend, vstart, vend)];
      }
    }

    /** Computes what is asked for and not known yet. */
    method MakeInfo(fl: set<Info>)
      requires Valid()
      modifies this`flags, this`qurl, this`qpairs, f
      ensures Valid() && url == old(url)
      ensures fl != {} ==> UrlReady()
      ensures ParamsInfo in fl ==> ParamsInfo in flags
    {
      hide PartsOk, Pairs, Resolve, Accepted, AllInside;
      if UrlInfo !in flags && fl != {} {
        SplitUrl();
      }
      if ParamsInfo !in flags && ParamsInfo in fl {
        FindParams();
      }
    }

    /** The second half of `make_info`. */
    method FindParams()
      requires f.Length == 3 && UrlReady()
      modifies this`flags, this`qurl, this`qpairs
      ensures flags == old(flags) + {ParamsInfo}
      ensures AllInside(qpairs, |qurl|) && ParamsAre(Resolve(qpairs, qurl))
    {
      hide PartsOk, Pairs, Resolve, Accepted;
      qurl, qpairs := "", [];
      ghost var parts := f[..];
      PartsInside();
      if f[1].first != f[1].second {
        SearchBounds();
        ParseParams(f[1].first + 1, f[1].second);
        assert url[f[1].first + 1..f[1].second] == Part(url, parts[1])[1..];
      } else {
        assert Part(url, parts[1]) == "";
        assert Resolve([], "") == [] by { NothingResolves(); }
      }
      flags := flags + {ParamsInfo};
    }

    lemma PartsInside()
      requires f.Length == 3 && UrlReady()
      ensures f[..][1] == f[1] && f[1].first <= f[1].second <= |url|
    {
    }

    lemma SearchBounds()
      requires f.Length == 3 && UrlReady() && f[1].first != f[1].second
      ensures f[1].first < f[1].second <= |url| && (f[1].second < |url| ==> url[f[1].second] == '#')
    {
      assert f[..][1] == f[1] && f[..][2] == f[2];
      if f[1].second < |url| { assert Part(url, f[..][2])[0] == url[f[1].second]; }
    }

    /** The parameters of the message are those of the specification, whatever the URL. */
    method SearchParams() returns (ps: seq<Pair>)
      requires Valid()
      modifies this`flags, this`qurl, this`qpairs, f
      ensures Valid() && url == old(url) && ParamsAre(ps)
    {
      if ParamsInfo !in flags {
        MakeInfo({ParamsInfo});
      }
      ps := Resolve(qpairs, qurl);
    }
  }

  lemma NothingResolves()
    ensures Resolve([], "") == []
  {
  }

  /** What the loop has at one moment: the decoded text so far, not all of it in `qurl` yet. */
  datatype Loop = Loop(text: string, pairs: seq<Offsets>, r: Reader, nstart: nat, nend: nat, vstart: nat)

  /** The pairs found and those a reader would still find are those of the query. */
  ghost predicate Parsing(l: Loop, rest: string, q: string) {
    && AllInside(l.pairs, |l.text|)
    && Tracks(l.r, l.text, l.nstart, l.nend, l.vstart)
    && Resolve(l.pairs, l.text) + Read(rest, l.r) == Pairs(q)
  }

  lemma ParseStart(q: string)
    ensures Parsing(Loop("", [], FRESH, 0, 0, 0), q, q)
  {
    ReadFindsPairs(q);
    assert Resolve([], "") + Read(q, FRESH) == Read(q, FRESH);
  }

  /** The offsets after a sequence has ended. */
  ghost function Ended(l: Loop): Loop {
    match l.r.stage
    case Start => l
    case InName => l.(pairs := l.pairs + [Offsets(l.nstart, |l.text|, |l.text|, |l.text|)], nend := |l.text|, vstart := |l.text|)
    case InValue => l.(pairs := l.pairs + [Offsets(l.nstart, l.nend, l.vstart, |l.text|)])
  }

  lemma EndedResolves(l: Loop)
    requires AllInside(l.pairs, |l.text|) && Tracks(l.r, l.text, l.nstart, l.nend, l.vstart)
    ensures AllInside(Ended(l).pairs, |l.text|)
    ensures Resolve(Ended(l).pairs, l.text) == Resolve(l.pairs, l.text) + Finished(l.r)
  {
    if l.r.stage == Start {
      assert Resolve(l.pairs, l.text) + [] == Resolve(l.pairs, l.text);
    } else {
      TracksEnd(l.r, l.text, l.nstart, l.nend, l.vstart);
      var (e, v) := if l.r.stage == InName then (|l.text|, |l.text|) else (l.nend, l.vstart);
      ResolveAppend(l.pairs, Offsets(l.nstart, e, v, |l.text|), l.text);
    }
  }

  lemma ParseEnd(l: Loop, q: string) returns (l': Loop)
    requires Parsing(l, "", q)
    ensures l' == Ended(l) && AllInside(l'.pairs, |l'.text|) && Resolve(l'.pairs, l'.text) == Pairs(q)
  {
    l' := Ended(l);
    EndedResolves(l);
  }

  lemma ParseAmp(l: Loop, rest: string, q: string) returns (l': Loop)
    requires Parsing(l, rest, q) && rest != "" && rest[0] == '&'
    ensures l' == Ended(l).(text := l.text + "&", r := FRESH, nstart := |l.text| + 1, nend := |l.text| + 1)
    ensures Parsing(l', rest[1..], q)
  {
    hide Resolve, Pairs, Tracks, AllInside, Finished;
    l' := Ended(l).(text := l.text + "&", r := FRESH, nstart := |l.text| + 1, nend := |l.text| + 1);
    EndedResolves(l);
    InsideGrows(Ended(l).pairs, |l.text|, |l.text| + 1);
    ResolveGrows(Ended(l).pairs, l.text, "&");
    assert Resolve(l.pairs, l.text) + (Finished(l.r) + Read(rest[1..], FRESH))
        == Resolve(l.pairs, l.text) + Finished(l.r) + Read(rest[1..], FRESH);
    assert Tracks(FRESH, l'.text, l'.nstart, l'.nend, l'.vstart) by { FreshTracks(l'.text, l'.nend, l'.vstart); }
  }

  lemma FreshTracks(text: string, nend: nat, vstart: nat)
    ensures Tracks(FRESH, text, |text|, nend, vstart)
  {
  }

  lemma InsideGrows(os: seq<Offsets>, n: nat, m: nat)
    requires AllInside(os, n) && n <= m
    ensures AllInside(os, m)
  {
  }

  lemma ParseEquals(l: Loop, rest: string, q: string) returns (l': Loop)
    requires Parsing(l, rest, q) && rest != "" && rest[0] == '=' && l.r.stage != InValue
    ensures l' == l.(text := l.text + "=", r := l.r.(stage := InValue), nend := |l.text|, vstart := |l.text| + 1)
    ensures Parsing(l', rest[1..], q)
  {
    l' := l.(text := l.text + "=", r := l.r.(stage := InValue), nend := |l.text|, vstart := |l.text| + 1);
    InsideGrows(l.pairs, |l.text|, |l.text| + 1);
    ResolveGrows(l.pairs, l.text, "=");
    TracksEquals(l.r, l.text, l.nstart, l.nend, l.vstart);
  }

  lemma ParsePush(l: Loop, rest: string, q: string) returns (l': Loop)
    requires Parsing(l, rest, q) && rest != "" && rest[0] != '&' && (rest[0] == '=' ==> l.r.stage == InValue)
    ensures l' == l.(text := l.text + [Decoded(rest)], r := Push(l.r, Decoded(rest)))
    ensures l'.r.stage == if l.r.stage == Start then InName else l.r.stage
    ensures Width(rest) <= |rest| && Parsing(l', rest[Width(rest)..], q)
  {
    var c := Decoded(rest);
    l' := l.(text := l.text + [c], r := Push(l.r, c));
    InsideGrows(l.pairs, |l.text|, |l.text| + 1);
    ResolveGrows(l.pairs, l.text, [c]);
    TracksPush(l.r, l.text, l.nstart, l.nend, l.vstart, c);
  }

  function Filled(f: seq<Range>, fpos: nat, limit: nat, s: nat): (g: seq<Range>)
    requires |f| == 3 && fpos <= limit <= 3
    ensures |g| == 3
  {
    if limit == fpos then f
    else
      var g := Filled(f, fpos, limit - 1, s);
      g[limit - 1 := Range(if limit == 1 then 0 else g[limit - 2].second, s)]
  }

  lemma FillAll(f: seq<Range>)
    requires |f| == 3
    ensures Filled(f, 0, 3, 0) == [NONE, NONE, NONE]
  {
    assert Filled(f, 0, 1, 0)[0] == NONE;
    assert Filled(f, 0, 2, 0) == Filled(f, 0, 1, 0)[1 := NONE];
  }

  lemma Refused(url: string, i: nat)
    requires url == "" || url[0] != '/' || (i < |url| && !IsSafe(url[i]) && url[i] !in "?#")
    ensures !Accepted(url)
  {
  }

  /** How far the URL has been read, and the ranges found: none, the path, or path and search. */
  ghost predicate Splitting(url: string, f: seq<Range>, s: nat, fpos: nat) {
    && |f| == 3 && s <= |url| && url != "" && url[0] == '/'
    && (forall i :: 0 <= i < s ==> IsSafe(url[i]) || url[i] in "?#")
    && (fpos == 0 ==> forall i :: 0 <= i < s ==> url[i] !in "?#")
    && (fpos == 1 ==>
          && f[0].first == 0 && f[0].second < s && url[f[0].second] == '?'
          && (forall i :: 0 <= i < f[0].second ==> url[i] !in "?#")
          && forall i :: 0 <= i < s ==> url[i] != '#')
    && (fpos == 2 ==>
          && f[0].first == 0 && f[0].second == f[1].first <= f[1].second < s && url[f[1].second] == '#'
          && (forall i :: 0 <= i < f[0].second ==> url[i] !in "?#")
          && (forall i :: 0 <= i < f[1].second ==> url[i] != '#')
          && (f[0].second < f[1].second ==> url[f[0].second] == '?'))
  }

  lemma SplitStart(url: string, f: seq<Range>)
    requires |f| == 3 && url != "" && url[0] == '/'
    ensures Splitting(url, f, 0, 0)
  {
  }

  lemma SplitSafe(url: string, f: seq<Range>, s: nat, fpos: nat)
    requires fpos <= 2 && Splitting(url, f, s, fpos) && s < |url| && IsSafe(url[s])
    ensures Splitting(url, f, s + 1, fpos)
  {
    hide IsSafe;
    SafeIsPlain(url[s]);
  }

  lemma SafeIsPlain(c: char)
    requires IsSafe(c)
    ensures c != '?' && c != '#' && c !in "?#"
  {
  }

  lemma SplitMark(url: string, f: seq<Range>, s: nat, fpos: nat)
    requires fpos <= 2 && Splitting(url, f, s, fpos) && s < |url| && url[s] == '?'
    ensures fpos == 0 ==> Splitting(url, Filled(f, 0, 1, s), s + 1, 1)
    ensures fpos > 0 ==> Splitting(url, f, s + 1, fpos)
  {
  }

  lemma SplitHash(url: string, f: seq<Range>, s: nat, fpos: nat)
    requires fpos <= 2 && Splitting(url, f, s, fpos) && s < |url| && url[s] == '#'
    ensures Splitting(url, Filled(f, fpos, 2, s), s + 1, 2)
  {
    var g := Filled(f, fpos, 2, s);
    if fpos == 0 {
      assert Filled(f, 0, 1, s)[0] == Range(0, s);
      assert g == Filled(f, 0, 1, s)[1 := Range(s, s)];
    } else if fpos == 1 {
      assert g == f[1 := Range(f[0].second, s)];
    }
  }

  lemma SplitDone(url: string, f: seq<Range>, fpos: nat)
    requires fpos <= 2 && Splitting(url, f, |url|, fpos)
    ensures Accepted(url) && PartsOk(url, Filled(f, fpos, 3, |url|))
  {
    var n := |url|;
    var g := Filled(f, fpos, 3, n);
    if fpos == 0 {
      assert Filled(f, 0, 1, n)[0] == Range(0, n);
      assert Filled(f, 0, 2, n) == Filled(f, 0, 1, n)[1 := Range(n, n)];
      assert g == Filled(f, 0, 2, n)[2 := Range(n, n)];
    } else if fpos == 1 {
      assert Filled(f, 1, 2, n) == f[1 := Range(f[0].second, n)];
      assert g == Filled(f, 1, 2, n)[2 := Range(n, n)];
    } else {
      assert Filled(f, 2, 2, n) == f;
      assert g == f[2 := Range(f[1].second, n)];
    }
    PartsFit(url, g);
  }

  lemma PartsFit(url: string, g: seq<Range>)
    requires |g| == 3 && g[0].first == 0 && g[0].second == g[1].first <= g[1].second == g[2].first <= g[2].second == |url|
    requires forall i :: 0 <= i < g[0].second ==> url[i] !in "?#"
    requires forall i :: 0 <= i < g[1].second ==> url[i] != '#'
    requires g[1].first < g[1].second ==> url[g[1].first] == '?'
    requires g[2].first < g[2].second ==> url[g[2].first] == '#'
    ensures PartsOk(url, g)
  {
    forall c | c in Part(url, g[0]) ensures c !in "?#" {
      var i :| 0 <= i < |Part(url, g[0])| && Part(url, g[0])[i] == c;
      assert url[i] == c;
    }
    forall c | c in Part(url, g[1]) ensures c != '#' {
      var i :| 0 <= i < |Part(url, g[1])| && Part(url, g[1])[i] == c;
      assert url[g[1].first + i] == c;
    }
  }

  /** Without a `#` or terminator at the end the guard would be wrong: it would take a digit from beyond. */
  lemma GuardNeedsEnd()
    ensures exists url: string, s2: nat :: s2 < |url| && IsHex(url[s2]) && s2 >= 2 && url[0] == '%'
              && IsHex(url[1]) && IsHex(url[2]) && !Escape(url[0..s2])
  {
    var url := "%41";
    assert 2 < |url| && IsHex(url[2]) && !Escape(url[0..2]);
  }
}
