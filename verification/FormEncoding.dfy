/**
 What a sender makes of names and values, and that the reader gets them back: percent-encoding with either
 case of digits, `+` for a blank, `=` and `&` between.
 */
module FormEncoding {
  import opened FormParser

  const UPPER: string := "0123456789ABCDEF"
  const LOWER: string := "0123456789abcdef"

  /** How one byte is sent. */
  datatype Style = Plain | Plus | Upper | Lower

  predicate IsByte(c: char) { c < 256 as char }

  predicate Fits(c: char, how: Style, reserved: string) {
    && IsByte(c)
    && (how.Plain? ==> c != '%' && c != '+' && c !in reserved)
    && (how.Plus? ==> c == ' ')
  }

  function Hex(c: char, digits: string): (r: string)
    requires IsByte(c) && |digits| == 16
    ensures |r| == 3
  {
    ['%', digits[c as nat / 16], digits[c as nat % 16]]
  }

  function Sent(c: char, how: Style): (r: string)
    requires IsByte(c)
    ensures r != ""
  {
    match how
    case Plain => [c]
    case Plus => "+"
    case Upper => Hex(c, UPPER)
    case Lower => Hex(c, LOWER)
  }

  /** Every byte of `s` can be sent as `how` says; `reserved` are bytes that may not be sent as they are. */
  predicate Sendable(s: string, how: seq<Style>, reserved: string) {
    |s| == |how| && forall i :: 0 <= i < |s| ==> Fits(s[i], how[i], reserved)
  }

  function Encode(s: string, how: seq<Style>, reserved: string): string
    requires Sendable(s, how, reserved)
  {
    if s == "" then "" else Sent(s[0], how[0]) + Encode(s[1..], how[1..], reserved)
  }

  // ---- hex digits ----

  lemma HexDigits(c: char)
    ensures IsHex(c) <==> c in UPPER || c in LOWER
    ensures forall i :: 0 <= i < 16 ==> (UPPER[i] == c || LOWER[i] == c) ==> IsHex(c) && HexValue(c) == i
  {
    if IsHex(c) {
      if c <= '9' { assert UPPER[c as nat - '0' as nat] == c; }
      else if c <= 'F' { assert UPPER[c as nat - 'A' as nat + 10] == c; }
      else { assert LOWER[c as nat - 'a' as nat + 10] == c; }
    }
  }

  lemma HexBack(c: char, digits: string)
    requires IsByte(c) && (digits == UPPER || digits == LOWER)
    ensures Escape(Hex(c, digits)) && Byte(Hex(c, digits)[1], Hex(c, digits)[2]) == c
  {
    HexDigits(digits[c as nat / 16]);
    HexDigits(digits[c as nat % 16]);
    hide IsHex, HexValue;
    assert c as nat / 16 * 16 + c as nat % 16 == c as nat;
  }

  // ---- strings ----

  lemma SentBack(c: char, how: Style, reserved: string, rest: string)
    requires Fits(c, how, reserved)
    ensures Decode(Sent(c, how) + rest) == [c] + Decode(rest)
  {
    var s := Sent(c, how) + rest;
    if how.Upper? || how.Lower? {
      HexBack(c, if how.Upper? then UPPER else LOWER);
      hide IsHex, HexValue, Byte;
      assert s[3..] == rest;
    } else {
      hide IsHex, HexValue, Byte;
      assert s[1..] == rest;
    }
  }

  /** Decoding gives back what was encoded, whichever way each byte was sent. */
  lemma {:induction false} DecodeEncode(s: string, how: seq<Style>, reserved: string)
    requires Sendable(s, how, reserved)
    ensures Decode(Encode(s, how, reserved)) == s
  {
    if s != "" {
      DecodeEncode(s[1..], how[1..], reserved);
      SentBack(s[0], how[0], reserved, Encode(s[1..], how[1..], reserved));
      hide Decode, Sent;
      assert s == [s[0]] + s[1..];
    }
  }

  /** A `%` is special only before two hex digits. */
  predicate NoEscapes(s: string) {
    && (forall i :: 0 <= i < |s| ==> s[i] != '+')
    && forall i :: 0 <= i < |s| - 2 && s[i] == '%' ==>
         !(s[i + 1] in UPPER || s[i + 1] in LOWER) || !(s[i + 2] in UPPER || s[i + 2] in LOWER)
  }

  lemma {:induction false} Unchanged(s: string)
    requires NoEscapes(s)
    ensures Decode(s) == s
  {
    if s != "" {
      if |s| >= 3 && s[0] == '%' {
        HexDigits(s[1]);
        HexDigits(s[2]);
        assert !Escape(s);
      }
      var rest := s[1..];
      forall i | 0 <= i < |rest| - 2 && rest[i] == '%'
        ensures !(rest[i + 1] in UPPER || rest[i + 1] in LOWER) || !(rest[i + 2] in UPPER || rest[i + 2] in LOWER)
      {
        assert s[i + 1] == '%';
      }
      Unchanged(rest);
      assert s == [s[0]] + rest;
    }
  }

  // ---- pairs ----

  /** What stands between two `&`: a name and a value, a name alone, or nothing. */
  datatype Item =
    | Field(pair: Pair, nameHow: seq<Style>, valueHow: seq<Style>)
    | Bare(name: string, how: seq<Style>)
    | Gap

  predicate ItemOk(it: Item) {
    match it
    case Field(pair, nameHow, valueHow) => Sendable(pair.name, nameHow, "&=") && Sendable(pair.value, valueHow, "&")
    case Bare(name, how) => name != "" && Sendable(name, how, "&=")
    case Gap => true
  }

  function ItemText(it: Item): string
    requires ItemOk(it)
  {
    match it
    case Field(pair, nameHow, valueHow) => Encode(pair.name, nameHow, "&=") + "=" + Encode(pair.value, valueHow, "&")
    case Bare(name, how) => Encode(name, how, "&=")
    case Gap => ""
  }

  predicate QueryOk(items: seq<Item>) {
    items != [] && forall i :: 0 <= i < |items| ==> ItemOk(items[i])
  }

  function Query(items: seq<Item>): string
    requires QueryOk(items)
  {
    if |items| == 1 then ItemText(items[0]) else ItemText(items[0]) + "&" + Query(items[1..])
  }

  /** The pairs that were sent. */
  function Given(items: seq<Item>): seq<Pair> {
    if items == [] then []
    else (match items[0]
          case Field(pair, _, _) => [pair]
          case Bare(name, _) => [Pair(name, "")]
          case Gap => []) + Given(items[1..])
  }

  lemma HexNot(c: char, digits: string, x: char)
    requires IsByte(c) && (digits == UPPER || digits == LOWER) && (x == '&' || x == '=')
    ensures x !in Hex(c, digits)
  {
    assert forall i :: 0 <= i < 16 ==> UPPER[i] != x && LOWER[i] != x;
  }

  lemma {:induction false} NotInEncode(s: string, how: seq<Style>, reserved: string, x: char)
    requires Sendable(s, how, reserved) && x in reserved && (x == '&' || x == '=')
    ensures x !in Encode(s, how, reserved)
    ensures s != "" ==> Encode(s, how, reserved) != ""
  {
    if s != "" {
      NotInEncode(s[1..], how[1..], reserved, x);
      assert x !in Sent(s[0], how[0]) by {
        if how[0].Upper? { HexNot(s[0], UPPER, x); }
        if how[0].Lower? { HexNot(s[0], LOWER, x); }
      }
    }
  }

  lemma {:induction false} FindAfter(a: string, x: char, b: string)
    requires x !in a
    ensures Find(a + [x] + b, x) == |a| && Find(a, x) == |a|
  {
    if a != "" {
      assert (a + [x] + b)[1..] == a[1..] + [x] + b;
      FindAfter(a[1..], x, b);
    }
  }

  lemma ItemRead(it: Item)
    requires ItemOk(it)
    ensures '&' !in ItemText(it) && (it.Gap? <==> ItemText(it) == "")
    ensures it.Field? ==> PairOf(ItemText(it)) == it.pair
    ensures it.Bare? ==> PairOf(ItemText(it)) == Pair(it.name, "")
  {
    match it
    case Field(pair, nameHow, valueHow) => {
      var n, v := Encode(pair.name, nameHow, "&="), Encode(pair.value, valueHow, "&");
      NotInEncode(pair.name, nameHow, "&=", '&');
      NotInEncode(pair.name, nameHow, "&=", '=');
      NotInEncode(pair.value, valueHow, "&", '&');
      FindAfter(n, '=', v);
      DecodeEncode(pair.name, nameHow, "&=");
      DecodeEncode(pair.value, valueHow, "&");
      hide Encode, Decode, Find;
      assert (n + "=" + v)[..|n|] == n && (n + "=" + v)[|n| + 1..] == v;
    }
    case Bare(name, how) => {
      NotInEncode(name, how, "&=", '&');
      NotInEncode(name, how, "&=", '=');
      FindAfter(Encode(name, how, "&="), '=', "");
      DecodeEncode(name, how, "&=");
    }
    case Gap =>
  }

  /** Reading a query gives back the pairs it was made of, in order. */
  lemma {:induction false} PairsBack(items: seq<Item>)
    requires QueryOk(items)
    ensures Pairs(Query(items)) == Given(items)
  {
    var text := ItemText(items[0]);
    ItemRead(items[0]);
    if |items| == 1 {
      FindAfter(text, '&', "");
      hide Find, ItemText, PairOf;
      assert text[..|text|] == text && Given(items[1..]) == [];
    } else {
      var rest := Query(items[1..]);
      PairsBack(items[1..]);
      FindAfter(text, '&', rest);
      hide Find, ItemText, PairOf;
      var q := text + "&" + rest;
      assert q[..|text|] == text && q[|text| + 1..] == rest;
    }
  }

  /** The safe characters: everything visible but these five. */
  lemma SafeExactly(c: char)
    ensures IsSafe(c) <==> '!' <= c <= '~' && c !in "\"#<>?"
  {
  }
}
