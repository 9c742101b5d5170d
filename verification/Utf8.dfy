/** The byte-capped error detail: surrogates escaped, encoded as UTF-8, cut to a budget and
    decoded again, dropping what the cut left of a character. UTF-8 is that of section 3 of
    RFC 3629. */
module Utf8 {
  import opened Basics
  import opened Framing

  type Bytes = seq<Byte>

  /** What a text may hold: any code point, lone surrogates included. */
  type CodePoint = x: int | 0 <= x < 0x11_0000 witness 0

  predicate Surrogate(c: int) {
    0xD800 <= c <= 0xDFFF
  }

  type Scalar = c: CodePoint | !Surrogate(c) witness 0

  const MaxBytes: nat := 8192

  /** "... [truncated]" */
  const Marker: seq<Scalar> := [46, 46, 46, 32, 91, 116, 114, 117, 110, 99, 97, 116, 101, 100, 93]

  // ---------- encoding ----------

  function EncodeOne(c: Scalar): (b: Bytes)
    ensures 1 <= |b| <= 4
  {
    if c < 0x80 then [c]
    else if c < 0x800 then [0xC0 + c / 0x40, 0x80 + c % 0x40]
    else if c < 0x1_0000 then [0xE0 + c / 0x1000, 0x80 + c / 0x40 % 0x40, 0x80 + c % 0x40]
    else [0xF0 + c / 0x4_0000, 0x80 + c / 0x1000 % 0x40, 0x80 + c / 0x40 % 0x40, 0x80 + c % 0x40]
  }

  function Encode(s: seq<Scalar>): Bytes {
    if s == [] then [] else EncodeOne(s[0]) + Encode(s[1..])
  }

  /** A surrogate becomes a backslash escape of six ASCII characters. */
  function EscapeOne(c: CodePoint): seq<Scalar> {
    if Surrogate(c) then [92, 117, 100, Hex(c / 0x100 % 0x10), Hex(c / 0x10 % 0x10), Hex(c % 0x10)]
    else [c]
  }

  function Escape(text: seq<CodePoint>): seq<Scalar> {
    if text == [] then [] else EscapeOne(text[0]) + Escape(text[1..])
  }

  // ---------- decoding ----------

  /** The character a byte sequence starts with. */
  datatype Start = Char(c: Scalar, size: nat) | IllFormed

  predicate Cont(b: Byte) {
    0x80 <= b < 0xC0
  }

  function DecodeOne(b: Bytes): (r: Start)
    ensures r.Char? ==> 1 <= r.size <= |b|
  {
    if b == [] then IllFormed
    else if b[0] < 0x80 then Char(b[0], 1)
    else if 0xC2 <= b[0] < 0xE0 then
      if |b| >= 2 && Cont(b[1]) then Char((b[0] as int - 0xC0) * 0x40 + (b[1] as int - 0x80), 2) else IllFormed
    else if 0xE0 <= b[0] < 0xF0 then
      if |b| >= 3 && Cont(b[1]) && Cont(b[2]) && (b[0] == 0xE0 ==> b[1] >= 0xA0) && (b[0] == 0xED ==> b[1] < 0xA0)
      then Char((b[0] as int - 0xE0) * 0x1000 + (b[1] as int - 0x80) * 0x40 + (b[2] as int - 0x80), 3) else IllFormed
    else if 0xF0 <= b[0] < 0xF5 then
      if |b| >= 4 && Cont(b[1]) && Cont(b[2]) && Cont(b[3])
         && (b[0] == 0xF0 ==> b[1] >= 0x90) && (b[0] == 0xF4 ==> b[1] < 0x90)
      then Char((b[0] as int - 0xF0) * 0x4_0000 + (b[1] as int - 0x80) * 0x1000
                + (b[2] as int - 0x80) * 0x40 + (b[3] as int - 0x80), 4)
      else IllFormed
    else IllFormed
  }

  /** Decodes, writing `substitute` for each byte that no character covers: nothing when errors
      are ignored. */
  function Decode(b: Bytes, substitute: seq<Scalar>): seq<Scalar>
    decreases |b|
  {
    if b == [] then []
    else match DecodeOne(b)
      case Char(c, size) => [c] + Decode(b[size..], substitute)
      case IllFormed => substitute + Decode(b[1..], substitute)
  }

  /** Caps the encoded size at `max` bytes, leaving room for the marker. */
  function Capped(s: seq<Scalar>, max: nat, marker: seq<Scalar>): seq<Scalar>
    requires |Encode(marker)| <= max
  {
    var encoded := Encode(s);
    if |encoded| <= max then Decode(encoded, [0xFFFD])
    else Decode(encoded[..max - |Encode(marker)|], []) + marker
  }

  /** The error detail as it is reported. */
  function Truncate(text: seq<CodePoint>): seq<Scalar> {
    assert |Encode(Marker)| <= MaxBytes by { MarkerSize(); }
    Capped(Escape(text), MaxBytes, Marker)
  }

  // ---------- one character ----------

  lemma TwoBytes(c: Scalar, rest: Bytes)
    requires 0x80 <= c < 0x800
    ensures DecodeOne(EncodeOne(c) + rest) == Char(c, 2)
  {
    assert c == (c / 0x40) * 0x40 + c % 0x40;
  }

  lemma ThreeBytes(c: Scalar, rest: Bytes)
    requires 0x800 <= c < 0x1_0000
    ensures DecodeOne(EncodeOne(c) + rest) == Char(c, 3)
  {
    var (x, y, z) := (c / 0x1000, c / 0x40 % 0x40, c % 0x40);
    assert c == x * 0x1000 + y * 0x40 + z;
    assert !Surrogate(c);
    assert x == 0xD ==> y < 0x20;
    assert x == 0 ==> y >= 0x20;
  }

  lemma FourBytes(c: Scalar, rest: Bytes)
    requires 0x1_0000 <= c
    ensures DecodeOne(EncodeOne(c) + rest) == Char(c, 4)
  {
    var (w, x, y, z) := (c / 0x4_0000, c / 0x1000 % 0x40, c / 0x40 % 0x40, c % 0x40);
    assert c == w * 0x4_0000 + x * 0x1000 + y * 0x40 + z;
  }

  lemma OneRoundTrip(c: Scalar, rest: Bytes)
    ensures DecodeOne(EncodeOne(c) + rest) == Char(c, |EncodeOne(c)|)
  {
    if c < 0x80 {
    } else if c < 0x800 {
      TwoBytes(c, rest);
    } else if c < 0x1_0000 {
      ThreeBytes(c, rest);
    } else {
      FourBytes(c, rest);
    }
  }

  /** What a cut leaves of a character decodes to nothing. */
  lemma {:induction false} ContinuationsVanish(b: Bytes)
    requires forall i :: 0 <= i < |b| ==> Cont(b[i])
    ensures Decode(b, []) == []
  {
    if b != [] {
      ContinuationsVanish(b[1..]);
    }
  }

  lemma CutCharacterVanishes(c: Scalar, n: nat)
    requires n < |EncodeOne(c)|
    ensures Decode(EncodeOne(c)[..n], []) == []
  {
    var b := EncodeOne(c)[..n];
    if n > 0 {
      assert DecodeOne(b) == IllFormed;
      assert forall i :: 0 <= i < |b[1..]| ==> Cont(b[1..][i]);
      ContinuationsVanish(b[1..]);
    }
  }

  // ---------- texts ----------

  lemma {:induction false} RoundTrip(s: seq<Scalar>, substitute: seq<Scalar>)
    ensures Decode(Encode(s), substitute) == s
  {
    if s != [] {
      OneRoundTrip(s[0], Encode(s[1..]));
      var b := Encode(s);
      assert b[|EncodeOne(s[0])|..] == Encode(s[1..]);
      RoundTrip(s[1..], substitute);
    }
  }

  lemma {:induction false} EncodeConcat(s: seq<Scalar>, t: seq<Scalar>)
    ensures Encode(s + t) == Encode(s) + Encode(t)
  {
    if s == [] {
      assert s + t == t;
    } else {
      assert (s + t)[1..] == s[1..] + t;
      EncodeConcat(s[1..], t);
    }
  }

  lemma {:induction false} AsciiSize(s: seq<Scalar>)
    requires forall i :: 0 <= i < |s| ==> s[i] < 0x80
    ensures |Encode(s)| == |s|
  {
    if s != [] {
      AsciiSize(s[1..]);
    }
  }

  lemma SizeOfMarker(m: seq<Scalar>)
    requires m == Marker
    ensures |Encode(m)| == 15
  {
    AsciiSize(m);
  }

  function Characters(text: string): seq<int> {
    seq(|text|, i requires 0 <= i < |text| => text[i] as int)
  }

  lemma MarkerText()
    ensures Marker == Characters("... [truncated]")
  {
  }

  lemma MarkerSize()
    ensures |Encode(Marker)| == 15
  {
    SizeOfMarker(Marker);
  }

  /** How many leading characters fit in `n` bytes. */
  ghost function Fitting(s: seq<Scalar>, n: nat): (k: nat)
    ensures k <= |s|
  {
    if s == [] || |EncodeOne(s[0])| > n then 0 else 1 + Fitting(s[1..], n - |EncodeOne(s[0])|)
  }

  lemma PrefixSize(s: seq<Scalar>, k: nat)
    requires k < |s|
    ensures |Encode(s[..k + 1])| == |EncodeOne(s[0])| + |Encode(s[1..][..k])|
  {
    assert s[..k + 1] == [s[0]] + s[1..][..k];
    assert Encode(s[..k + 1]) == EncodeOne(s[0]) + Encode(s[1..][..k]);
  }

  lemma {:induction false} FittingFits(s: seq<Scalar>, n: nat)
    ensures |Encode(s[..Fitting(s, n)])| <= n
    ensures Fitting(s, n) < |s| ==> n < |Encode(s[..Fitting(s, n) + 1])|
    ensures Fitting(s, n) < |s| ==> n - |Encode(s[..Fitting(s, n)])| <= 3
  {
    if s != [] && |EncodeOne(s[0])| <= n {
      var k := Fitting(s[1..], n - |EncodeOne(s[0])|);
      FittingFits(s[1..], n - |EncodeOne(s[0])|);
      PrefixSize(s, k);
      if k < |s[1..]| { PrefixSize(s, k + 1); }
    } else if s != [] {
      PrefixSize(s, 0);
    }
  }

  /** Cutting the bytes anywhere and ignoring errors keeps the characters that fit. */
  lemma {:induction false} CutKeepsWhatFits(s: seq<Scalar>, n: nat)
    requires n <= |Encode(s)|
    ensures Decode(Encode(s)[..n], []) == s[..Fitting(s, n)]
  {
    if s != [] {
      var one, rest := EncodeOne(s[0]), Encode(s[1..]);
      if n < |one| {
        assert Encode(s)[..n] == one[..n];
        CutCharacterVanishes(s[0], n);
      } else {
        assert Encode(s)[..n] == one + rest[..n - |one|];
        OneRoundTrip(s[0], rest[..n - |one|]);
        assert (one + rest[..n - |one|])[|one|..] == rest[..n - |one|];
        CutKeepsWhatFits(s[1..], n - |one|);
      }
    }
  }

  lemma {:induction false} EscapeLeavesScalars(text: seq<CodePoint>)
    requires forall i :: 0 <= i < |text| ==> !Surrogate(text[i])
    ensures Escape(text) == text
  {
    if text != [] {
      EscapeLeavesScalars(text[1..]);
    }
  }

  // ---------- what encoding means ----------

  /** The six bits of a continuation byte. */
  function Six(b: Byte): int {
    b as int - 0x80
  }

  /** The table of section 3 of RFC 3629: the shortest of the four forms, the bits in order. */
  predicate InTable(c: Scalar, b: Bytes) {
    && (forall i :: 1 <= i < |b| ==> 0 <= Six(b[i]) < 0x40)
    && match |b|
       case 1 => c == b[0] as int < 0x80
       case 2 => c == 0x40 * (b[0] as int - 0xC0) + Six(b[1]) >= 0x80
       case 3 => c == 0x1000 * (b[0] as int - 0xE0) + 0x40 * Six(b[1]) + Six(b[2]) >= 0x800
       case 4 => c == 0x4_0000 * (b[0] as int - 0xF0) + 0x1000 * Six(b[1]) + 0x40 * Six(b[2]) + Six(b[3]) >= 0x1_0000
       case _ => false
  }

  lemma EncodingIsInTheTable(c: Scalar)
    ensures InTable(c, EncodeOne(c))
  {
    OneRoundTrip(c, []);
    assert EncodeOne(c) + [] == EncodeOne(c);
  }

  // ---------- what escaping means ----------

  /** A lower-case hexadecimal digit's number. */
  function DigitOf(c: int): Option<nat> {
    if '0' as int <= c <= '9' as int then Some(c - '0' as int)
    else if 'a' as int <= c <= 'f' as int then Some(c - 'a' as int + 10)
    else None
  }

  /** The escape of a surrogate: a backslash, a u and the four digits of its number. */
  ghost predicate BackslashEscape(c: int, s: seq<int>) {
    && |s| == 6 && s[..2] == Characters("\\u")
    && (forall i :: 2 <= i < 6 ==> DigitOf(s[i]).Some?)
    && 4096 * DigitOf(s[2]).value + 256 * DigitOf(s[3]).value + 16 * DigitOf(s[4]).value + DigitOf(s[5]).value == c
  }

  lemma SurrogateNibbles(c: CodePoint)
    requires Surrogate(c)
    ensures c == 0xD000 + 256 * (c / 0x100 % 0x10) + 16 * (c / 0x10 % 0x10) + c % 0x10
  {
  }

  lemma EscapeOfNibbles(x: nat, y: nat, z: nat)
    requires x < 16 && y < 16 && z < 16
    ensures BackslashEscape(0xD000 + 256 * x + 16 * y + z, [92, 117, 100, Hex(x), Hex(y), Hex(z)])
  {
    HexDigit(x);
    HexDigit(y);
    HexDigit(z);
  }

  lemma SurrogateEscape(c: CodePoint)
    requires Surrogate(c)
    ensures BackslashEscape(c, EscapeOne(c))
  {
    SurrogateNibbles(c);
    EscapeOfNibbles(c / 0x100 % 0x10, c / 0x10 % 0x10, c % 0x10);
  }

  lemma HexDigit(n: nat)
    requires n < 16
    ensures DigitOf(Hex(n)) == Some(n)
  {
  }

  ghost predicate EscapedAs(text: seq<CodePoint>, parts: seq<seq<int>>) {
    && |parts| == |text|
    && forall i :: 0 <= i < |text| ==>
         if Surrogate(text[i]) then BackslashEscape(text[i], parts[i]) else parts[i] == [text[i]]
  }

  function Joined(parts: seq<seq<int>>): seq<int> {
    if parts == [] then [] else parts[0] + Joined(parts[1..])
  }

  /** Escaping replaces every surrogate by its escape and keeps everything else, in place. */
  lemma {:induction false} EscapingReplacesSurrogates(text: seq<CodePoint>) returns (parts: seq<seq<int>>)
    ensures EscapedAs(text, parts) && Escape(text) == Joined(parts)
  {
    parts := [];
    if text != [] {
      var rest := EscapingReplacesSurrogates(text[1..]);
      parts := [EscapeOne(text[0])] + rest;
      assert parts[1..] == rest;
      if Surrogate(text[0]) {
        SurrogateEscape(text[0]);
      }
      forall i | 0 < i < |text|
        ensures if Surrogate(text[i]) then BackslashEscape(text[i], parts[i]) else parts[i] == [text[i]]
      {
        assert text[i] == text[1..][i - 1] && parts[i] == rest[i - 1];
      }
    }
  }

  // ---------- the results ----------

  /** The longest prefix of `s` whose encoding fits in `n` bytes has `k` characters. */
  ghost predicate LongestPrefix(s: seq<Scalar>, n: nat, k: nat) {
    && k <= |s| && |Encode(s[..k])| <= n
    && forall j :: k < j <= |s| ==> |Encode(s[..j])| > n
  }

  lemma EncodeGrows(s: seq<Scalar>, i: nat, j: nat)
    requires i <= j <= |s|
    ensures |Encode(s[..i])| <= |Encode(s[..j])|
  {
    assert s[..j] == s[..i] + s[i..j];
    EncodeConcat(s[..i], s[i..j]);
  }

  lemma CappingKeepsTheLongestPrefix(s: seq<Scalar>, max: nat, marker: seq<Scalar>) returns (k: nat)
    requires |Encode(marker)| <= max
    ensures |Encode(s)| <= max ==> Capped(s, max, marker) == s
    ensures |Encode(s)| > max ==>
              var budget := max - |Encode(marker)|;
              && LongestPrefix(s, budget, k) && budget - |Encode(s[..k])| <= 3
              && Capped(s, max, marker) == s[..k] + marker
  {
    var budget := max - |Encode(marker)|;
    k := Fitting(s, budget);
    if |Encode(s)| <= max {
      RoundTrip(s, [0xFFFD]);
    } else {
      CutKeepsWhatFits(s, budget);
      FittingFits(s, budget);
      assert k < |s| by { assert s[..|s|] == s; }
      forall j | k < j <= |s| ensures |Encode(s[..j])| > budget {
        EncodeGrows(s, k + 1, j);
      }
    }
  }

  /** A detail that fits is reported as it is; any other is the longest prefix that leaves room
      for the marker, followed by the marker, at most three bytes short of the budget. */
  lemma TruncationKeepsTheLongestPrefix(text: seq<CodePoint>) returns (k: nat)
    ensures |Encode(Escape(text))| <= 8192 ==> Truncate(text) == Escape(text)
    ensures |Encode(Escape(text))| > 8192 ==>
              && LongestPrefix(Escape(text), 8177, k)
              && 8177 - |Encode(Escape(text)[..k])| <= 3
              && Truncate(text) == Escape(text)[..k] + Marker
  {
    MarkerSize();
    k := CappingKeepsTheLongestPrefix(Escape(text), MaxBytes, Marker);
  }

  lemma CappingIsBounded(s: seq<Scalar>, max: nat, marker: seq<Scalar>)
    requires |Encode(marker)| <= max
    ensures |Encode(Capped(s, max, marker))| <= max
  {
    var k := CappingKeepsTheLongestPrefix(s, max, marker);
    if |Encode(s)| > max {
      EncodeConcat(s[..k], marker);
    }
  }

  /** The reported detail never exceeds the cap, and it is the escaped text exactly when that
      text fits. */
  lemma TruncationIsBounded(text: seq<CodePoint>)
    ensures |Encode(Truncate(text))| <= 8192
    ensures Truncate(text) == Escape(text) <==> |Encode(Escape(text))| <= 8192
  {
    MarkerSize();
    CappingIsBounded(Escape(text), MaxBytes, Marker);
    var k := TruncationKeepsTheLongestPrefix(text);
  }
}
