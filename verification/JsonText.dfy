/** What canonical texts look like, in terms of section 2 to 7 of RFC 8259 rather than of the
    printer: words, brackets, commas, escapes and numerals. */
module JsonText {
  import opened Basics
  import opened Framing
  import opened Json
  import opened JsonReader

  function Ascii(text: string): (bytes: seq<Byte>)
    ensures |bytes| == |text|
  {
    seq(|text|, i requires 0 <= i < |text| => if text[i] as int < 0x80 then text[i] as int else 0x3F)
  }

  // ---------- structure ----------

  function Joined(parts: seq<seq<Byte>>): seq<Byte> {
    if parts == [] then [] else if |parts| == 1 then parts[0] else parts[0] + Ascii(",") + Joined(parts[1..])
  }

  function Elements(items: Items): seq<seq<Byte>> {
    match items
    case NoItems => []
    case Item(head, tail) => [Print(head)] + Elements(tail)
  }

  function MemberTexts(fields: Fields): seq<seq<Byte>> {
    match fields
    case NoFields => []
    case Field(key, value, rest) => [Quoted(key) + Ascii(":") + Print(value)] + MemberTexts(rest)
  }

  lemma {:induction false} TailOfArray(head: Json, items: Items)
    ensures Print(head) + PrintItems(items) == Joined([Print(head)] + Elements(items)) + Ascii("]")
    decreases items
  {
    match items
    case NoItems =>
    case Item(next, tail) =>
      TailOfArray(next, tail);
      var parts := [Print(head)] + Elements(items);
      assert parts[1..] == [Print(next)] + Elements(tail);
      assert PrintItems(items) == Ascii(",") + (Print(next) + PrintItems(tail));
      Regroup(Print(head), Ascii(","), Joined(parts[1..]) + Ascii("]"));
      Regroup(Print(head) + Ascii(","), Joined(parts[1..]), Ascii("]"));
  }

  lemma MemberText(key: seq<Unit>, value: seq<Byte>, after: seq<Byte>)
    ensures Member(key, value, after) == Quoted(key) + Ascii(":") + value + after
  {
    Regroup(Quoted(key), Ascii(":"), value + after);
    Regroup(Quoted(key) + Ascii(":"), value, after);
  }

  lemma {:induction false} TailOfObject(key: seq<Unit>, value: Json, rest: Fields)
    ensures Member(key, Print(value), PrintFields(rest)) == Joined(MemberTexts(Field(key, value, rest))) + Ascii("}")
    decreases rest
  {
    var parts := MemberTexts(Field(key, value, rest));
    MemberText(key, Print(value), PrintFields(rest));
    match rest
    case NoFields =>
    case Field(next, inner, tail) =>
      TailOfObject(next, inner, tail);
      assert parts[1..] == MemberTexts(rest);
      assert PrintFields(rest) == Ascii(",") + Member(next, Print(inner), PrintFields(tail));
      Regroup(parts[0], Ascii(","), Joined(parts[1..]) + Ascii("}"));
      Regroup(parts[0] + Ascii(","), Joined(parts[1..]), Ascii("}"));
  }

  /** Every value's text: its word, its numeral, its string, or its parts between brackets,
      separated by commas and nothing else. */
  lemma TextOfAValue(j: Json)
    ensures match j
            case Null => Print(j) == Ascii("null")
            case Bool(value) => Print(j) == if value then Ascii("true") else Ascii("false")
            case Int(number) => Print(j) == Decimal(number)
            case Float(text) => Print(j) == text
            case Str(chars) => Print(j) == Quoted(chars)
            case Arr(items) => Print(j) == Ascii("[") + Joined(Elements(items)) + Ascii("]")
            case Obj(fields) => Print(j) == Ascii("{") + Joined(MemberTexts(fields)) + Ascii("}")
  {
    match j
    case Arr(Item(head, tail)) =>
      TailOfArray(head, tail);
      Regroup(Ascii("["), Joined(Elements(j.items)), Ascii("]"));
    case Obj(Field(key, value, rest)) =>
      TailOfObject(key, value, rest);
      Regroup(Ascii("{"), Joined(MemberTexts(j.fields)), Ascii("}"));
    case _ =>
  }

  // ---------- strings ----------

  /** The two-character escapes of section 7. */
  function Short(u: Unit): string {
    if u == '"' as int then "\\\""
    else if u == '\\' as int then "\\\\"
    else if u == 8 then "\\b"
    else if u == 9 then "\\t"
    else if u == 10 then "\\n"
    else if u == 12 then "\\f"
    else if u == 13 then "\\r"
    else ""
  }

  predicate LowerHex(b: Byte) {
    Digit(b) || 'a' as int <= b <= 'f' as int
  }

  /** A unit's text: its short escape, itself when printable, or a backslash, a u and the four
      lower-case digits of its number. */
  lemma TextOfAUnit(u: Unit)
    ensures if Short(u) != "" then Escape(u) == Ascii(Short(u))
            else if 0x20 <= u <= 0x7E then Escape(u) == [u]
            else && |Escape(u)| == 6 && Escape(u)[..2] == Ascii("\\u")
                 && (forall i :: 2 <= i < 6 ==> LowerHex(Escape(u)[i]))
                 && FourHex(Escape(u)[2], Escape(u)[3], Escape(u)[4], Escape(u)[5]) == u
  {
    if Short(u) == "" && !(0x20 <= u <= 0x7E) {
      HexReads(u / 4096);
      HexReads(u / 256 % 16);
      HexReads(u / 16 % 16);
      HexReads(u % 16);
      Nibbles(u);
    }
  }

  function Escapes(s: seq<Unit>): seq<Byte> {
    if s == [] then [] else Escape(s[0]) + Escapes(s[1..])
  }

  lemma {:induction false} CharsAreEscapes(s: seq<Unit>)
    ensures Chars(s) == Escapes(s) + Ascii("\"")
  {
    if s != [] {
      CharsAreEscapes(s[1..]);
      Regroup(Escape(s[0]), Escapes(s[1..]), Ascii("\""));
    }
  }

  /** A string's text: the texts of its units between quotes. */
  lemma TextOfAString(s: seq<Unit>)
    ensures Quoted(s) == Ascii("\"") + Escapes(s) + Ascii("\"")
  {
    CharsAreEscapes(s);
    Regroup(Ascii("\""), Escapes(s), Ascii("\""));
  }

  lemma {:induction false} PlainTextIsItself(s: seq<Byte>)
    requires forall i :: 0 <= i < |s| ==> 0x20 <= s[i] <= 0x7E && s[i] != 0x22 && s[i] != 0x5C
    ensures Escapes(s) == s
  {
    if s != [] {
      PlainTextIsItself(s[1..]);
    }
  }

  /** A high surrogate is followed by a low one, and a low one preceded by a high one. */
  predicate InPair(s: seq<Unit>, i: nat)
    requires i < |s|
  {
    && (0xD800 <= s[i] < 0xDC00 ==> i + 1 < |s| && 0xDC00 <= s[i + 1] < 0xE000)
    && (0xDC00 <= s[i] < 0xE000 ==> i > 0 && 0xD800 <= s[i - 1] < 0xDC00)
  }

  ghost predicate AllInPairs(s: seq<Unit>) {
    forall i :: 0 <= i < |s| ==> InPair(s, i)
  }

  lemma TailInPairs(s: seq<Unit>, n: nat)
    requires 1 <= n <= |s| && (forall i :: 0 <= i < n ==> InPair(s, i)) && !(0xD800 <= s[n - 1] < 0xDC00)
    ensures AllInPairs(s) <==> AllInPairs(s[n..])
  {
    assert forall i :: n <= i < |s| ==> s[n..][i - n] == s[i];
    forall i | n <= i < |s| ensures InPair(s, i) <==> InPair(s[n..], i - n) {
    }
    forall i | 0 <= i < |s[n..]| ensures InPair(s[n..], i) <==> InPair(s, i + n) {
    }
  }

  /** Exactly the texts whose high and low surrogates come in pairs are paired. */
  lemma {:induction false} PairedExactly(s: seq<Unit>)
    ensures Paired(s) <==> AllInPairs(s)
  {
    if s != [] && InPair(s, 0) {
      var n := if 0xD800 <= s[0] < 0xDC00 then 2 else 1;
      TailInPairs(s, n);
      PairedExactly(s[n..]);
    }
  }

  // ---------- numbers ----------

  lemma {:induction false} DigitsStart(n: nat)
    ensures Digits(n) != [] && AllDigits(Digits(n)) && (Digits(n)[0] == 0x30 <==> n == 0)
  {
    if n >= 10 {
      DigitsStart(n / 10);
    }
  }

  /** An integer's text: a minus sign if it is negative, and the decimal digits of its size
      without a leading zero. */
  lemma TextOfAnInteger(n: int)
    ensures var text := Decimal(n);
            var digits := if n < 0 then text[1..] else text;
            && text != [] && (n < 0 ==> text[0] == '-' as int)
            && digits != [] && AllDigits(digits) && (digits[0] == '0' as int <==> n == 0)
            && Value(digits) == if n < 0 then -n else n
  {
    DigitsStart(if n < 0 then -n else n);
    DigitsValue(if n < 0 then -n else n);
    if n < 0 {
      assert Decimal(n)[1..] == Digits(-n);
    }
  }

  lemma {:induction false} RunOfDigits(digits: seq<Byte>, rest: seq<Byte>)
    requires AllDigits(digits) && (rest == [] || !Digit(rest[0]))
    ensures DigitRun(digits + rest) == |digits| && (digits + rest)[|digits|..] == rest
  {
    if digits == [] {
      assert digits + rest == rest;
    } else {
      assert (digits + rest)[1..] == digits[1..] + rest;
      RunOfDigits(digits[1..], rest);
    }
  }

  /** `exp` of section 6: e or E, a sign or none, digits. */
  lemma ExponentText(e: Byte, sign: seq<Byte>, digits: seq<Byte>)
    requires e == 'e' as int || e == 'E' as int
    requires sign == [] || sign == Ascii("+") || sign == Ascii("-")
    requires digits != [] && AllDigits(digits)
    ensures Exponent([e] + sign + digits)
  {
    var text := [e] + sign + digits;
    assert text[1 + |sign|..] == digits;
  }

  lemma FractionTextHas(fraction: seq<Byte>, exponent: seq<Byte>)
    requires AllDigits(fraction) && fraction != [] && (exponent == [] || Exponent(exponent))
    ensures FractionOrExponent(Ascii(".") + fraction + exponent)
  {
    var tail := Ascii(".") + fraction + exponent;
    assert tail[1..] == fraction + exponent;
    RunOfDigits(fraction, exponent);
    assert tail[1 + |fraction|..] == exponent;
  }

  lemma UnsignedTextHas(whole: seq<Byte>, tail: seq<Byte>)
    requires whole != [] && AllDigits(whole) && (whole[0] == 0x30 ==> |whole| == 1)
    requires FractionOrExponent(tail)
    ensures FloatText(whole + tail) && FloatText(Ascii("-") + (whole + tail))
  {
    RunOfDigits(whole, tail);
    assert (whole + tail)[0] == whole[0];
    assert (Ascii("-") + (whole + tail))[1..] == whole + tail;
  }

  /** Every number of section 6 with a fraction or an exponent is a float's text. */
  lemma FloatTextHas(whole: seq<Byte>, fraction: seq<Byte>, exponent: seq<Byte>)
    requires whole != [] && AllDigits(whole) && (whole[0] == 0x30 ==> |whole| == 1)
    requires AllDigits(fraction) && (exponent == [] || Exponent(exponent))
    ensures fraction != [] ==>
              var tail := Ascii(".") + fraction + exponent;
              FloatText(whole + tail) && FloatText(Ascii("-") + (whole + tail))
    ensures exponent != [] ==>
              FloatText(whole + exponent) && FloatText(Ascii("-") + (whole + exponent))
  {
    if fraction != [] {
      FractionTextHas(fraction, exponent);
      UnsignedTextHas(whole, Ascii(".") + fraction + exponent);
    }
    if exponent != [] {
      UnsignedTextHas(whole, exponent);
    }
  }

  lemma ExponentIs(text: seq<Byte>) returns (e: Byte, sign: seq<Byte>, digits: seq<Byte>)
    requires Exponent(text)
    ensures text == [e] + sign + digits && (e == 'e' as int || e == 'E' as int)
    ensures sign == [] || sign == Ascii("+") || sign == Ascii("-")
    ensures digits != [] && AllDigits(digits)
  {
    e := text[0];
    if |text| >= 2 && (text[1] == 0x2B || text[1] == 0x2D) {
      sign, digits := text[1..2], text[2..];
    } else {
      sign, digits := [], text[1..];
    }
  }

  lemma FractionIs(tail: seq<Byte>) returns (fraction: seq<Byte>, exponent: seq<Byte>)
    requires FractionOrExponent(tail)
    ensures AllDigits(fraction) && (exponent == [] || Exponent(exponent)) && (fraction != [] || exponent != [])
    ensures tail == (if fraction == [] then [] else Ascii(".") + fraction) + exponent
  {
    if tail[0] == 0x2E {
      var m := DigitRun(tail[1..]);
      fraction, exponent := tail[1..][..m], tail[1 + m..];
    } else {
      fraction, exponent := [], tail;
    }
  }

  lemma UnsignedIs(unsigned: seq<Byte>, k: nat)
      returns (whole: seq<Byte>, fraction: seq<Byte>, exponent: seq<Byte>)
    requires k == DigitRun(unsigned) >= 1 && (unsigned[0] == 0x30 ==> k == 1) && FractionOrExponent(unsigned[k..])
    ensures whole != [] && AllDigits(whole) && (whole[0] == 0x30 ==> |whole| == 1)
    ensures AllDigits(fraction) && (exponent == [] || Exponent(exponent)) && (fraction != [] || exponent != [])
    ensures unsigned == whole + ((if fraction == [] then [] else Ascii(".") + fraction) + exponent)
  {
    whole := unsigned[..k];
    fraction, exponent := FractionIs(unsigned[k..]);
    SplitAt(unsigned, k);
  }

  /** And a float's text is such a number. */
  lemma FloatTextIs(text: seq<Byte>)
      returns (minus: seq<Byte>, whole: seq<Byte>, fraction: seq<Byte>, exponent: seq<Byte>)
    requires FloatText(text)
    ensures minus == [] || minus == Ascii("-")
    ensures whole != [] && AllDigits(whole) && (whole[0] == 0x30 ==> |whole| == 1)
    ensures AllDigits(fraction) && (exponent == [] || Exponent(exponent)) && (fraction != [] || exponent != [])
    ensures text == minus + (whole + ((if fraction == [] then [] else Ascii(".") + fraction) + exponent))
  {
    var n := if text[0] == 0x2D then 1 else 0;
    var unsigned := text[n..];
    assert n == 0 ==> unsigned == text;
    minus := text[..n];
    whole, fraction, exponent := UnsignedIs(unsigned, DigitRun(unsigned));
    SplitAt(text, n);
  }
}
