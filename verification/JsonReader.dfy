/** A recursive-descent reader that accepts exactly the canonical texts: whatever it reads
    prints back to the bytes it read, and whatever is printed is read. */
module JsonReader {
  import opened Basics
  import opened Framing
  import opened Json

  /** A value and the bytes after it. */
  datatype Read<T> = Got(value: T, rest: seq<Byte>) | Fail

  // ---------- strings ----------

  function HexValue(b: Byte): int {
    if Digit(b) then b as int - 48 else if 0x61 <= b <= 0x66 then b as int - 87 else 0
  }

  function FourHex(a: Byte, b: Byte, c: Byte, d: Byte): Unit {
    4096 * HexValue(a) + 256 * HexValue(b) + 16 * HexValue(c) + HexValue(d)
  }

  /** The only unit whose escape the bytes can start with. */
  function Candidate(b: seq<Byte>): Unit
    requires b != []
  {
    if b[0] != 0x5C || |b| == 1 then b[0]
    else if b[1] == 0x62 then 0x08
    else if b[1] == 0x66 then 0x0C
    else if b[1] == 0x6E then 0x0A
    else if b[1] == 0x72 then 0x0D
    else if b[1] == 0x74 then 0x09
    else if b[1] == 0x75 && |b| >= 6 then FourHex(b[2], b[3], b[4], b[5])
    else b[1]
  }

  function ReadUnit(b: seq<Byte>): (r: Read<Unit>)
    requires b != []
    ensures r.Got? ==> b == Escape(r.value) + r.rest && |r.rest| < |b|
  {
    var u := Candidate(b);
    if Escape(u) <= b then Got(u, b[|Escape(u)|..]) else Fail
  }

  lemma HexReads(d: int)
    requires 0 <= d < 16
    ensures HexValue(Hex(d)) == d
  {
  }

  lemma Nibbles(u: Unit)
    ensures u == 4096 * (u / 4096) + 256 * (u / 256 % 16) + 16 * (u / 16 % 16) + u % 16
  {
    assert u / 16 / 16 == u / 256 && u / 256 / 16 == u / 4096;
    assert u == 16 * (u / 16) + u % 16;
    assert u / 16 == 16 * (u / 256) + u / 16 % 16;
    assert u / 256 == 16 * (u / 4096) + u / 256 % 16;
  }

  lemma UnitReads(u: Unit, x: seq<Byte>)
    ensures ReadUnit(Escape(u) + x) == Got(u, x)
  {
    var b := Escape(u) + x;
    assert Candidate(b) == u by {
      if |Escape(u)| == 6 {
        HexReads(u / 4096);
        HexReads(u / 256 % 16);
        HexReads(u / 16 % 16);
        HexReads(u % 16);
        Nibbles(u);
      }
    }
    assert b[|Escape(u)|..] == x;
  }

  /** The characters up to and including the closing quote. */
  function ReadChars(b: seq<Byte>): (r: Read<seq<Unit>>)
    ensures r.Got? ==> b == Chars(r.value) + r.rest && |r.rest| < |b|
    decreases |b|
  {
    if b == [] then Fail
    else if b[0] == 0x22 then Got([], b[1..])
    else
      var one := ReadUnit(b);
      if one.Fail? then Fail
      else
        var more := ReadChars(one.rest);
        if more.Fail? then Fail
        else
          CharsStep(one.value, more.value, more.rest);
          Got([one.value] + more.value, more.rest)
  }

  lemma CharsStep(u: Unit, s: seq<Unit>, x: seq<Byte>)
    ensures Chars([u] + s) + x == Escape(u) + (Chars(s) + x)
  {
    assert ([u] + s)[1..] == s;
    Regroup(Escape(u), Chars(s), x);
  }

  lemma {:induction false} CharsRead(s: seq<Unit>, x: seq<Byte>)
    ensures ReadChars(Chars(s) + x) == Got(s, x)
  {
    if s == [] {
      assert (Chars(s) + x)[1..] == x;
    } else {
      CharsStep(s[0], s[1..], x);
      assert [s[0]] + s[1..] == s;
      UnitReads(s[0], Chars(s[1..]) + x);
      CharsRead(s[1..], x);
    }
  }

  function ReadQuoted(b: seq<Byte>): (r: Read<seq<Unit>>)
    ensures r.Got? ==> b == Quoted(r.value) + r.rest && |r.rest| < |b|
  {
    if b == [] || b[0] != 0x22 then Fail
    else
      var chars := ReadChars(b[1..]);
      if chars.Fail? then Fail
      else
        Regroup([0x22], Chars(chars.value), chars.rest);
        assert b == [0x22] + b[1..];
        chars
  }

  lemma QuotedRead(s: seq<Unit>, x: seq<Byte>)
    ensures ReadQuoted(Quoted(s) + x) == Got(s, x)
  {
    var b := Quoted(s) + x;
    Regroup([0x22], Chars(s), x);
    assert b[1..] == Chars(s) + x;
    CharsRead(s, x);
  }

  // ---------- numbers ----------

  function Value(text: seq<Byte>): int {
    if text == [] then 0 else 10 * Value(text[..|text| - 1]) + (text[|text| - 1] as int - 48)
  }

  lemma {:induction false} DigitsValue(n: nat)
    ensures Value(Digits(n)) == n
  {
    if n < 10 {
      assert Digits(n)[..0] == [];
    } else {
      DigitsValue(n / 10);
      assert Digits(n)[..|Digits(n)| - 1] == Digits(n / 10);
    }
  }

  function IntegerOf(text: seq<Byte>): int {
    if text != [] && text[0] == 0x2D then -Value(text[1..]) else Value(text)
  }

  /** The number a numeral is the canonical text of: an integer that prints to it, or a number
      with a fraction or exponent. */
  function NumberOf(text: seq<Byte>): (r: Option<Json>)
    ensures r.Some? ==> WellFormed(r.value) && Print(r.value) == text
  {
    if Decimal(IntegerOf(text)) == text then Some(Int(IntegerOf(text)))
    else if FloatText(text) then Some(Float(text))
    else None
  }

  lemma IntegerReads(n: int)
    ensures NumberOf(Decimal(n)) == Some(Int(n))
  {
    DigitsAreDigits(if n < 0 then -n else n);
    DigitsValue(if n < 0 then -n else n);
    if n < 0 {
      assert Decimal(n)[1..] == Digits(-n);
    } else {
      assert Digit(Digits(n)[0]);
    }
  }

  lemma DecimalIsSignAndDigits(n: int)
    ensures var text := Decimal(n);
            text != [] && AllDigits(if text[0] == 0x2D then text[1..] else text)
  {
    DigitsAreDigits(if n < 0 then -n else n);
    if n < 0 {
      assert Decimal(n)[1..] == Digits(-n);
    }
  }

  lemma FloatIsNotDecimal(text: seq<Byte>, n: int)
    requires FloatText(text)
    ensures Decimal(n) != text
  {
    DecimalIsSignAndDigits(n);
  }

  lemma FloatReads(text: seq<Byte>)
    requires FloatText(text)
    ensures NumberOf(text) == Some(Float(text))
  {
    FloatIsNotDecimal(text, IntegerOf(text));
  }

  function NumeralRun(b: seq<Byte>): (k: nat)
    ensures k <= |b|
    ensures forall i :: 0 <= i < k ==> NumeralByte(b[i])
    ensures k < |b| ==> !NumeralByte(b[k])
  {
    if b == [] || !NumeralByte(b[0]) then 0 else 1 + NumeralRun(b[1..])
  }

  function ReadNumber(b: seq<Byte>): (r: Read<Json>)
    ensures r.Got? ==> WellFormed(r.value) && b == Print(r.value) + r.rest && |r.rest| < |b|
  {
    var k := NumeralRun(b);
    var number := if k == 0 then None else NumberOf(b[..k]);
    if number.None? then Fail else Got(number.value, b[k..])
  }

  /** What may follow a value. */
  predicate Delimited(x: seq<Byte>) {
    x == [] || x[0] == 0x2C || x[0] == 0x5D || x[0] == 0x7D
  }

  lemma NumeralSpan(text: seq<Byte>, x: seq<Byte>)
    requires Numeral(text) && Delimited(x)
    ensures NumeralRun(text + x) == |text|
    ensures (text + x)[..|text|] == text && (text + x)[|text|..] == x
  {
    var b := text + x;
    assert forall i :: 0 <= i < |text| ==> b[i] == text[i];
    if x != [] {
      assert b[|text|] == x[0];
    }
  }

  lemma NumberReads(j: Json, x: seq<Byte>)
    requires (j.Int? || j.Float?) && WellFormed(j) && Delimited(x)
    ensures ReadNumber(Print(j) + x) == Got(j, x)
  {
    match j
    case Int(n) =>
      DecimalNumeral(n);
      NumeralSpan(Decimal(n), x);
      IntegerReads(n);
    case Float(text) =>
      FloatNumeral(text);
      NumeralSpan(text, x);
      FloatReads(text);
  }

  // ---------- values ----------

  function ReadWord(b: seq<Byte>, j: Json): (r: Read<Json>)
    requires j.Null? || j.Bool?
    ensures r.Got? ==> r.value == j && b == Print(j) + r.rest && |r.rest| < |b|
  {
    if Print(j) <= b then Got(j, b[|Print(j)|..]) else Fail
  }

  lemma WordReads(j: Json, x: seq<Byte>)
    requires j.Null? || j.Bool?
    ensures ReadWord(Print(j) + x, j) == Got(j, x)
  {
    assert (Print(j) + x)[|Print(j)|..] == x;
  }

  function ReadValue(b: seq<Byte>): (r: Read<Json>)
    ensures r.Got? ==> WellFormed(r.value) && b == Print(r.value) + r.rest && |r.rest| < |b|
    decreases |b|, 1
  {
    if b == [] then Fail
    else if b[0] == 0x6E then ReadWord(b, Null)
    else if b[0] == 0x74 then ReadWord(b, Bool(true))
    else if b[0] == 0x66 then ReadWord(b, Bool(false))
    else if b[0] == 0x22 then ReadText(b)
    else if b[0] == 0x5B then ReadArray(b)
    else if b[0] == 0x7B then ReadObject(b)
    else ReadNumber(b)
  }

  function ReadText(b: seq<Byte>): (r: Read<Json>)
    ensures r.Got? ==> WellFormed(r.value) && b == Print(r.value) + r.rest && |r.rest| < |b|
  {
    var text := ReadQuoted(b);
    if text.Fail? then Fail else Got(Str(text.value), text.rest)
  }

  function ReadArray(b: seq<Byte>): (r: Read<Json>)
    requires b != [] && b[0] == 0x5B
    ensures r.Got? ==> WellFormed(r.value) && b == Print(r.value) + r.rest && |r.rest| < |b|
    decreases |b|, 0
  {
    assert b == [0x5B] + b[1..];
    if |b| >= 2 && b[1] == 0x5D then
      assert b == [0x5B, 0x5D] + b[2..];
      Got(Arr(NoItems), b[2..])
    else
      var head := ReadValue(b[1..]);
      if head.Fail? then Fail
      else
        var tail := ReadItems(head.rest);
        if tail.Fail? then Fail
        else
          ElementAfter(0x5B, head.value, tail.value, tail.rest);
          Got(Arr(Item(head.value, tail.value)), tail.rest)
  }

  function ReadItems(b: seq<Byte>): (r: Read<Items>)
    ensures r.Got? ==> WellFormedItems(r.value) && b == PrintItems(r.value) + r.rest && |r.rest| < |b|
    decreases |b|, 0
  {
    if b == [] then Fail
    else if b[0] == 0x5D then
      assert b == [0x5D] + b[1..];
      Got(NoItems, b[1..])
    else if b[0] == 0x2C then
      assert b == [0x2C] + b[1..];
      var head := ReadValue(b[1..]);
      if head.Fail? then Fail
      else
        var tail := ReadItems(head.rest);
        if tail.Fail? then Fail
        else
          ElementAfter(0x2C, head.value, tail.value, tail.rest);
          Got(Item(head.value, tail.value), tail.rest)
    else Fail
  }

  lemma ElementAfter(open: Byte, head: Json, tail: Items, x: seq<Byte>)
    ensures [open] + (Print(head) + PrintItems(tail)) + x == [open] + (Print(head) + (PrintItems(tail) + x))
  {
    Regroup([open], Print(head) + PrintItems(tail), x);
    Regroup(Print(head), PrintItems(tail), x);
  }

  /** A member, the members after it and the closing brace. */
  function Members(f: Fields, x: seq<Byte>): seq<Byte>
    requires f.Field?
  {
    Member(f.key, Print(f.value), PrintFields(f.rest) + x)
  }

  lemma MembersAfter(open: Byte, f: Fields, x: seq<Byte>)
    requires f.Field?
    ensures [open] + Member(f.key, Print(f.value), PrintFields(f.rest)) + x == [open] + Members(f, x)
  {
    var value, after := Print(f.value), PrintFields(f.rest);
    Regroup(value, after, x);
    Regroup([0x3A], value + after, x);
    Regroup(Quoted(f.key), [0x3A] + (value + after), x);
    Regroup([open], Member(f.key, value, after), x);
  }

  function ReadObject(b: seq<Byte>): (r: Read<Json>)
    requires b != [] && b[0] == 0x7B
    ensures r.Got? ==> WellFormed(r.value) && b == Print(r.value) + r.rest && |r.rest| < |b|
    decreases |b|, 0
  {
    assert b == [0x7B] + b[1..];
    if |b| >= 2 && b[1] == 0x7D then
      assert b == [0x7B, 0x7D] + b[2..];
      Got(Obj(NoFields), b[2..])
    else
      var fields := ReadMembers(b[1..]);
      if fields.Fail? then Fail
      else
        MembersAfter(0x7B, fields.value, fields.rest);
        Got(Obj(fields.value), fields.rest)
  }

  function ReadMembers(b: seq<Byte>): (r: Read<Fields>)
    ensures r.Got? ==> r.value.Field? && WellFormedFields(r.value) && b == Members(r.value, r.rest) && |r.rest| < |b|
    decreases |b|, 0
  {
    var key := ReadQuoted(b);
    if key.Fail? || key.rest == [] || key.rest[0] != 0x3A then Fail
    else
      assert key.rest == [0x3A] + key.rest[1..];
      var value := ReadValue(key.rest[1..]);
      if value.Fail? then Fail
      else
        var more := ReadFields(key.value, value.rest);
        if more.Fail? then Fail
        else Got(Field(key.value, value.value, more.value), more.rest)
  }

  function ReadFields(previous: seq<Unit>, b: seq<Byte>): (r: Read<Fields>)
    ensures r.Got? ==> WellFormedFields(r.value) && b == PrintFields(r.value) + r.rest && |r.rest| < |b|
    ensures r.Got? && r.value.Field? ==> KeyBefore(previous, r.value.key)
    decreases |b|, 0
  {
    if b == [] then Fail
    else if b[0] == 0x7D then
      assert b == [0x7D] + b[1..];
      Got(NoFields, b[1..])
    else if b[0] == 0x2C then
      assert b == [0x2C] + b[1..];
      var fields := ReadMembers(b[1..]);
      if fields.Fail? || !KeyBefore(previous, fields.value.key) then Fail
      else
        MembersAfter(0x2C, fields.value, fields.rest);
        fields
    else Fail
  }

  // ---------- everything printed is read ----------

  /** The first byte decides how a value is read. */
  lemma Dispatch(b: seq<Byte>)
    requires b != []
    ensures b[0] == 0x6E ==> ReadValue(b) == ReadWord(b, Null)
    ensures b[0] == 0x74 ==> ReadValue(b) == ReadWord(b, Bool(true))
    ensures b[0] == 0x66 ==> ReadValue(b) == ReadWord(b, Bool(false))
    ensures b[0] == 0x22 ==> ReadValue(b) == ReadText(b)
    ensures b[0] == 0x5B ==> ReadValue(b) == ReadArray(b)
    ensures b[0] == 0x7B ==> ReadValue(b) == ReadObject(b)
    ensures b[0] == 0x2D || Digit(b[0]) ==> ReadValue(b) == ReadNumber(b)
  {
  }

  lemma FirstByte(j: Json, x: seq<Byte>)
    requires WellFormed(j)
    ensures Print(j) != [] && (Print(j) + x)[0] == Print(j)[0] != 0x5D
    ensures j.Int? || j.Float? ==> Print(j)[0] == 0x2D || Digit(Print(j)[0])
  {
    match j
    case Int(n) => DecimalNumeral(n);
    case Float(text) => FloatNumeral(text);
    case _ =>
  }

  lemma PlainValueReads(j: Json, x: seq<Byte>)
    requires WellFormed(j) && Delimited(x) && !j.Arr? && !j.Obj?
    ensures ReadValue(Print(j) + x) == Got(j, x)
  {
    FirstByte(j, x);
    Dispatch(Print(j) + x);
    match j
    case Null => WordReads(j, x);
    case Bool(_) => WordReads(j, x);
    case Int(_) => NumberReads(j, x);
    case Float(_) => NumberReads(j, x);
    case Str(chars) => QuotedRead(chars, x);
  }

  lemma {:induction false} ValueReads(j: Json, x: seq<Byte>)
    requires WellFormed(j) && Delimited(x)
    ensures ReadValue(Print(j) + x) == Got(j, x)
    decreases j, 1
  {
    if !j.Arr? && !j.Obj? {
      PlainValueReads(j, x);
    } else {
      FirstByte(j, x);
      Dispatch(Print(j) + x);
      if j.Arr? { ArrayReads(j.items, x); } else { ObjectReads(j.fields, x); }
    }
  }

  lemma {:induction false} ArrayReads(items: Items, x: seq<Byte>)
    requires WellFormedItems(items)
    ensures ReadArray(Print(Arr(items)) + x) == Got(Arr(items), x)
    decreases items, 1
  {
    var b := Print(Arr(items)) + x;
    match items
    case NoItems => assert b[2..] == x;
    case Item(head, tail) =>
      ElementAfter(0x5B, head, tail, x);
      assert b[1..] == Print(head) + (PrintItems(tail) + x);
      FirstByte(head, PrintItems(tail) + x);
      ValueReads(head, PrintItems(tail) + x);
      ItemsRead(tail, x);
  }

  lemma {:induction false} ItemsRead(items: Items, x: seq<Byte>)
    requires WellFormedItems(items)
    ensures ReadItems(PrintItems(items) + x) == Got(items, x)
    decreases items, 0
  {
    var b := PrintItems(items) + x;
    match items
    case NoItems => assert b[1..] == x;
    case Item(head, tail) =>
      ElementAfter(0x2C, head, tail, x);
      assert b[1..] == Print(head) + (PrintItems(tail) + x);
      ValueReads(head, PrintItems(tail) + x);
      ItemsRead(tail, x);
  }

  lemma {:induction false} ObjectReads(fields: Fields, x: seq<Byte>)
    requires WellFormedFields(fields)
    ensures ReadObject(Print(Obj(fields)) + x) == Got(Obj(fields), x)
    decreases fields, 2
  {
    var b := Print(Obj(fields)) + x;
    if fields.NoFields? {
      assert b[2..] == x;
    } else {
      MembersAfter(0x7B, fields, x);
      assert b[1..] == Members(fields, x);
      assert b[1] == 0x22;
      MembersRead(fields, x);
    }
  }

  lemma {:induction false} MembersRead(fields: Fields, x: seq<Byte>)
    requires fields.Field? && WellFormedFields(fields)
    ensures ReadMembers(Members(fields, x)) == Got(fields, x)
    decreases fields, 0
  {
    var value := Print(fields.value) + (PrintFields(fields.rest) + x);
    QuotedRead(fields.key, [0x3A] + value);
    assert ([0x3A] + value)[1..] == value;
    ValueReads(fields.value, PrintFields(fields.rest) + x);
    FieldsRead(fields.key, fields.rest, x);
  }

  lemma {:induction false} FieldsRead(previous: seq<Unit>, fields: Fields, x: seq<Byte>)
    requires WellFormedFields(fields) && (fields.Field? ==> KeyBefore(previous, fields.key))
    ensures ReadFields(previous, PrintFields(fields) + x) == Got(fields, x)
    decreases fields, 1
  {
    var b := PrintFields(fields) + x;
    if fields.NoFields? {
      assert b[1..] == x;
    } else {
      MembersAfter(0x2C, fields, x);
      assert b[1..] == Members(fields, x);
      MembersRead(fields, x);
    }
  }

  // ---------- whole texts ----------

  function ReadJson(b: seq<Byte>): Option<Json> {
    var r := ReadValue(b);
    if r.Got? && r.rest == [] then Some(r.value) else None
  }

  /** Reading is exactly the inverse of printing on well-formed values. */
  lemma ReadsExactlyThePrinted(b: seq<Byte>, j: Json)
    ensures ReadJson(b) == Some(j) <==> WellFormed(j) && Print(j) == b
  {
    if ReadJson(b) == Some(j) {
      assert Print(j) + [] == Print(j);
    } else if WellFormed(j) && Print(j) == b {
      assert Print(j) + [] == b;
      ValueReads(j, []);
    }
  }

  /** Canonical text has one reading. */
  lemma TextDeterminesValue(j: Json, k: Json)
    requires WellFormed(j) && WellFormed(k) && Print(j) == Print(k)
    ensures j == k
  {
    ReadsExactlyThePrinted(Print(j), j);
    ReadsExactlyThePrinted(Print(k), k);
  }

  lemma NotANumber(text: seq<Byte>)
    requires Numeral(text) && NumberOf(text) == None
    ensures ReadJson(text) == None
  {
    NumeralSpan(text, []);
    assert text + [] == text;
    Dispatch(text);
  }

  /** A lone sign, two numerals run together and a leading zero are no canonical texts. */
  lemma StrayNumeralsAreRefused()
    ensures ReadJson([0x2D]) == None
    ensures ReadJson([0x31, 0x2D, 0x32]) == None
    ensures ReadJson([0x30, 0x31]) == None
  {
    var sign: seq<Byte>, run: seq<Byte>, zero: seq<Byte> := [0x2D], [0x31, 0x2D, 0x32], [0x30, 0x31];
    DecimalIsSignAndDigits(IntegerOf(sign));
    assert !FloatText(sign);
    NotANumber(sign);
    DecimalIsSignAndDigits(IntegerOf(run));
    assert !Digit(run[1]);
    assert DigitRun(run) == 1;
    NotANumber(run);
    assert zero[..1] == [0x30] && Value(zero[..1]) == 0;
    assert IntegerOf(zero) == 1 && Decimal(1) == [0x31];
    NotANumber(zero);
  }
}
