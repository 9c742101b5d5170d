/** The canonical JSON text profile: sorted-key objects, no spaces, ASCII only, control
    characters and non-ASCII text escaped (section 7 of RFC 8259).  Text is modelled by its
    UTF-16 code units, integers by their value, other numbers by their numeral. */
module Json {
  import opened Framing

  type Unit = x: int | 0 <= x < 0x10000 witness 0

  datatype Json =
    | Null
    | Bool(value: bool)
    | Int(number: int)
    | Float(text: seq<Byte>)
    | Str(chars: seq<Unit>)
    | Arr(items: Items)
    | Obj(fields: Fields)

  datatype Items = NoItems | Item(head: Json, tail: Items)

  datatype Fields = NoFields | Field(key: seq<Unit>, value: Json, rest: Fields)

  // ---------- strings ----------

  function Escape(u: Unit): seq<Byte> {
    if u == 0x22 then [0x5C, 0x22]
    else if u == 0x5C then [0x5C, 0x5C]
    else if u == 0x08 then [0x5C, 0x62]
    else if u == 0x0C then [0x5C, 0x66]
    else if u == 0x0A then [0x5C, 0x6E]
    else if u == 0x0D then [0x5C, 0x72]
    else if u == 0x09 then [0x5C, 0x74]
    else if 0x20 <= u <= 0x7E then [u]
    else [0x5C, 0x75, Hex(u / 4096), Hex(u / 256 % 16), Hex(u / 16 % 16), Hex(u % 16)]
  }

  /** The characters and the closing quote. */
  function Chars(s: seq<Unit>): seq<Byte> {
    if s == [] then [0x22] else Escape(s[0]) + Chars(s[1..])
  }

  function Quoted(s: seq<Unit>): seq<Byte> {
    [0x22] + Chars(s)
  }

  // ---------- numbers ----------

  function Digits(n: nat): seq<Byte> {
    if n < 10 then [48 + n] else Digits(n / 10) + [48 + n % 10]
  }

  function Decimal(n: int): seq<Byte> {
    if n < 0 then [0x2D] + Digits(-n) else Digits(n)
  }

  predicate Digit(b: Byte) {
    0x30 <= b <= 0x39
  }

  predicate AllDigits(text: seq<Byte>) {
    forall i :: 0 <= i < |text| ==> Digit(text[i])
  }

  lemma {:induction false} DigitsAreDigits(n: nat)
    ensures Digits(n) != [] && AllDigits(Digits(n))
  {
    if n >= 10 {
      DigitsAreDigits(n / 10);
    }
  }

  /** How many digits a text starts with. */
  function DigitRun(text: seq<Byte>): (k: nat)
    ensures k <= |text| && AllDigits(text[..k])
    ensures k < |text| ==> !Digit(text[k])
  {
    if text == [] || !Digit(text[0]) then 0
    else
      var k := 1 + DigitRun(text[1..]);
      assert text[..k] == [text[0]] + text[1..][..k - 1];
      k
  }

  /** `exp` of section 6 of RFC 8259. */
  predicate Exponent(text: seq<Byte>) {
    && text != [] && (text[0] == 0x65 || text[0] == 0x45)
    && var digits := if |text| >= 2 && (text[1] == 0x2B || text[1] == 0x2D) then text[2..] else text[1..];
       digits != [] && AllDigits(digits)
  }

  /** `frac` and `exp`, at least one of them. */
  predicate FractionOrExponent(text: seq<Byte>) {
    if text != [] && text[0] == 0x2E then
      var k := DigitRun(text[1..]);
      k >= 1 && (text[1 + k..] == [] || Exponent(text[1 + k..]))
    else Exponent(text)
  }

  /** A number of section 6 of RFC 8259 with a fraction or an exponent. */
  predicate FloatText(text: seq<Byte>) {
    var unsigned := if text != [] && text[0] == 0x2D then text[1..] else text;
    var k := DigitRun(unsigned);
    k >= 1 && (unsigned[0] == 0x30 ==> k == 1) && FractionOrExponent(unsigned[k..])
  }

  predicate NumeralByte(b: Byte) {
    Digit(b) || b == 0x2B || b == 0x2D || b == 0x2E || b == 0x45 || b == 0x65
  }

  predicate Numeral(text: seq<Byte>) {
    text != [] && (text[0] == 0x2D || Digit(text[0])) && forall i :: 0 <= i < |text| ==> NumeralByte(text[i])
  }

  lemma DecimalNumeral(n: int)
    ensures Numeral(Decimal(n))
  {
    DigitsAreDigits(if n < 0 then -n else n);
  }

  lemma ExponentNumeral(text: seq<Byte>)
    requires Exponent(text)
    ensures forall i :: 0 <= i < |text| ==> NumeralByte(text[i])
  {
    var skip := if |text| >= 2 && (text[1] == 0x2B || text[1] == 0x2D) then 2 else 1;
    forall i | 0 <= i < |text| ensures NumeralByte(text[i]) {
      if i >= skip { assert Digit(text[skip..][i - skip]); }
    }
  }

  lemma FractionNumeral(text: seq<Byte>)
    requires FractionOrExponent(text)
    ensures forall i :: 0 <= i < |text| ==> NumeralByte(text[i])
  {
    if text[0] == 0x2E {
      var k := DigitRun(text[1..]);
      if text[1 + k..] != [] { ExponentNumeral(text[1 + k..]); }
      forall i | 0 <= i < |text| ensures NumeralByte(text[i]) {
        if 1 <= i <= k { assert Digit(text[1..][..k][i - 1]); }
        else if i > k { assert NumeralByte(text[1 + k..][i - 1 - k]); }
      }
    } else {
      ExponentNumeral(text);
    }
  }

  lemma FloatNumeral(text: seq<Byte>)
    requires FloatText(text)
    ensures Numeral(text)
  {
    var sign := if text[0] == 0x2D then 1 else 0;
    var k := DigitRun(text[sign..]);
    FractionNumeral(text[sign..][k..]);
    forall i | 0 <= i < |text| ensures NumeralByte(text[i]) {
      if sign <= i < sign + k { assert Digit(text[sign..][..k][i - sign]); }
      else if i >= sign + k { assert NumeralByte(text[sign..][k..][i - sign - k]); }
    }
  }

  // ---------- values ----------

  predicate WellFormed(j: Json) {
    match j
    case Float(text) => FloatText(text)
    case Arr(items) => WellFormedItems(items)
    case Obj(fields) => WellFormedFields(fields)
    case _ => true
  }

  predicate WellFormedItems(items: Items) {
    items.Item? ==> WellFormed(items.head) && WellFormedItems(items.tail)
  }

  /** The code points of a text: a surrogate pair is one. */
  function CodePoints(s: seq<Unit>): seq<int> {
    if s == [] then []
    else if |s| >= 2 && 0xD800 <= s[0] < 0xDC00 && 0xDC00 <= s[1] < 0xE000 then
      [0x1_0000 + (s[0] - 0xD800) * 0x400 + (s[1] - 0xDC00)] + CodePoints(s[2..])
    else [s[0]] + CodePoints(s[1..])
  }

  /** Every surrogate is half of a pair, so the text encodes characters. */
  predicate Paired(s: seq<Unit>) {
    if s == [] then true
    else if |s| >= 2 && 0xD800 <= s[0] < 0xDC00 && 0xDC00 <= s[1] < 0xE000 then Paired(s[2..])
    else !(0xD800 <= s[0] < 0xE000) && Paired(s[1..])
  }

  predicate Lexicographic(a: seq<int>, b: seq<int>) {
    if b == [] then false
    else if a == [] then true
    else a[0] < b[0] || (a[0] == b[0] && Lexicographic(a[1..], b[1..]))
  }

  /** Keys are ordered by code point. */
  predicate KeyBefore(a: seq<Unit>, b: seq<Unit>) {
    Lexicographic(CodePoints(a), CodePoints(b))
  }

  /** U+FFFF comes before U+10000, although its code unit comes after both of the pair's. */
  lemma SupplementaryKeysComeLast()
    ensures KeyBefore([0xFFFF], [0xD800, 0xDC00])
  {
    var pair: seq<Unit>, last: seq<Unit> := [0xD800, 0xDC00], [0xFFFF];
    assert pair[2..] == [] && last[1..] == [];
    assert CodePoints(pair) == [0x1_0000] + CodePoints([]);
    assert CodePoints(last) == [0xFFFF] + CodePoints([]);
  }

  predicate WellFormedFields(fields: Fields) {
    fields.Field? ==>
      && WellFormed(fields.value)
      && (fields.rest.Field? ==> KeyBefore(fields.key, fields.rest.key))
      && WellFormedFields(fields.rest)
  }

  /** One member of an object, given the text of its value and what follows it. */
  function Member(key: seq<Unit>, value: seq<Byte>, after: seq<Byte>): seq<Byte> {
    Quoted(key) + ([0x3A] + (value + after))
  }

  function Print(j: Json): seq<Byte> {
    match j
    case Null => [0x6E, 0x75, 0x6C, 0x6C]
    case Bool(value) => if value then [0x74, 0x72, 0x75, 0x65] else [0x66, 0x61, 0x6C, 0x73, 0x65]
    case Int(number) => Decimal(number)
    case Float(text) => text
    case Str(chars) => Quoted(chars)
    case Arr(NoItems) => [0x5B, 0x5D]
    case Arr(Item(head, tail)) => [0x5B] + (Print(head) + PrintItems(tail))
    case Obj(NoFields) => [0x7B, 0x7D]
    case Obj(Field(key, value, rest)) => [0x7B] + Member(key, Print(value), PrintFields(rest))
  }

  /** What follows the first element of an array. */
  function PrintItems(items: Items): seq<Byte> {
    match items
    case NoItems => [0x5D]
    case Item(head, tail) => [0x2C] + (Print(head) + PrintItems(tail))
  }

  /** What follows the first member of an object. */
  function PrintFields(fields: Fields): seq<Byte> {
    match fields
    case NoFields => [0x7D]
    case Field(key, value, rest) => [0x2C] + Member(key, Print(value), PrintFields(rest))
  }

  /** Container nesting. */
  function Depth(j: Json): nat {
    match j
    case Arr(items) => 1 + ItemsDepth(items)
    case Obj(fields) => 1 + FieldsDepth(fields)
    case _ => 0
  }

  function ItemsDepth(items: Items): nat {
    match items
    case NoItems => 0
    case Item(head, tail) => if Depth(head) >= ItemsDepth(tail) then Depth(head) else ItemsDepth(tail)
  }

  function FieldsDepth(fields: Fields): nat {
    match fields
    case NoFields => 0
    case Field(_, value, rest) => if Depth(value) >= FieldsDepth(rest) then Depth(value) else FieldsDepth(rest)
  }

  // ---------- the text is printable ASCII, so it holds no LF ----------

  predicate Printable(b: seq<Byte>) {
    forall i :: 0 <= i < |b| ==> 0x20 <= b[i] <= 0x7E
  }

  lemma EscapePrintable(u: Unit)
    ensures Printable(Escape(u))
  {
  }

  lemma {:induction false} CharsPrintable(s: seq<Unit>)
    ensures Printable(Chars(s))
  {
    if s != [] {
      EscapePrintable(s[0]);
      CharsPrintable(s[1..]);
      PrintableConcat(Escape(s[0]), Chars(s[1..]));
    }
  }

  lemma PrintableConcat(a: seq<Byte>, b: seq<Byte>)
    requires Printable(a) && Printable(b)
    ensures Printable(a + b)
  {
  }

  lemma MemberPrintable(key: seq<Unit>, value: seq<Byte>, after: seq<Byte>)
    requires Printable(value) && Printable(after)
    ensures Printable(Member(key, value, after))
  {
    CharsPrintable(key);
    PrintableConcat(value, after);
    PrintableConcat([0x3A], value + after);
    PrintableConcat(Quoted(key), [0x3A] + (value + after));
  }

  lemma {:induction false} PrintPrintable(j: Json)
    requires WellFormed(j)
    ensures Printable(Print(j))
  {
    match j
    case Int(number) => DecimalNumeral(number);
    case Float(text) => FloatNumeral(text);
    case Str(chars) => CharsPrintable(chars);
    case Arr(Item(head, tail)) =>
      PrintPrintable(head);
      ItemsPrintable(tail);
      PrintableConcat(Print(head), PrintItems(tail));
    case Obj(Field(key, value, rest)) =>
      PrintPrintable(value);
      FieldsPrintable(rest);
      MemberPrintable(key, Print(value), PrintFields(rest));
    case _ =>
  }

  lemma {:induction false} ItemsPrintable(items: Items)
    requires WellFormedItems(items)
    ensures Printable(PrintItems(items))
  {
    if items.Item? {
      PrintPrintable(items.head);
      ItemsPrintable(items.tail);
      PrintableConcat(Print(items.head), PrintItems(items.tail));
    }
  }

  lemma {:induction false} FieldsPrintable(fields: Fields)
    requires WellFormedFields(fields)
    ensures Printable(PrintFields(fields))
  {
    if fields.Field? {
      PrintPrintable(fields.value);
      FieldsPrintable(fields.rest);
      MemberPrintable(fields.key, Print(fields.value), PrintFields(fields.rest));
    }
  }
}
