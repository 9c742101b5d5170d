/** The frames byte by byte, the digests, and every answer of the frame decoder. */
module WireFormat {
  import opened Basics
  import opened Framing
  import opened Automaton
  import opened Json
  import opened JsonReader
  import opened JsonText
  import opened Wire

  /** A name in quotes. */
  predicate Plain(text: string) {
    forall i :: 0 <= i < |text| ==> 0x20 <= text[i] as int <= 0x7E && text[i] != '"' && text[i] != '\\'
  }

  lemma NameText(text: string)
    requires Plain(text)
    ensures Quoted(Key(text)) == Ascii("\"") + Ascii(text) + Ascii("\"")
  {
    TextOfAString(Key(text));
    PlainTextIsItself(Ascii(text));
    assert Key(text) == Ascii(text);
  }

  /** What comes before the value of an object's first member, and of a later one. */
  function First(name: string): seq<Byte> {
    Ascii("{") + (Ascii("\"") + Ascii(name) + Ascii("\"")) + Ascii(":")
  }

  function Later(name: string): seq<Byte> {
    Ascii(",") + (Ascii("\"") + Ascii(name) + Ascii("\"")) + Ascii(":")
  }

  lemma FirstMember(name: string, value: Json, rest: Fields)
    requires Plain(name)
    ensures Print(Obj(Field(Key(name), value, rest))) == First(name) + (Print(value) + PrintFields(rest))
  {
    NameText(name);
    RegroupFour([0x7B], Quoted(Key(name)), [0x3A], Print(value) + PrintFields(rest));
    assert Ascii("{") == [0x7B] && Ascii(":") == [0x3A];
  }

  lemma LaterMember(name: string, value: Json, rest: Fields)
    requires Plain(name)
    ensures PrintFields(Field(Key(name), value, rest)) == Later(name) + (Print(value) + PrintFields(rest))
  {
    NameText(name);
    RegroupFour([0x2C], Quoted(Key(name)), [0x3A], Print(value) + PrintFields(rest));
    assert Ascii(",") == [0x2C] && Ascii(":") == [0x3A];
  }

  lemma LastMember(name: string, value: Json)
    requires Plain(name)
    ensures PrintFields(Field(Key(name), value, NoFields)) == Later(name) + (Print(value) + Ascii("}"))
  {
    LaterMember(name, value, NoFields);
    assert Ascii("}") == [0x7D];
  }

  lemma LastTwoMembers(a: string, x: Json, b: string, y: Json)
    requires Plain(a) && Plain(b)
    ensures PrintFields(Field(Key(a), x, Field(Key(b), y, NoFields)))
         == Later(a) + (Print(x) + (Later(b) + (Print(y) + Ascii("}"))))
  {
    LastMember(b, y);
    LaterMember(a, x, Field(Key(b), y, NoFields));
  }

  /** An object of three named members, or of four with a word as the second, is exactly this text. */
  lemma ThreeMembers(a: string, x: Json, b: string, y: Json, c: string, z: Json)
    requires Plain(a) && Plain(b) && Plain(c)
    ensures Print(Obj(Field(Key(a), x, Field(Key(b), y, Field(Key(c), z, NoFields)))))
         == First(a) + (Print(x) + (Later(b) + (Print(y) + (Later(c) + (Print(z) + Ascii("}"))))))
  {
    LastTwoMembers(b, y, c, z);
    FirstMember(a, x, Field(Key(b), y, Field(Key(c), z, NoFields)));
  }

  lemma FourMembers(a: string, w: Json, b: string, x: Json, c: string, y: Json, d: string, z: Json)
    requires Plain(a) && Plain(b) && Plain(c) && Plain(d)
    ensures Print(Obj(Field(Key(a), w, Field(Key(b), x, Field(Key(c), y, Field(Key(d), z, NoFields))))))
         == First(a) + (Print(w) + (Later(b) + (Print(x)
          + (Later(c) + (Print(y) + (Later(d) + (Print(z) + Ascii("}"))))))))
  {
    var last := Field(Key(c), y, Field(Key(d), z, NoFields));
    LastTwoMembers(c, y, d, z);
    LaterMember(b, x, last);
    FirstMember(a, w, Field(Key(b), x, last));
  }

  function Word(text: string): seq<Byte> {
    Ascii("\"") + Ascii(text) + Ascii("\"")
  }

  lemma WordText(text: string)
    requires Plain(text)
    ensures Print(Str(Key(text))) == Word(text)
  {
    NameText(text);
  }

  lemma DigestText(id: seq<Byte>)
    requires Digest(id)
    ensures Print(Str(id)) == Ascii("\"") + id + Ascii("\"")
  {
    TextOfAString(id);
    PlainTextIsItself(id);
  }

  /** The same with a word as the first or second member, and given texts for the values. */
  lemma WordThenTwo(a: string, word: string, b: string, y: Json, t: seq<Byte>, c: string, z: Json, u: seq<Byte>)
    requires Plain(a) && Plain(word) && Plain(b) && Plain(c) && Print(y) == t && Print(z) == u
    ensures Print(Obj(Field(Key(a), Str(Key(word)), Field(Key(b), y, Field(Key(c), z, NoFields)))))
         == First(a) + (Word(word) + (Later(b) + (t + (Later(c) + (u + Ascii("}"))))))
  {
    WordText(word);
    ThreeMembers(a, Str(Key(word)), b, y, c, z);
  }

  lemma WordAmongFour(a: string, w: Json, s: seq<Byte>, b: string, word: string, c: string, y: Json, t: seq<Byte>,
                      d: string, z: Json, u: seq<Byte>)
    requires Plain(a) && Plain(b) && Plain(word) && Plain(c) && Plain(d)
    requires Print(w) == s && Print(y) == t && Print(z) == u
    ensures Print(Obj(Field(Key(a), w, Field(Key(b), Str(Key(word)), Field(Key(c), y, Field(Key(d), z, NoFields))))))
         == First(a) + (s + (Later(b) + (Word(word) + (Later(c) + (t + (Later(d) + (u + Ascii("}"))))))))
  {
    WordText(word);
    FourMembers(a, w, b, Str(Key(word)), c, y, d, z);
  }

  // ---------- the three frames, and the document in one of them ----------

  lemma PreludeBytes(id: seq<Byte>)
    requires Digest(id)
    ensures Encode(Prelude(id))
         == First("kind") + (Word("prelude") + (Later("request_id_sha256") + ((Ascii("\"") + id + Ascii("\""))
          + (Later("version") + (Decimal(1) + Ascii("}"))))))
  {
    DigestText(id);
    WordThenTwo("kind", "prelude", "request_id_sha256", Str(id), Ascii("\"") + id + Ascii("\""),
                "version", Int(1), Decimal(1));
  }

  lemma CompleteBytes(count: nat)
    ensures Encode(Complete(count))
         == First("kind") + (Word("complete") + (Later("output_count") + (Decimal(count)
          + (Later("version") + (Decimal(1) + Ascii("}"))))))
  {
    WordThenTwo("kind", "complete", "output_count", Int(count), Decimal(count), "version", Int(1), Decimal(1));
  }

  lemma DocumentBytes(d: Document)
    ensures Print(DocumentJson(d))
         == First("payload") + (Print(d.payload) + (Later("schema") + (Quoted(d.schema)
          + (Later("schema_version") + (Decimal(d.version) + Ascii("}"))))))
  {
    ThreeMembers("payload", d.payload, "schema", Str(d.schema), "schema_version", Int(d.version));
  }

  lemma OutputShape(document: Json, text: seq<Byte>, sequence: nat)
    requires Print(document) == text
    ensures Print(Obj(Field(Key("document"), document, Field(Key("kind"), Str(Key("output")),
                      Field(Key("sequence"), Int(sequence), Field(Key("version"), Int(1), NoFields))))))
         == First("document") + (text + (Later("kind") + (Word("output")
          + (Later("sequence") + (Decimal(sequence) + (Later("version") + (Decimal(1) + Ascii("}"))))))))
  {
    WordAmongFour("document", document, text, "kind", "output",
                  "sequence", Int(sequence), Decimal(sequence), "version", Int(1), Decimal(1));
  }

  lemma OutputBytes(sequence: nat, d: Document)
    ensures Encode(Output(sequence, d))
         == First("document") + (Print(DocumentJson(d)) + (Later("kind") + (Word("output")
          + (Later("sequence") + (Decimal(sequence) + (Later("version") + (Decimal(1) + Ascii("}"))))))))
  {
    OutputShape(DocumentJson(d), Print(DocumentJson(d)), sequence);
  }

  // ---------- the decoder's answers ----------

  /** For all bytes: a frame, when they are the canonical text of a valid one within the depth
      budget; oversized, when they are canonical text nested deeper, or refused as too deep;
      malformed otherwise. */
  lemma DecoderAnswers(bytes: seq<Byte>, p: Profile)
    ensures match DecodeFrame(bytes, p)
            case Good(f) => ValidFrame(f, p) && bytes == Encode(f) && Depth(ToJson(f)) <= p.depth
            case Bad(code) =>
              && (forall f :: ValidFrame(f, p) && Depth(ToJson(f)) <= p.depth ==> bytes != Encode(f))
              && (code == Oversized || code == Malformed)
              && (code == Oversized <==> || (CanonicalText(bytes, p) && DepthOf(bytes, p) > p.depth)
                                         || (!CanonicalText(bytes, p) && p.tooDeep(bytes)))
  {
    match DecodeFrame(bytes, p)
    case Good(f) => DecodesExactlyItsEncoding(bytes, p, f);
    case Bad(_) =>
      forall f | ValidFrame(f, p) && Depth(ToJson(f)) <= p.depth ensures bytes != Encode(f) {
        DecodesExactlyItsEncoding(bytes, p, f);
      }
      DepthOfCanonical(bytes, p);
  }

  ghost predicate CanonicalText(bytes: seq<Byte>, p: Profile) {
    exists j :: WellFormed(j) && FloatsCanonical(j, p) && Print(j) == bytes
  }

  /** The nesting of a canonical text. */
  ghost function DepthOf(bytes: seq<Byte>, p: Profile): nat
    requires CanonicalText(bytes, p)
  {
    var j :| WellFormed(j) && FloatsCanonical(j, p) && Print(j) == bytes;
    Depth(j)
  }

  lemma DepthOfCanonical(bytes: seq<Byte>, p: Profile)
    ensures CanonicalText(bytes, p) <==> ReadCanonical(bytes, p).Some?
    ensures CanonicalText(bytes, p) ==> DepthOf(bytes, p) == Depth(ReadCanonical(bytes, p).value)
  {
    if CanonicalText(bytes, p) {
      forall j | WellFormed(j) && FloatsCanonical(j, p) && Print(j) == bytes
        ensures ReadCanonical(bytes, p) == Some(j)
      {
        ReadsExactlyCanonicalText(bytes, p, j);
      }
    }
    if ReadCanonical(bytes, p).Some? {
      ReadsExactlyCanonicalText(bytes, p, ReadCanonical(bytes, p).value);
    }
  }

  // ---------- nesting ----------

  predicate IsPart(j: Json, items: Items) {
    items.Item? && (j == items.head || IsPart(j, items.tail))
  }

  predicate IsValue(j: Json, fields: Fields) {
    fields.Field? && (j == fields.value || IsValue(j, fields.rest))
  }

  ghost predicate PartsWithin(items: Items, n: nat) {
    forall j :: IsPart(j, items) ==> Depth(j) <= n
  }

  lemma PartsOfItem(head: Json, tail: Items, n: nat)
    ensures PartsWithin(Item(head, tail), n) <==> Depth(head) <= n && PartsWithin(tail, n)
  {
    var items := Item(head, tail);
    assert IsPart(head, items);
    assert forall j :: IsPart(j, tail) ==> IsPart(j, items);
    assert forall j :: IsPart(j, items) ==> j == head || IsPart(j, tail);
  }

  lemma {:induction false} PartsAreShallower(items: Items, n: nat)
    ensures ItemsDepth(items) <= n <==> PartsWithin(items, n)
  {
    match items
    case NoItems =>
    case Item(head, tail) =>
      PartsAreShallower(tail, n);
      PartsOfItem(head, tail, n);
  }

  ghost predicate ValuesWithin(fields: Fields, n: nat) {
    forall j :: IsValue(j, fields) ==> Depth(j) <= n
  }

  lemma ValuesOfField(key: seq<Unit>, value: Json, rest: Fields, n: nat)
    ensures ValuesWithin(Field(key, value, rest), n) <==> Depth(value) <= n && ValuesWithin(rest, n)
  {
    var fields := Field(key, value, rest);
    assert IsValue(value, fields);
    assert forall j :: IsValue(j, rest) ==> IsValue(j, fields);
    assert forall j :: IsValue(j, fields) ==> j == value || IsValue(j, rest);
  }

  lemma {:induction false} ValuesAreShallower(fields: Fields, n: nat)
    ensures FieldsDepth(fields) <= n <==> ValuesWithin(fields, n)
  {
    match fields
    case NoFields =>
    case Field(key, value, rest) =>
      ValuesAreShallower(rest, n);
      ValuesOfField(key, value, rest, n);
  }

  /** The nesting is the least bound: a word, a numeral or a string has none, and a container one
      more than its parts. */
  lemma DepthIsNesting(j: Json, n: nat)
    ensures !j.Arr? && !j.Obj? ==> Depth(j) == 0
    ensures j.Arr? ==> (Depth(j) <= n + 1 <==> PartsWithin(j.items, n)) && Depth(j) >= 1
    ensures j.Obj? ==> (Depth(j) <= n + 1 <==> ValuesWithin(j.fields, n)) && Depth(j) >= 1
  {
    if j.Arr? { PartsAreShallower(j.items, n); }
    if j.Obj? { ValuesAreShallower(j.fields, n); }
  }

  /** A digest is 64 lower-case hexadecimal digits. */
  lemma DigestIs(id: seq<Byte>)
    ensures Digest(id) <==> |id| == 64 && forall i :: 0 <= i < |id| ==> LowerHex(id[i])
  {
  }
}
