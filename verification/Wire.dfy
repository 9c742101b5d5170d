/** The protocol frames as canonical JSON lines, and the child's writer and the parent's
    reader put together over them. */
module Wire {
  import opened Basics
  import opened Framing
  import opened Json
  import opened JsonReader
  import opened Automaton
  import opened Failures
  import opened Protocol
  import opened Emissions

  datatype Document = Document(schema: seq<Unit>, version: int, payload: Json)

  /** What stays abstract of the parent's decoder: which numerals with a fraction or exponent are
      the printed form of their own floating-point value, whether bytes that are not canonical
      text are refused for their nesting, and what its document validator admits beyond the shape
      of a document and texts without lone surrogates. */
  datatype Profile = Profile(
    depth: nat, canonicalFloat: seq<Byte> -> bool, tooDeep: seq<Byte> -> bool, admits: Document -> bool)

  predicate FloatsCanonical(j: Json, p: Profile) {
    match j
    case Float(text) => p.canonicalFloat(text)
    case Arr(items) => ItemFloatsCanonical(items, p)
    case Obj(fields) => FieldFloatsCanonical(fields, p)
    case _ => true
  }

  predicate ItemFloatsCanonical(items: Items, p: Profile) {
    items.Item? ==> FloatsCanonical(items.head, p) && ItemFloatsCanonical(items.tail, p)
  }

  predicate FieldFloatsCanonical(fields: Fields, p: Profile) {
    fields.Field? ==> FloatsCanonical(fields.value, p) && FieldFloatsCanonical(fields.rest, p)
  }

  /** No text of the value holds a lone surrogate. */
  predicate TextsPaired(j: Json) {
    match j
    case Str(chars) => Paired(chars)
    case Arr(items) => ItemTextsPaired(items)
    case Obj(fields) => FieldTextsPaired(fields)
    case _ => true
  }

  predicate ItemTextsPaired(items: Items) {
    items.Item? ==> TextsPaired(items.head) && ItemTextsPaired(items.tail)
  }

  predicate FieldTextsPaired(fields: Fields) {
    fields.Field? ==> Paired(fields.key) && TextsPaired(fields.value) && FieldTextsPaired(fields.rest)
  }

  // ---------- frames as JSON ----------

  function Key(s: string): (k: seq<Unit>)
    ensures |k| == |s| && forall i :: 0 <= i < |k| ==> k[i] < 0x80
  {
    seq(|s|, i requires 0 <= i < |s| => if s[i] as int < 0x80 then s[i] as int else 0x3F)
  }

  function DocumentJson(d: Document): Json {
    Obj(Field(Key("payload"), d.payload,
        Field(Key("schema"), Str(d.schema),
        Field(Key("schema_version"), Int(d.version), NoFields))))
  }

  function ToJson(f: Frame<Document>): Json {
    match f
    case Prelude(id) =>
      Obj(Field(Key("kind"), Str(Key("prelude")),
          Field(Key("request_id_sha256"), Str(id),
          Field(Key("version"), Int(1), NoFields))))
    case Output(sequence, document) =>
      Obj(Field(Key("document"), DocumentJson(document),
          Field(Key("kind"), Str(Key("output")),
          Field(Key("sequence"), Int(sequence),
          Field(Key("version"), Int(1), NoFields)))))
    case Complete(count) =>
      Obj(Field(Key("kind"), Str(Key("complete")),
          Field(Key("output_count"), Int(count),
          Field(Key("version"), Int(1), NoFields))))
  }

  /** A SHA-256 digest in lowercase hexadecimal. */
  predicate Digest(id: seq<Byte>) {
    |id| == 64 && forall i :: 0 <= i < |id| ==> 0x30 <= id[i] <= 0x39 || 0x61 <= id[i] <= 0x66
  }

  /** What the parent accepts as a document. */
  predicate ValidDocument(d: Document, p: Profile) {
    && WellFormed(d.payload) && FloatsCanonical(d.payload, p)
    && Paired(d.schema) && TextsPaired(d.payload) && p.admits(d)
  }

  predicate ValidFrame(f: Frame<Document>, p: Profile) {
    match f
    case Prelude(id) => Digest(id)
    case Output(_, document) => ValidDocument(document, p)
    case Complete(_) => true
  }

  /** The frame stands for values that have a canonical text. */
  predicate Representable(f: Frame<Document>) {
    f.Output? ==> WellFormed(f.document.payload)
  }

  function Encode(f: Frame<Document>): seq<Byte> {
    Print(ToJson(f))
  }

  // ---------- frames are well-formed values ----------

  lemma {:induction false} AsciiCodePoints(s: seq<Unit>)
    requires forall i :: 0 <= i < |s| ==> s[i] < 0x80
    ensures CodePoints(s) == s
  {
    if s != [] {
      AsciiCodePoints(s[1..]);
    }
  }

  lemma {:induction false} LongerAfter(a: seq<int>, b: seq<int>)
    requires b != []
    ensures Lexicographic(a, a + b)
  {
    if a != [] {
      assert (a + b)[0] == a[0] && (a + b)[1..] == a[1..] + b;
      LongerAfter(a[1..], b);
    }
  }

  lemma KeyBeforeByText(a: string, b: string)
    ensures KeyBefore(Key(a), Key(b)) <==> Lexicographic(Key(a), Key(b))
  {
    AsciiCodePoints(Key(a));
    AsciiCodePoints(Key(b));
  }

  lemma DocumentKeysInOrder()
    ensures KeyBefore(Key("payload"), Key("schema")) && KeyBefore(Key("schema"), Key("schema_version"))
  {
    KeyBeforeByText("payload", "schema");
    KeyBeforeByText("schema", "schema_version");
    assert Key("schema_version") == Key("schema") + Key("_version");
    LongerAfter(Key("schema"), Key("_version"));
  }

  lemma FrameKeysInOrder()
    ensures KeyBefore(Key("kind"), Key("request_id_sha256")) && KeyBefore(Key("request_id_sha256"), Key("version"))
    ensures KeyBefore(Key("document"), Key("kind")) && KeyBefore(Key("kind"), Key("sequence"))
    ensures KeyBefore(Key("sequence"), Key("version"))
    ensures KeyBefore(Key("kind"), Key("output_count")) && KeyBefore(Key("output_count"), Key("version"))
  {
    KeyBeforeByText("kind", "request_id_sha256");
    KeyBeforeByText("request_id_sha256", "version");
    KeyBeforeByText("document", "kind");
    KeyBeforeByText("kind", "sequence");
    KeyBeforeByText("sequence", "version");
    KeyBeforeByText("kind", "output_count");
    KeyBeforeByText("output_count", "version");
  }

  lemma Prepend(key: seq<Unit>, value: Json, rest: Fields)
    requires WellFormed(value) && WellFormedFields(rest)
    requires rest.Field? ==> KeyBefore(key, rest.key)
    ensures WellFormedFields(Field(key, value, rest))
  {
  }

  lemma DocumentWellFormed(d: Document)
    requires WellFormed(d.payload)
    ensures WellFormed(DocumentJson(d))
  {
    DocumentKeysInOrder();
    var f1 := Field(Key("schema_version"), Int(d.version), NoFields);
    var f2 := Field(Key("schema"), Str(d.schema), f1);
    Prepend(Key("schema_version"), Int(d.version), NoFields);
    Prepend(Key("schema"), Str(d.schema), f1);
    Prepend(Key("payload"), d.payload, f2);
  }

  lemma VersionWellFormed(key: seq<Unit>, value: Json)
    requires WellFormed(value) && KeyBefore(key, Key("version"))
    ensures WellFormedFields(Field(key, value, Field(Key("version"), Int(1), NoFields)))
  {
    Prepend(Key("version"), Int(1), NoFields);
    Prepend(key, value, Field(Key("version"), Int(1), NoFields));
  }

  lemma PreludeWellFormed(id: seq<Byte>)
    ensures WellFormed(ToJson(Prelude(id)))
  {
    FrameKeysInOrder();
    VersionWellFormed(Key("request_id_sha256"), Str(id));
    Prepend(Key("kind"), Str(Key("prelude")), ToJson(Prelude(id)).fields.rest);
  }

  lemma OutputWellFormed(n: nat, d: Document)
    requires WellFormed(d.payload)
    ensures WellFormed(ToJson(Output(n, d)))
  {
    FrameKeysInOrder();
    DocumentWellFormed(d);
    var fields := ToJson(Output(n, d)).fields;
    VersionWellFormed(Key("sequence"), Int(n));
    Prepend(Key("kind"), Str(Key("output")), fields.rest.rest);
    Prepend(Key("document"), DocumentJson(d), fields.rest);
  }

  lemma CompleteWellFormed(count: nat)
    ensures WellFormed(ToJson(Complete(count)))
  {
    FrameKeysInOrder();
    VersionWellFormed(Key("output_count"), Int(count));
    Prepend(Key("kind"), Str(Key("complete")), ToJson(Complete(count)).fields.rest);
  }

  lemma JsonWellFormed(f: Frame<Document>)
    requires Representable(f)
    ensures WellFormed(ToJson(f))
  {
    match f
    case Prelude(id) => PreludeWellFormed(id);
    case Output(sequence, document) => OutputWellFormed(sequence, document);
    case Complete(count) => CompleteWellFormed(count);
  }

  lemma PrependFloats(key: seq<Unit>, value: Json, rest: Fields, p: Profile)
    requires FloatsCanonical(value, p) && FieldFloatsCanonical(rest, p)
    ensures FieldFloatsCanonical(Field(key, value, rest), p)
  {
  }

  lemma FloatsOfADocument(d: Document, p: Profile)
    requires FloatsCanonical(d.payload, p)
    ensures FloatsCanonical(DocumentJson(d), p)
  {
    var f1 := Field(Key("schema_version"), Int(d.version), NoFields);
    var f2 := Field(Key("schema"), Str(d.schema), f1);
    PrependFloats(Key("schema_version"), Int(d.version), NoFields, p);
    PrependFloats(Key("schema"), Str(d.schema), f1, p);
    PrependFloats(Key("payload"), d.payload, f2, p);
  }

  lemma FloatsOfAFrameWith(f: Frame<Document>, p: Profile)
    requires f.Output? ==> FloatsCanonical(DocumentJson(f.document), p)
    ensures FloatsCanonical(ToJson(f), p)
  {
    var f1 := ToJson(f).fields;
    if f.Output? {
      PrependFloats(f1.rest.rest.key, f1.rest.rest.value, f1.rest.rest.rest, p);
    }
    PrependFloats(f1.rest.key, f1.rest.value, f1.rest.rest, p);
    PrependFloats(f1.key, f1.value, f1.rest, p);
  }

  lemma FloatsOfAFrame(f: Frame<Document>, p: Profile)
    requires ValidFrame(f, p)
    ensures FloatsCanonical(ToJson(f), p)
  {
    if f.Output? {
      FloatsOfADocument(f.document, p);
    }
    FloatsOfAFrameWith(f, p);
  }

  lemma EncodingHasNoLF(f: Frame<Document>)
    requires Representable(f)
    ensures LFFree(Encode(f))
  {
    JsonWellFormed(f);
    PrintPrintable(ToJson(f));
  }

  // ---------- decoding ----------

  function BytesOf(s: seq<Unit>): seq<Byte> {
    seq(|s|, i requires 0 <= i < |s| => if s[i] < 256 then s[i] else 0)
  }

  function GuessDocument(j: Json): Option<Document> {
    match j
    case Obj(Field(_, payload, Field(_, Str(schema), Field(_, Int(version), _)))) =>
      Some(Document(schema, version, payload))
    case _ => None
  }

  /** The only frame a value can stand for. */
  function Guess(j: Json): Option<Frame<Document>> {
    match j
    case Obj(Field(_, first, Field(_, second, Field(_, third, _)))) =>
      if first.Str? && second.Str? then Some(Prelude(BytesOf(second.chars)))
      else if second.Int? && second.number >= 0 then Some(Complete(second.number))
      else if third.Int? && third.number >= 0 && GuessDocument(first).Some? then
        Some(Output(third.number, GuessDocument(first).value))
      else None
    case _ => None
  }

  function FrameOf(j: Json, p: Profile): Option<Frame<Document>> {
    var guess := Guess(j);
    if guess.Some? && ToJson(guess.value) == j && ValidFrame(guess.value, p) then guess else None
  }

  /** `require_canonical_json_bytes`: the value whose canonical text the bytes are. */
  function ReadCanonical(bytes: seq<Byte>, p: Profile): Option<Json> {
    var value := ReadJson(bytes);
    if value.Some? && FloatsCanonical(value.value, p) then value else None
  }

  /** `decode_frame`: canonical text, within the depth budget, of a valid frame. */
  function DecodeFrame(bytes: seq<Byte>, p: Profile): Decoded<Document> {
    var value := ReadCanonical(bytes, p);
    if value.None? then Bad(if p.tooDeep(bytes) then Oversized else Malformed)
    else if Depth(value.value) > p.depth then Bad(Oversized)
    else
      var frame := FrameOf(value.value, p);
      if frame.None? then Bad(Malformed) else Good(frame.value)
  }

  /** Bytes are read exactly when they are the canonical text of a value, numbers included. */
  lemma ReadsExactlyCanonicalText(bytes: seq<Byte>, p: Profile, j: Json)
    ensures ReadCanonical(bytes, p) == Some(j) <==> WellFormed(j) && FloatsCanonical(j, p) && Print(j) == bytes
  {
    ReadsExactlyThePrinted(bytes, j);
  }

  lemma GuessesItsFrame(f: Frame<Document>)
    ensures Guess(ToJson(f)) == Some(f)
  {
    match f
    case Prelude(id) => assert BytesOf(id) == id;
    case Output(_, document) =>
    case Complete(_) =>
  }

  /** Decoding is exactly the inverse of encoding on the frames the depth budget admits. */
  lemma DecodesExactlyItsEncoding(bytes: seq<Byte>, p: Profile, f: Frame<Document>)
    ensures DecodeFrame(bytes, p) == Good(f)
            <==> ValidFrame(f, p) && bytes == Encode(f) && Depth(ToJson(f)) <= p.depth
  {
    ReadsExactlyThePrinted(bytes, ToJson(f));
    if DecodeFrame(bytes, p) == Good(f) {
      assert ReadJson(bytes) == Some(ToJson(f));
    } else if ValidFrame(f, p) {
      JsonWellFormed(f);
      FloatsOfAFrame(f, p);
      GuessesItsFrame(f);
    }
  }

  /** A text that is not canonical is refused, as malformed unless its nesting is at fault. */
  lemma NonCanonicalTextIsRefused(bytes: seq<Byte>, p: Profile)
    requires forall j :: WellFormed(j) && FloatsCanonical(j, p) ==> Print(j) != bytes
    ensures DecodeFrame(bytes, p) == Bad(if p.tooDeep(bytes) then Oversized else Malformed)
  {
    if ReadJson(bytes).Some? {
      ReadsExactlyThePrinted(bytes, ReadJson(bytes).value);
    }
  }

  lemma EncodingDeterminesFrame(f: Frame<Document>, g: Frame<Document>)
    requires Representable(f) && Representable(g) && Encode(f) == Encode(g)
    ensures f == g
  {
    JsonWellFormed(f);
    JsonWellFormed(g);
    TextDeterminesValue(ToJson(f), ToJson(g));
    GuessesItsFrame(f);
    GuessesItsFrame(g);
  }

  /** A canonical frame that the parent's validator refuses is malformed. */
  lemma InvalidFrameIsMalformed(f: Frame<Document>, p: Profile)
    requires Representable(f) && !ValidFrame(f, p) && FloatsCanonical(ToJson(f), p) && Depth(ToJson(f)) <= p.depth
    ensures DecodeFrame(Encode(f), p) == Bad(Malformed)
  {
    JsonWellFormed(f);
    ReadsExactlyCanonicalText(Encode(f), p, ToJson(f));
    GuessesItsFrame(f);
  }

  /** The frame codec of one attempt. */
  function WireCodec(p: Profile): Codec<Document> {
    Codec(f => Encode(f), bytes => DecodeFrame(bytes, p))
  }

  lemma WireCodecSoundOn(bytes: seq<Byte>, p: Profile, f: Frame<Document>)
    ensures SoundOn(WireCodec(p), bytes, f)
  {
    DecodesExactlyItsEncoding(bytes, p, f);
    if Representable(f) {
      EncodingHasNoLF(f);
    }
  }

  lemma WireCodecSound(p: Profile)
    ensures Sound(WireCodec(p))
  {
    forall bytes, f ensures SoundOn(WireCodec(p), bytes, f) {
      WireCodecSoundOn(bytes, p, f);
    }
  }

  predicate FrameFits(f: Frame<Document>, budgets: Budgets, p: Profile) {
    ValidFrame(f, p) && Depth(ToJson(f)) <= p.depth && !Over(budgets.maxFrame, |Encode(f)|)
  }

  /** A frame fits when it is valid, its text keeps the byte budget and its nesting the depth budget. */
  lemma FittingMeans(f: Frame<Document>, budgets: Budgets, p: Profile)
    ensures Fitting(WireCodec(p), f, budgets) <==> FrameFits(f, budgets, p)
  {
    var c := WireCodec(p);
    assert c.encode(f) == Encode(f) && c.decode(Encode(f)) == DecodeFrame(Encode(f), p);
    DecodesExactlyItsEncoding(Encode(f), p, f);
  }

  /** What the budgets ask of an emission: a digest, well-formed documents, every frame within
      the depth and byte budgets, and no more outputs than allowed. */
  lemma WithinBudgetsMeans(budgets: Budgets, p: Profile, id: seq<Byte>, docs: seq<Document>)
    ensures WithinBudgets(WireCodec(p), id, docs, budgets)
            <==> && FrameFits(Prelude(id), budgets, p)
                 && (forall i :: 0 <= i < |docs| ==> FrameFits(Output(i, docs[i]), budgets, p))
                 && FrameFits(Complete(|docs|), budgets, p)
                 && (docs != [] ==> !Over(budgets.maxOutputs, |docs|))
  {
    FittingMeans(Prelude(id), budgets, p);
    FittingMeans(Complete(|docs|), budgets, p);
    forall i | 0 <= i < |docs|
      ensures Fitting(WireCodec(p), Output(i, docs[i]), budgets) <==> FrameFits(Output(i, docs[i]), budgets, p)
    {
      FittingMeans(Output(i, docs[i]), budgets, p);
    }
  }

  // ---------- the reader and the writer ----------

  /** The reader over canonical frames: for every chunking it succeeds exactly on the protocol
      within every budget. */
  method ReadFrames(p: Profile, id: seq<Byte>, budgets: Budgets, stream: seq<Byte>)
      returns (outputs: seq<Document>, received: nat, failure: Option<Code>)
    ensures failure.None?
            <==> Fits(budgets, stream) && exists docs :: Emitted(WireCodec(p), budgets, id, docs, stream)
    ensures failure.None? ==> Emitted(WireCodec(p), budgets, id, outputs, stream) && received == |stream|
    ensures Fits(budgets, stream) ==>
              Result(outputs, failure) == Parse(WireCodec(p).decode, budgets, Begin(id), stream)
    ensures Fits(budgets, stream) && failure.Some? ==>
              Halted(WireCodec(p).decode, budgets, id, outputs, failure.value, stream)
    ensures Fits(budgets, stream) ==>
              forall docs, code :: Halted(WireCodec(p).decode, budgets, id, docs, code, stream) ==>
                outputs == docs && failure == Some(code)
    ensures !Fits(budgets, stream) ==>
              || failure == Some(Oversized)
              || (failure.Some? && Halted(WireCodec(p).decode, budgets, id, outputs, failure.value, stream))
    ensures budgets.maxTotal.Some? ==> received <= budgets.maxTotal.value + 1
  {
    WireCodecSound(p);
    outputs, received, failure := ReadStream(WireCodec(p), id, budgets, stream);
  }

  /** What the child's writer accepts, by its own test; every document it is given has a
      canonical text. */
  function ChildTest(accepts: Document -> bool): Document -> bool {
    (d: Document) => WellFormed(d.payload) && accepts(d)
  }

  lemma WireHonest(p: Profile, f: Frame<Document>)
    requires Representable(f)
    ensures Honest(WireCodec(p), f)
  {
    var c := WireCodec(p);
    assert c.encode(f) == Encode(f) && c.decode(Encode(f)) == DecodeFrame(Encode(f), p);
    EncodingHasNoLF(f);
    if DecodeFrame(Encode(f), p).Good? {
      var g := DecodeFrame(Encode(f), p).frame;
      DecodesExactlyItsEncoding(Encode(f), p, g);
      EncodingDeterminesFrame(f, g);
    }
  }

  lemma WireWriterHonest(p: Profile, accepts: Document -> bool, id: seq<Byte>)
    ensures HonestWriter(WireCodec(p), ChildTest(accepts), id)
  {
    WireHonest(p, Prelude(id));
    forall n: nat ensures Honest(WireCodec(p), Complete(n)) {
      WireHonest(p, Complete(n));
    }
    forall n: nat, d: Document | ChildTest(accepts)(d) ensures Honest(WireCodec(p), Output(n, d)) {
      WireHonest(p, Output(n, d));
    }
  }

  /** The child's bootstrap followed by the parent's reader, for whatever test the child applies:
      success exactly when the driver returned and the parent accepts every written frame. */
  method RoundTrip(
      p: Profile, accepts: Document -> bool, id: seq<Byte>, budgets: Budgets, docs: seq<Document>, completes: bool)
      returns (stream: seq<Byte>, outputs: seq<Document>, failure: Option<Code>)
    ensures var (c, all) := (WireCodec(p), AcceptedDocuments(ChildTest(accepts), docs));
            && (Fits(budgets, stream) ==>
                  Result(outputs, failure) == Replay(c, budgets, Begin(id), Frames(id, all, completes)))
            && (failure.None? <==> completes && Fits(budgets, stream) && WithinBudgets(c, id, all, budgets))
            && (WithinBudgets(c, id, all, budgets) && Fits(budgets, stream) ==>
                  outputs == all && failure == if completes then None else Some(Incomplete))
  {
    WireCodecSound(p);
    WireWriterHonest(p, accepts, id);
    stream, outputs, failure := WriteThenRead(WireCodec(p), ChildTest(accepts), id, budgets, docs, completes);
  }

  /** The child's bootstrap followed by the parent's reader on a proper prefix. */
  method CutRoundTrip(
      p: Profile, accepts: Document -> bool, id: seq<Byte>, budgets: Budgets, docs: seq<Document>, cut: nat)
      returns (stream: seq<Byte>, outputs: seq<Document>, failure: Option<Code>)
    ensures var (c, all) := (WireCodec(p), AcceptedDocuments(ChildTest(accepts), docs));
            var whole := WholeDocuments(c, id, all, cut);
            WithinBudgets(c, id, all, budgets) && cut < |stream| && Fits(budgets, stream[..cut]) ==>
              whole <= |all| && outputs == all[..whole] && failure == Some(Incomplete)
  {
    WireCodecSound(p);
    stream, outputs, failure := WriteCutRead(WireCodec(p), ChildTest(accepts), id, budgets, docs, cut);
  }

  // ---------- documents the child accepts and the parent refuses ----------

  predicate HasLoneSurrogate(d: Document) {
    !Paired(d.schema) || !TextsPaired(d.payload)
  }

  /** The frame of a document with a lone surrogate is malformed, whatever else the parent's
      validator admits. */
  lemma LoneSurrogateIsMalformed(n: nat, d: Document, p: Profile)
    requires WellFormed(d.payload) && FloatsCanonical(d.payload, p) && HasLoneSurrogate(d)
    requires Depth(ToJson(Output(n, d))) <= p.depth
    ensures DecodeFrame(Encode(Output(n, d)), p) == Bad(Malformed)
  {
    FloatsOfADocument(d, p);
    FloatsOfAFrameWith(Output(n, d), p);
    InvalidFrameIsMalformed(Output(n, d), p);
  }

  /** The child's own test admits any string, so it writes such a document. The parent keeps
      what came before it and reports a malformed frame. */
  lemma ParentRefusesWhatTheChildWrites(
      p: Profile, id: seq<Byte>, budgets: Budgets, docs: seq<Document>, k: nat, completes: bool)
    requires k < |docs| && FrameFits(Prelude(id), budgets, p) && !Over(budgets.maxOutputs, k)
    requires forall i :: 0 <= i < k ==> FrameFits(Output(i, docs[i]), budgets, p)
    requires WellFormed(docs[k].payload) && FloatsCanonical(docs[k].payload, p) && HasLoneSurrogate(docs[k])
    requires Depth(ToJson(Output(k, docs[k]))) <= p.depth && !Over(budgets.maxFrame, |Encode(Output(k, docs[k]))|)
    ensures Replay(WireCodec(p), budgets, Begin(id), Frames(id, docs, completes)) == Result(docs[..k], Some(Malformed))
  {
    var c := WireCodec(p);
    assert c.encode(Output(k, docs[k])) == Encode(Output(k, docs[k]));
    LoneSurrogateIsMalformed(k, docs[k], p);
    FittingMeans(Prelude(id), budgets, p);
    forall i | 0 <= i < k ensures Fitting(c, Output(i, docs[i]), budgets) {
      FittingMeans(Output(i, docs[i]), budgets, p);
    }
    RefusedOutputDecides(c, budgets, id, docs, k, completes);
  }

  /** A string that is one lone surrogate. */
  lemma OneSuchDocument(p: Profile)
    ensures var d := Document([], 1, Str([0xD800]));
            WellFormed(d.payload) && FloatsCanonical(d.payload, p) && HasLoneSurrogate(d)
  {
  }
}
