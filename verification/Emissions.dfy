/** What a protocol writer emits and what the reader makes of it and of its pieces, over
    any sound frame codec. */
module Emissions {
  import opened Basics
  import opened Framing
  import opened Automaton
  import opened Failures
  import opened Protocol

  datatype Codec<!D> = Codec(encode: Frame<D> -> seq<Byte>, decode: seq<Byte> -> Decoded<D>)

  /** Only a frame's own encoding decodes to it, and encodings hold no terminator. */
  ghost predicate Sound<D(!new)>(c: Codec<D>) {
    forall bytes, f :: SoundOn(c, bytes, f)
  }

  predicate SoundOn<D(==)>(c: Codec<D>, bytes: seq<Byte>, f: Frame<D>) {
    c.decode(bytes) == Good(f) ==> bytes == c.encode(f) && LFFree(bytes)
  }

  /** The frame survives the codec and keeps the frame budget. */
  predicate Fitting<D(==)>(c: Codec<D>, f: Frame<D>, budgets: Budgets) {
    c.decode(c.encode(f)) == Good(f) && !Over(budgets.maxFrame, |c.encode(f)|)
  }

  /** The output frames from number `k` on, and the completion frame. */
  function FromOutput<D>(c: Codec<D>, docs: seq<D>, k: nat): seq<Byte>
    requires k <= |docs|
    decreases |docs| - k
  {
    if k == |docs| then Line(c.encode(Complete(|docs|)))
    else Line(c.encode(Output(k, docs[k]))) + FromOutput(c, docs, k + 1)
  }

  function Emission<D>(c: Codec<D>, id: seq<Byte>, docs: seq<D>): seq<Byte> {
    Line(c.encode(Prelude(id))) + FromOutput(c, docs, 0)
  }

  ghost predicate FittingFrom<D>(c: Codec<D>, docs: seq<D>, k: nat, budgets: Budgets) {
    && (forall i :: k <= i < |docs| ==> Fitting(c, Output(i, docs[i]), budgets))
    && Fitting(c, Complete(|docs|), budgets)
    && (k < |docs| ==> !Over(budgets.maxOutputs, |docs|))
  }

  ghost predicate WithinBudgets<D>(c: Codec<D>, id: seq<Byte>, docs: seq<D>, budgets: Budgets) {
    Fitting(c, Prelude(id), budgets) && FittingFrom(c, docs, 0, budgets)
  }

  // ---------- what the automaton still expects ----------

  /** Automaton states that runs can reach. */
  predicate Consistent<D(==)>(p: Progress<D>) {
    !p.preludeSeen ==> p.outputs == [] && !p.completed
  }

  function Expected<D>(c: Codec<D>, p: Progress<D>, docs: seq<D>): seq<Byte>
    requires |p.outputs| <= |docs|
  {
    if p.completed then []
    else if p.preludeSeen then FromOutput(c, docs, |p.outputs|)
    else Line(c.encode(Prelude(p.id))) + FromOutput(c, docs, |p.outputs|)
  }

  ghost predicate Reaches<D>(c: Codec<D>, p: Progress<D>, docs: seq<D>, budgets: Budgets) {
    && p.outputs <= docs
    && (p.completed ==> docs == p.outputs)
    && (!p.completed ==> FittingFrom(c, docs, |p.outputs|, budgets))
    && (!p.preludeSeen ==> Fitting(c, Prelude(p.id), budgets))
  }

  lemma LineOf(bytes: seq<Byte>, i: nat)
    requires i < |bytes| && bytes[i] == LF
    ensures bytes == Line(bytes[..i]) + bytes[i + 1..]
  {
  }

  /** A stream the reader accepts is, byte for byte, what the protocol prescribes. */
  lemma {:induction false} SuccessMeansExpected<D(!new)>(
      c: Codec<D>, budgets: Budgets, p: Progress<D>, bytes: seq<Byte>)
    requires Sound(c) && Consistent(p)
    requires Parse(c.decode, budgets, p, bytes).failure.None?
    ensures var docs := Parse(c.decode, budgets, p, bytes).outputs;
            Reaches(c, p, docs, budgets) && bytes == Expected(c, p, docs)
    decreases |bytes|
  {
    var i := FindLF(bytes);
    if i < |bytes| {
      var frame := c.decode(bytes[..i]).frame;
      LineOf(bytes, i);
      var q := Accept(p, frame, budgets.maxOutputs).progress;
      assert Consistent(q);
      SuccessMeansExpected(c, budgets, q, bytes[i + 1..]);
      DecodedFits(c, bytes[..i], frame, budgets);
      AcceptedStep(c, budgets, p, q, frame, Parse(c.decode, budgets, q, bytes[i + 1..]).outputs);
    }
  }

  lemma DecodedFits<D(!new)>(c: Codec<D>, bytes: seq<Byte>, frame: Frame<D>, budgets: Budgets)
    requires Sound(c) && c.decode(bytes) == Good(frame) && !Over(budgets.maxFrame, |bytes|)
    ensures bytes == c.encode(frame) && Fitting(c, frame, budgets)
  {
    assert SoundOn(c, bytes, frame);
  }

  lemma FittingHasNoLF<D(!new)>(c: Codec<D>, frame: Frame<D>, budgets: Budgets)
    requires Sound(c) && Fitting(c, frame, budgets)
    ensures LFFree(c.encode(frame))
  {
    assert SoundOn(c, c.encode(frame), frame);
  }

  /** One accepted frame, seen from both sides. */
  lemma AcceptedStep<D>(c: Codec<D>, budgets: Budgets, p: Progress<D>, q: Progress<D>, frame: Frame<D>, docs: seq<D>)
    requires Consistent(p) && !p.completed && Accept(p, frame, budgets.maxOutputs) == Accepted(q)
    requires Fitting(c, frame, budgets) && Reaches(c, q, docs, budgets)
    ensures Consistent(q) && Reaches(c, p, docs, budgets)
    ensures Expected(c, p, docs) == Line(c.encode(frame)) + Expected(c, q, docs)
  {
    match frame
    case Prelude(id) =>
    case Output(sequence, document) => assert docs[|p.outputs|] == document;
    case Complete(count) => assert Line(c.encode(frame)) + [] == Line(c.encode(frame));
  }

  /** The frame the automaton is waiting for. */
  function NextFrame<D>(p: Progress<D>, docs: seq<D>): Frame<D>
    requires |p.outputs| <= |docs|
  {
    if !p.preludeSeen then Prelude(p.id)
    else if |p.outputs| == |docs| then Complete(|docs|)
    else Output(|p.outputs|, docs[|p.outputs|])
  }

  lemma NextFits<D>(c: Codec<D>, budgets: Budgets, p: Progress<D>, docs: seq<D>)
    requires Consistent(p) && !p.completed && Reaches(c, p, docs, budgets)
    ensures Fitting(c, NextFrame(p, docs), budgets)
    ensures Accept(p, NextFrame(p, docs), budgets.maxOutputs).Accepted?
    ensures var q := Accept(p, NextFrame(p, docs), budgets.maxOutputs).progress;
            Consistent(q) && Reaches(c, q, docs, budgets)
  {
    if p.preludeSeen && |p.outputs| < |docs| {
      assert p.outputs + [docs[|p.outputs|]] <= docs;
    }
  }

  /** What the protocol prescribes, the reader accepts. */
  lemma {:induction false} ExpectedSucceeds<D(!new)>(c: Codec<D>, budgets: Budgets, p: Progress<D>, docs: seq<D>)
    requires Sound(c) && Consistent(p) && Reaches(c, p, docs, budgets)
    ensures Parse(c.decode, budgets, p, Expected(c, p, docs)) == Result(docs, None)
    decreases |docs| - |p.outputs|, if !p.preludeSeen then 2 else if !p.completed then 1 else 0
  {
    if !p.completed {
      var frame := NextFrame(p, docs);
      NextFits(c, budgets, p, docs);
      var q := Accept(p, frame, budgets.maxOutputs).progress;
      ExpectedSucceeds(c, budgets, q, docs);
      AcceptedStep(c, budgets, p, q, frame, docs);
      FittingHasNoLF(c, frame, budgets);
      ParseLine(c.decode, budgets, p, q, frame, c.encode(frame), Expected(c, q, docs));
    }
  }

  lemma SuccessExactlyOnEmissions<D(!new)>(c: Codec<D>, budgets: Budgets, id: seq<Byte>, bytes: seq<Byte>)
    requires Sound(c)
    ensures Parse(c.decode, budgets, Begin(id), bytes).failure.None?
            <==> exists docs :: WithinBudgets(c, id, docs, budgets) && bytes == Emission(c, id, docs)
  {
    if Parse(c.decode, budgets, Begin(id), bytes).failure.None? {
      SuccessMeansExpected(c, budgets, Begin(id), bytes);
      var docs := Parse(c.decode, budgets, Begin(id), bytes).outputs;
      assert WithinBudgets(c, id, docs, budgets) && bytes == Emission(c, id, docs);
    }
    if docs :| WithinBudgets(c, id, docs, budgets) && bytes == Emission(c, id, docs) {
      ExpectedSucceeds(c, budgets, Begin(id), docs);
    }
  }

  // ---------- truncated streams ----------

  /** How many whole output lines, from number `k` on, lie in the next `n` bytes. */
  function WholeOutputs<D>(c: Codec<D>, docs: seq<D>, k: nat, n: int): nat
    decreases |docs| - k
  {
    if k >= |docs| || n < |Line(c.encode(Output(k, docs[k])))| then 0
    else 1 + WholeOutputs(c, docs, k + 1, n - |Line(c.encode(Output(k, docs[k])))|)
  }

  /** A piece of one line, short of its terminator, is an incomplete stream. */
  lemma CutLine<D(!new)>(c: Codec<D>, budgets: Budgets, p: Progress<D>, frame: Frame<D>, piece: seq<Byte>)
    requires Sound(c) && Fitting(c, frame, budgets) && !p.completed && piece <= c.encode(frame)
    ensures Parse(c.decode, budgets, p, piece) == Result(p.outputs, Some(Incomplete))
  {
    FittingHasNoLF(c, frame, budgets);
  }

  lemma SplitPrefix(piece: seq<Byte>, line: seq<Byte>, rest: seq<Byte>)
    requires piece <= line + rest && |piece| >= |line|
    ensures piece == line + piece[|line|..] && piece[|line|..] <= rest
  {
    assert piece == (line + rest)[..|piece|];
    assert forall i :: 0 <= i < |line| ==> piece[i] == line[i];
    assert piece[|line|..] == rest[..|piece| - |line|];
  }

  lemma CutPiece(piece: seq<Byte>, frame: seq<Byte>, rest: seq<Byte>)
    requires piece <= Line(frame) + rest && |piece| <= |frame|
    ensures piece <= frame
  {
    assert forall i :: 0 <= i < |piece| ==> piece[i] == (Line(frame) + rest)[i] == frame[i];
  }

  lemma PastFirst<D(!new)>(c: Codec<D>, budgets: Budgets, p: Progress<D>, docs: seq<D>, rest: seq<Byte>)
    requires Sound(c) && Consistent(p) && !p.completed && Reaches(c, p, docs, budgets)
    ensures var q := Accept(p, NextFrame(p, docs), budgets.maxOutputs).progress;
            Parse(c.decode, budgets, p, Line(c.encode(NextFrame(p, docs))) + rest) == Parse(c.decode, budgets, q, rest)
  {
    var frame := NextFrame(p, docs);
    NextFits(c, budgets, p, docs);
    FittingHasNoLF(c, frame, budgets);
    ParseLine(c.decode, budgets, p, Accept(p, frame, budgets.maxOutputs).progress, frame, c.encode(frame), rest);
  }

  lemma CutFirst<D(!new)>(c: Codec<D>, budgets: Budgets, p: Progress<D>, docs: seq<D>, piece: seq<Byte>)
    requires Sound(c) && p.preludeSeen && !p.completed && Reaches(c, p, docs, budgets)
    requires piece < FromOutput(c, docs, |p.outputs|)
    requires |p.outputs| == |docs| || |piece| < |Line(c.encode(NextFrame(p, docs)))|
    ensures Parse(c.decode, budgets, p, piece) == Result(docs[..|p.outputs|], Some(Incomplete))
  {
    var k := |p.outputs|;
    var frame := NextFrame(p, docs);
    var rest := if k < |docs| then FromOutput(c, docs, k + 1) else [];
    assert docs[..k] == p.outputs;
    assert FromOutput(c, docs, k) == Line(c.encode(frame)) + rest;
    NextFits(c, budgets, p, docs);
    CutPiece(piece, c.encode(frame), rest);
    CutLine(c, budgets, p, frame, piece);
  }

  lemma {:induction false} CutOutputs<D(!new)>(
      c: Codec<D>, budgets: Budgets, p: Progress<D>, docs: seq<D>, piece: seq<Byte>)
    requires Sound(c) && p.preludeSeen && !p.completed && Reaches(c, p, docs, budgets)
    requires piece < FromOutput(c, docs, |p.outputs|)
    ensures var whole := |p.outputs| + WholeOutputs(c, docs, |p.outputs|, |piece|);
            && whole <= |docs|
            && Parse(c.decode, budgets, p, piece) == Result(docs[..whole], Some(Incomplete))
    decreases |docs| - |p.outputs|
  {
    var k := |p.outputs|;
    var frame := NextFrame(p, docs);
    var line := Line(c.encode(frame));
    NextFits(c, budgets, p, docs);
    if k < |docs| && |piece| >= |line| {
      SplitPrefix(piece, line, FromOutput(c, docs, k + 1));
      var q := Accept(p, frame, budgets.maxOutputs).progress;
      CutOutputs(c, budgets, q, docs, piece[|line|..]);
      PastFirst(c, budgets, p, docs, piece[|line|..]);
    } else {
      CutFirst(c, budgets, p, docs, piece);
    }
  }

  /** How many documents of an emission lie wholly in its first `n` bytes. */
  function WholeDocuments<D>(c: Codec<D>, id: seq<Byte>, docs: seq<D>, n: nat): nat {
    WholeOutputs(c, docs, 0, n - |Line(c.encode(Prelude(id)))|)
  }

  lemma PrefixKeepsWholeOutputs<D(!new)>(c: Codec<D>, budgets: Budgets, id: seq<Byte>, docs: seq<D>, piece: seq<Byte>)
    requires Sound(c) && WithinBudgets(c, id, docs, budgets) && piece < Emission(c, id, docs)
    ensures WholeDocuments(c, id, docs, |piece|) <= |docs|
    ensures Parse(c.decode, budgets, Begin(id), piece)
            == Result(docs[..WholeDocuments(c, id, docs, |piece|)], Some(Incomplete))
  {
    var p := Begin<D>(id);
    var frame := NextFrame(p, docs);
    var line := Line(c.encode(frame));
    if |piece| >= |line| {
      SplitPrefix(piece, line, FromOutput(c, docs, 0));
      NextFits(c, budgets, p, docs);
      CutOutputs(c, budgets, Accept(p, frame, budgets.maxOutputs).progress, docs, piece[|line|..]);
      PastFirst(c, budgets, p, docs, piece[|line|..]);
    } else {
      CutPiece(piece, c.encode(frame), FromOutput(c, docs, 0));
      CutLine(c, budgets, p, frame, piece);
      assert docs[..0] == [];
    }
  }

  lemma {:induction false} AllOutputsLie<D>(c: Codec<D>, docs: seq<D>, k: nat)
    requires k <= |docs|
    ensures WholeOutputs(c, docs, k, |FromOutput(c, docs, k)| - |Line(c.encode(Complete(|docs|)))|) == |docs| - k
    ensures |FromOutput(c, docs, k)| >= |Line(c.encode(Complete(|docs|)))|
    decreases |docs| - k
  {
    if k < |docs| {
      AllOutputsLie(c, docs, k + 1);
    }
  }

  /** An emission without its completion line is incomplete, with all its documents. */
  lemma UnfinishedIsIncomplete<D(!new)>(c: Codec<D>, budgets: Budgets, id: seq<Byte>, docs: seq<D>, stream: seq<Byte>)
    requires Sound(c) && WithinBudgets(c, id, docs, budgets)
    requires stream + Line(c.encode(Complete(|docs|))) == Emission(c, id, docs)
    ensures Parse(c.decode, budgets, Begin(id), stream) == Result(docs, Some(Incomplete))
  {
    assert stream == Emission(c, id, docs)[..|stream|];
    PrefixKeepsWholeOutputs(c, budgets, id, docs, stream);
    AllOutputsLie(c, docs, 0);
    assert docs[..|docs|] == docs;
  }

  // ---------- the writer ----------

  class ProtocolWriter<D> {
    const encode: Frame<D> -> seq<Byte>
    const valid: D -> bool
    var stream: seq<Byte>
    var sequence: nat
    var closed: bool

    constructor (encode: Frame<D> -> seq<Byte>, valid: D -> bool)
      ensures this.encode == encode && this.valid == valid
      ensures stream == [] && sequence == 0 && !closed
    {
      this.encode, this.valid := encode, valid;
      stream, sequence, closed := [], 0, false;
    }

    /** Appends one line, or raises when the stream is already complete. */
    method WriteFrame(frame: Frame<D>) returns (raised: bool)
      modifies this`stream
      ensures raised <==> closed
      ensures stream == if raised then old(stream) else old(stream) + Line(encode(frame))
    {
      if closed {
        return true;
      }
      stream := stream + (encode(frame) + [LF]);
      return false;
    }

    method Emit(document: D) returns (raised: bool)
      modifies this`stream, this`sequence
      ensures raised <==> closed || !valid(document)
      ensures raised ==> stream == old(stream) && sequence == old(sequence)
      ensures !raised ==> stream == old(stream) + Line(encode(Output(old(sequence), document)))
      ensures !raised ==> sequence == old(sequence) + 1
    {
      if !valid(document) {
        return true;
      }
      raised := WriteFrame(Output(sequence, document));
      if !raised {
        sequence := sequence + 1;
      }
    }

    method Finish() returns (raised: bool)
      modifies this`stream, this`closed
      ensures raised <==> old(closed)
      ensures closed
      ensures stream == if raised then old(stream) else old(stream) + Line(encode(Complete(sequence)))
    {
      raised := WriteFrame(Complete(sequence));
      closed := true;
    }
  }

  /** The documents the writer accepts, in order. */
  function AcceptedDocuments<D>(valid: D -> bool, docs: seq<D>): seq<D> {
    if docs == [] then []
    else AcceptedDocuments(valid, docs[..|docs| - 1])
         + (if valid(docs[|docs| - 1]) then [docs[|docs| - 1]] else [])
  }

  /** The lines of the first `k` output frames. */
  function UpTo<D>(c: Codec<D>, docs: seq<D>, k: nat): seq<Byte>
    requires k <= |docs|
  {
    if k == 0 then [] else UpTo(c, docs, k - 1) + Line(c.encode(Output(k - 1, docs[k - 1])))
  }

  lemma {:induction false} UpToGrows<D>(c: Codec<D>, docs: seq<D>, doc: D, k: nat)
    requires k <= |docs|
    ensures UpTo(c, docs + [doc], k) == UpTo(c, docs, k)
  {
    if k > 0 {
      UpToGrows(c, docs, doc, k - 1);
    }
  }

  lemma {:induction false} EmissionSplits<D>(c: Codec<D>, docs: seq<D>, k: nat)
    requires k <= |docs|
    ensures UpTo(c, docs, k) + FromOutput(c, docs, k) == UpTo(c, docs, |docs|) + Line(c.encode(Complete(|docs|)))
    decreases |docs| - k
  {
    if k < |docs| {
      EmissionSplits(c, docs, k + 1);
      var line := Line(c.encode(Output(k, docs[k])));
      assert UpTo(c, docs, k) + (line + FromOutput(c, docs, k + 1))
          == UpTo(c, docs, k) + line + FromOutput(c, docs, k + 1);
    }
  }

  /** The stream after the prelude and the given documents. */
  function Unfinished<D>(c: Codec<D>, id: seq<Byte>, docs: seq<D>): seq<Byte> {
    Line(c.encode(Prelude(id))) + UpTo(c, docs, |docs|)
  }

  lemma UnfinishedGrows<D>(c: Codec<D>, id: seq<Byte>, docs: seq<D>, doc: D)
    ensures Unfinished(c, id, docs + [doc]) == Unfinished(c, id, docs) + Line(c.encode(Output(|docs|, doc)))
  {
    UpToGrows(c, docs, doc, |docs|);
  }

  lemma UnfinishedFinishes<D>(c: Codec<D>, id: seq<Byte>, docs: seq<D>)
    ensures Emission(c, id, docs) == Unfinished(c, id, docs) + Line(c.encode(Complete(|docs|)))
  {
    EmissionSplits(c, docs, 0);
    assert UpTo(c, docs, 0) + FromOutput(c, docs, 0) == FromOutput(c, docs, 0);
  }

  lemma AcceptedNext<D>(c: Codec<D>, valid: D -> bool, id: seq<Byte>, docs: seq<D>, i: nat)
    requires i < |docs|
    ensures var (done, next) := (AcceptedDocuments(valid, docs[..i]), AcceptedDocuments(valid, docs[..i + 1]));
            if valid(docs[i]) then
              && |next| == |done| + 1
              && Unfinished(c, id, next) == Unfinished(c, id, done) + Line(c.encode(Output(|done|, docs[i])))
            else next == done
  {
    assert docs[..i + 1][..i] == docs[..i];
    UnfinishedGrows(c, id, AcceptedDocuments(valid, docs[..i]), docs[i]);
  }

  /** The bootstrap around a driver that emits `docs`, passing over refused ones, and then
      returns or raises: what it leaves on the stream is an emission of the accepted
      documents or that emission without its completion line. */
  method Bootstrap<D>(c: Codec<D>, valid: D -> bool, id: seq<Byte>, docs: seq<D>, completes: bool)
      returns (stream: seq<Byte>)
    ensures var all := AcceptedDocuments(valid, docs);
            if completes then stream == Emission(c, id, all)
            else stream + Line(c.encode(Complete(|all|))) == Emission(c, id, all)
  {
    var writer := new ProtocolWriter<D>(c.encode, valid);
    var raised := writer.WriteFrame(Prelude(id));
    for i := 0 to |docs|
      invariant !writer.closed
      invariant writer.sequence == |AcceptedDocuments(valid, docs[..i])|
      invariant writer.stream == Unfinished(c, id, AcceptedDocuments(valid, docs[..i]))
    {
      AcceptedNext(c, valid, id, docs, i);
      raised := writer.Emit(docs[i]);
    }
    assert docs[..|docs|] == docs;
    UnfinishedFinishes(c, id, AcceptedDocuments(valid, docs));
    if completes {
      raised := writer.Finish();
    }
    stream := writer.stream;
  }

  // ---------- reader and writer together ----------

  /** The documents whose emission the stream is, within the frame and count budgets. */
  ghost predicate Emitted<D>(c: Codec<D>, budgets: Budgets, id: seq<Byte>, docs: seq<D>, stream: seq<Byte>) {
    WithinBudgets(c, id, docs, budgets) && stream == Emission(c, id, docs)
  }

  lemma SuccessMeansEmitted<D(!new)>(c: Codec<D>, budgets: Budgets, id: seq<Byte>, stream: seq<Byte>)
    requires Sound(c) && Parse(c.decode, budgets, Begin(id), stream).failure.None?
    ensures Emitted(c, budgets, id, Parse(c.decode, budgets, Begin(id), stream).outputs, stream)
  {
    SuccessMeansExpected(c, budgets, Begin(id), stream);
  }

  lemma EmittedSucceeds<D(!new)>(c: Codec<D>, budgets: Budgets, id: seq<Byte>, docs: seq<D>, stream: seq<Byte>)
    requires Sound(c) && Emitted(c, budgets, id, docs, stream)
    ensures Parse(c.decode, budgets, Begin(id), stream) == Result(docs, None)
  {
    ExpectedSucceeds(c, budgets, Begin(id), docs);
  }

  /** Reading in arbitrary chunks succeeds exactly on prelude(id), outputs numbered from zero and
      complete(n), each on its own line with nothing after, within every budget, and then
      returns those documents; within the total budget the outputs and the failure code do not
      depend on the chunks. */
  method ReadStream<D(!new)>(c: Codec<D>, id: seq<Byte>, budgets: Budgets, stream: seq<Byte>)
      returns (outputs: seq<D>, received: nat, failure: Option<Code>)
    requires Sound(c)
    ensures failure.None? <==> Fits(budgets, stream) && exists docs :: Emitted(c, budgets, id, docs, stream)
    ensures failure.None? ==> Emitted(c, budgets, id, outputs, stream) && received == |stream|
    ensures Fits(budgets, stream) ==> Result(outputs, failure) == Parse(c.decode, budgets, Begin(id), stream)
    ensures Fits(budgets, stream) && failure.Some? ==> Halted(c.decode, budgets, id, outputs, failure.value, stream)
    ensures Fits(budgets, stream) ==>
              forall docs, code ::
                Halted(c.decode, budgets, id, docs, code, stream) ==> outputs == docs && failure == Some(code)
    ensures !Fits(budgets, stream) ==>
              || failure == Some(Oversized)
              || (failure.Some? && Halted(c.decode, budgets, id, outputs, failure.value, stream))
    ensures budgets.maxTotal.Some? ==> received <= budgets.maxTotal.value + 1
  {
    outputs, received, failure := ReadProtocolStream(c.decode, id, budgets, stream);
    forall docs, code
      ensures Parse(c.decode, budgets, Begin(id), stream) == Result(docs, Some(code))
              <==> Halted(c.decode, budgets, id, docs, code, stream)
    {
      FailsExactlyWhen(c.decode, budgets, id, stream, docs, code);
    }
    if failure.None? {
      SuccessMeansEmitted(c, budgets, id, stream);
    }
    if docs :| Emitted(c, budgets, id, docs, stream) {
      EmittedSucceeds(c, budgets, id, docs, stream);
    }
  }

  // ---------- reading what was written, frame by frame ----------

  function Text<D>(c: Codec<D>, frames: seq<Frame<D>>): seq<Byte> {
    if frames == [] then [] else Line(c.encode(frames[0])) + Text(c, frames[1..])
  }

  /** What the reader makes of written frames, whether or not they fit. */
  function Replay<D>(c: Codec<D>, budgets: Budgets, p: Progress<D>, frames: seq<Frame<D>>): Result<D>
    decreases |frames|
  {
    if frames == [] then Result(p.outputs, if p.completed then None else Some(Incomplete))
    else if Over(budgets.maxFrame, |c.encode(frames[0])|) then Result(p.outputs, Some(Oversized))
    else if p.completed then Result(p.outputs, Some(Unexpected))
    else
      match c.decode(c.encode(frames[0]))
      case Bad(code) => Result(p.outputs, Some(code))
      case Good(frame) =>
        match Accept(p, frame, budgets.maxOutputs)
        case Refused(code) => Result(p.outputs, Some(code))
        case Accepted(q) => Replay(c, budgets, q, frames[1..])
  }

  lemma {:induction false} ParsingIsReplaying<D>(c: Codec<D>, budgets: Budgets, p: Progress<D>, frames: seq<Frame<D>>)
    requires forall i :: 0 <= i < |frames| ==> LFFree(c.encode(frames[i]))
    ensures Parse(c.decode, budgets, p, Text(c, frames)) == Replay(c, budgets, p, frames)
    decreases |frames|
  {
    if frames != [] {
      FindLFInLine(c.encode(frames[0]), Text(c, frames[1..]));
      match c.decode(c.encode(frames[0]))
      case Bad(_) =>
      case Good(frame) =>
        match Accept(p, frame, budgets.maxOutputs)
        case Refused(_) =>
        case Accepted(q) => ParsingIsReplaying(c, budgets, q, frames[1..]);
    }
  }

  /** The output frames from number `k` on, and the completion frame if there is one. */
  function FramesFrom<D>(docs: seq<D>, k: nat, completes: bool): (frames: seq<Frame<D>>)
    requires k <= |docs|
    ensures forall i :: 0 <= i < |frames| ==>
              frames[i] == if i < |docs| - k then Output(k + i, docs[k + i]) else Complete(|docs|)
    decreases |docs| - k
  {
    if k < |docs| then [Output(k, docs[k])] + FramesFrom(docs, k + 1, completes)
    else if completes then [Complete(|docs|)]
    else []
  }

  lemma {:induction false} TextFrom<D>(c: Codec<D>, docs: seq<D>, k: nat)
    requires k <= |docs|
    ensures Text(c, FramesFrom(docs, k, true)) == FromOutput(c, docs, k)
    ensures Text(c, FramesFrom(docs, k, false)) + Line(c.encode(Complete(|docs|))) == FromOutput(c, docs, k)
    decreases |docs| - k
  {
    if k < |docs| {
      TextFrom(c, docs, k + 1);
      var line, last := Line(c.encode(Output(k, docs[k]))), Line(c.encode(Complete(|docs|)));
      assert FramesFrom(docs, k, true)[1..] == FramesFrom(docs, k + 1, true);
      assert FramesFrom(docs, k, false)[1..] == FramesFrom(docs, k + 1, false);
      Regroup(line, Text(c, FramesFrom(docs, k + 1, false)), last);
    } else {
      assert FramesFrom(docs, k, true)[1..] == [];
    }
  }

  function Frames<D>(id: seq<Byte>, docs: seq<D>, completes: bool): seq<Frame<D>> {
    [Prelude(id)] + FramesFrom(docs, 0, completes)
  }

  lemma TextOfFrames<D>(c: Codec<D>, id: seq<Byte>, docs: seq<D>)
    ensures Text(c, Frames(id, docs, true)) == Emission(c, id, docs)
    ensures Text(c, Frames(id, docs, false)) + Line(c.encode(Complete(|docs|))) == Emission(c, id, docs)
  {
    TextFrom(c, docs, 0);
    assert Frames(id, docs, true)[1..] == FramesFrom(docs, 0, true);
    assert Frames(id, docs, false)[1..] == FramesFrom(docs, 0, false);
    Regroup(Line(c.encode(Prelude(id))), Text(c, FramesFrom(docs, 0, false)), Line(c.encode(Complete(|docs|))));
  }

  /** The frame is one line and decodes to no other frame. */
  predicate Honest<D(==)>(c: Codec<D>, f: Frame<D>) {
    LFFree(c.encode(f)) && (c.decode(c.encode(f)).Good? ==> c.decode(c.encode(f)).frame == f)
  }

  /** Everything the writer can write is honest. */
  ghost predicate HonestWriter<D(!new)>(c: Codec<D>, valid: D -> bool, id: seq<Byte>) {
    && Honest(c, Prelude(id))
    && (forall n: nat :: Honest(c, Complete(n)))
    && (forall n: nat, d: D :: valid(d) ==> Honest(c, Output(n, d)))
  }

  ghost predicate HonestFrom<D>(c: Codec<D>, docs: seq<D>, k: nat) {
    Honest(c, Complete(|docs|)) && forall i :: k <= i < |docs| ==> Honest(c, Output(i, docs[i]))
  }

  /** A replay of outputs succeeds exactly when they are completed and all fit. */
  lemma {:induction false} ReplaySucceedsExactly<D>(
      c: Codec<D>, budgets: Budgets, p: Progress<D>, docs: seq<D>, completes: bool)
    requires p.preludeSeen && !p.completed && p.outputs <= docs && HonestFrom(c, docs, |p.outputs|)
    ensures Replay(c, budgets, p, FramesFrom(docs, |p.outputs|, completes)).failure.None?
            <==> completes && FittingFrom(c, docs, |p.outputs|, budgets)
    decreases |docs| - |p.outputs|
  {
    var k := |p.outputs|;
    var frames := FramesFrom(docs, k, completes);
    if k < |docs| {
      var q := p.(outputs := p.outputs + [docs[k]]);
      assert frames[0] == Output(k, docs[k]) && frames[1..] == FramesFrom(docs, k + 1, completes);
      assert q.outputs <= docs;
      ReplaySucceedsExactly(c, budgets, q, docs, completes);
      assert Honest(c, Output(k, docs[k]));
    } else if completes {
      assert frames[0] == Complete(|docs|) && frames[1..] == [];
    }
  }

  lemma SuccessExactlyWhenAllFits<D>(c: Codec<D>, budgets: Budgets, id: seq<Byte>, docs: seq<D>, completes: bool)
    requires Honest(c, Prelude(id)) && HonestFrom(c, docs, 0)
    ensures Replay(c, budgets, Begin(id), Frames(id, docs, completes)).failure.None?
            <==> completes && WithinBudgets(c, id, docs, budgets)
  {
    var frames := Frames(id, docs, completes);
    assert frames[0] == Prelude(id) && frames[1..] == FramesFrom(docs, 0, completes);
    ReplaySucceedsExactly(c, budgets, Begin<D>(id).(preludeSeen := true), docs, completes);
  }

  /** The first output that does not decode decides: what came before it is kept, and its code
      is the stream's failure. */
  lemma {:induction false} FirstRefusedOutputDecides<D>(
      c: Codec<D>, budgets: Budgets, p: Progress<D>, docs: seq<D>, k: nat, completes: bool)
    requires p.preludeSeen && !p.completed && p.outputs <= docs && |p.outputs| <= k < |docs|
    requires forall i :: |p.outputs| <= i < k ==> Fitting(c, Output(i, docs[i]), budgets)
    requires !Over(budgets.maxOutputs, k)
    requires !Over(budgets.maxFrame, |c.encode(Output(k, docs[k]))|) && c.decode(c.encode(Output(k, docs[k]))).Bad?
    ensures Replay(c, budgets, p, FramesFrom(docs, |p.outputs|, completes))
         == Result(docs[..k], Some(c.decode(c.encode(Output(k, docs[k]))).code))
    decreases k - |p.outputs|
  {
    var n := |p.outputs|;
    var frames := FramesFrom(docs, n, completes);
    assert frames[0] == Output(n, docs[n]) && frames[1..] == FramesFrom(docs, n + 1, completes);
    if n < k {
      var q := p.(outputs := p.outputs + [docs[n]]);
      assert q.outputs <= docs;
      FirstRefusedOutputDecides(c, budgets, q, docs, k, completes);
    } else {
      assert docs[..k] == p.outputs;
    }
  }

  lemma RefusedOutputDecides<D>(c: Codec<D>, budgets: Budgets, id: seq<Byte>, docs: seq<D>, k: nat, completes: bool)
    requires k < |docs| && Fitting(c, Prelude(id), budgets) && !Over(budgets.maxOutputs, k)
    requires forall i :: 0 <= i < k ==> Fitting(c, Output(i, docs[i]), budgets)
    requires !Over(budgets.maxFrame, |c.encode(Output(k, docs[k]))|) && c.decode(c.encode(Output(k, docs[k]))).Bad?
    ensures Replay(c, budgets, Begin(id), Frames(id, docs, completes))
         == Result(docs[..k], Some(c.decode(c.encode(Output(k, docs[k]))).code))
  {
    var frames := Frames(id, docs, completes);
    assert frames[0] == Prelude(id) && frames[1..] == FramesFrom(docs, 0, completes);
    FirstRefusedOutputDecides(c, budgets, Begin<D>(id).(preludeSeen := true), docs, k, completes);
  }

  lemma {:induction false} AcceptedAreValid<D>(valid: D -> bool, docs: seq<D>)
    ensures forall d :: d in AcceptedDocuments(valid, docs) ==> valid(d)
  {
    if docs != [] {
      AcceptedAreValid(valid, docs[..|docs| - 1]);
    }
  }

  lemma WrittenAreHonest<D(!new)>(c: Codec<D>, valid: D -> bool, id: seq<Byte>, docs: seq<D>, completes: bool)
    requires HonestWriter(c, valid, id) && forall d :: d in docs ==> valid(d)
    ensures HonestFrom(c, docs, 0)
    ensures forall i :: 0 <= i < |Frames(id, docs, completes)| ==> LFFree(c.encode(Frames(id, docs, completes)[i]))
  {
    var frames := Frames(id, docs, completes);
    forall i | 0 <= i < |docs| ensures Honest(c, Output(i, docs[i])) {
      assert docs[i] in docs;
    }
    forall i | 0 <= i < |frames| ensures LFFree(c.encode(frames[i])) {
      if 0 < i {
        assert frames[i] == FramesFrom(docs, 0, completes)[i - 1];
        if i - 1 < |docs| { assert Honest(c, Output(i - 1, docs[i - 1])); }
        else { assert Honest(c, Complete(|docs|)); }
      }
    }
  }

  /** The child's bootstrap followed by the parent's reader, over whatever documents the writer
      accepts: within the total budget the result is the replay of the written frames; it is a
      success exactly when the driver returned and everything fits, and then, as when a fitting
      driver raised, the documents are exactly the accepted ones. */
  method WriteThenRead<D(!new)>(
      c: Codec<D>, valid: D -> bool, id: seq<Byte>, budgets: Budgets, docs: seq<D>, completes: bool)
      returns (stream: seq<Byte>, outputs: seq<D>, failure: Option<Code>)
    requires Sound(c) && HonestWriter(c, valid, id)
    ensures var all := AcceptedDocuments(valid, docs);
            && (Fits(budgets, stream) ==>
                  Result(outputs, failure) == Replay(c, budgets, Begin(id), Frames(id, all, completes)))
            && (failure.None? <==> completes && Fits(budgets, stream) && WithinBudgets(c, id, all, budgets))
            && (WithinBudgets(c, id, all, budgets) && Fits(budgets, stream) ==>
                  outputs == all && failure == if completes then None else Some(Incomplete))
  {
    ghost var all := AcceptedDocuments(valid, docs);
    stream := Bootstrap(c, valid, id, docs, completes);
    var received;
    outputs, received, failure := ReadStream(c, id, budgets, stream);
    AcceptedAreValid(valid, docs);
    WrittenAreHonest(c, valid, id, all, completes);
    TextOfFrames(c, id, all);
    assert stream == Text(c, Frames(id, all, completes)) by {
      if !completes {
        SameStart(stream, Text(c, Frames(id, all, false)), Line(c.encode(Complete(|all|))));
      }
    }
    ParsingIsReplaying(c, budgets, Begin(id), Frames(id, all, completes));
    SuccessExactlyWhenAllFits(c, budgets, id, all, completes);
    if WithinBudgets(c, id, all, budgets) {
      if completes {
        EmittedSucceeds(c, budgets, id, all, stream);
      } else {
        UnfinishedIsIncomplete(c, budgets, id, all, stream);
      }
    }
  }

  lemma SameStart<T>(a: seq<T>, b: seq<T>, end: seq<T>)
    requires a + end == b + end
    ensures a == b
  {
    assert |a| == |b|;
    assert a == (a + end)[..|a|] && b == (b + end)[..|b|];
  }

  /** Reading only the first `cut` bytes of what a completed bootstrap wrote: an incomplete
      stream with exactly the documents whose frames lie wholly inside. */
  method WriteCutRead<D(!new)>(
      c: Codec<D>, valid: D -> bool, id: seq<Byte>, budgets: Budgets, docs: seq<D>, cut: nat)
      returns (stream: seq<Byte>, outputs: seq<D>, failure: Option<Code>)
    requires Sound(c)
    ensures var all := AcceptedDocuments(valid, docs);
            var whole := WholeDocuments(c, id, all, cut);
            WithinBudgets(c, id, all, budgets) && cut < |stream| && Fits(budgets, stream[..cut]) ==>
              whole <= |all| && outputs == all[..whole] && failure == Some(Incomplete)
  {
    ghost var all := AcceptedDocuments(valid, docs);
    stream := Bootstrap(c, valid, id, docs, true);
    var piece := if cut < |stream| then stream[..cut] else stream;
    var received;
    outputs, received, failure := ReadStream(c, id, budgets, piece);
    if WithinBudgets(c, id, all, budgets) && cut < |stream| {
      PrefixKeepsWholeOutputs(c, budgets, id, all, piece);
    }
  }
}
