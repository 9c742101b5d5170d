/** The protocol's frames, the automaton that accepts them, and the meaning of a whole stream. */
module Automaton {
  import opened Basics
  import opened Framing

  datatype Code = Oversized | Malformed | Unexpected | IdMismatch | DuplicateOutput | Incomplete

  datatype Frame<D> = Prelude(id: seq<Byte>) | Output(sequence: nat, document: D) | Complete(count: nat)

  datatype Decoded<D> = Good(frame: Frame<D>) | Bad(code: Code)

  /** The executor self-budgets of the protocol; an absent limit is unbudgeted. */
  datatype Budgets = Budgets(maxFrame: Option<nat>, maxTotal: Option<nat>, maxOutputs: Option<nat>)

  datatype Result<D> = Result(outputs: seq<D>, failure: Option<Code>)

  predicate Over(limit: Option<nat>, size: int) {
    limit.Some? && size > limit.value
  }

  // ---------- the frame automaton ----------

  datatype Progress<D> = Progress(id: seq<Byte>, outputs: seq<D>, preludeSeen: bool, completed: bool)

  datatype Step<D> = Accepted(progress: Progress<D>) | Refused(code: Code)

  function Accept<D>(p: Progress<D>, frame: Frame<D>, maxOutputs: Option<nat>): Step<D> {
    match frame
    case Prelude(id) =>
      if p.preludeSeen then Refused(Unexpected)
      else if id != p.id then Refused(IdMismatch)
      else Accepted(p.(preludeSeen := true))
    case Output(sequence, document) =>
      if !p.preludeSeen || p.completed then Refused(Unexpected)
      else if sequence < |p.outputs| then Refused(DuplicateOutput)
      else if sequence != |p.outputs| then Refused(Unexpected)
      else if Over(maxOutputs, |p.outputs| + 1) then Refused(Oversized)
      else Accepted(p.(outputs := p.outputs + [document]))
    case Complete(count) =>
      if !p.preludeSeen || p.completed then Refused(Unexpected)
      else if count != |p.outputs| then Refused(Incomplete)
      else Accepted(p.(completed := true))
  }

  function Begin<D>(id: seq<Byte>): Progress<D> {
    Progress(id, [], false, false)
  }

  // ---------- the reference: parsing the whole stream at once ----------

  /** The meaning of a byte stream, with no notion of chunks, buffers or read sizes. */
  function Parse<D>(decode: seq<Byte> -> Decoded<D>, budgets: Budgets, p: Progress<D>, bytes: seq<Byte>): Result<D>
    decreases |bytes|
  {
    var i := FindLF(bytes);
    if Over(budgets.maxFrame, i) then Result(p.outputs, Some(Oversized))
    else if i < |bytes| then
      if p.completed then Result(p.outputs, Some(Unexpected))
      else
        match decode(bytes[..i])
        case Bad(code) => Result(p.outputs, Some(code))
        case Good(frame) =>
          match Accept(p, frame, budgets.maxOutputs)
          case Refused(code) => Result(p.outputs, Some(code))
          case Accepted(q) => Parse(decode, budgets, q, bytes[i + 1..])
    else if bytes != [] then Result(p.outputs, Some(if p.completed then Unexpected else Incomplete))
    else if p.completed then Result(p.outputs, None)
    else Result(p.outputs, Some(Incomplete))
  }

  /** Accepted outputs are never taken back. */
  lemma {:induction false} ParseExtends<D>(
      decode: seq<Byte> -> Decoded<D>, budgets: Budgets, p: Progress<D>, bytes: seq<Byte>)
    ensures p.outputs <= Parse(decode, budgets, p, bytes).outputs
    decreases |bytes|
  {
    var i := FindLF(bytes);
    if !Over(budgets.maxFrame, i) && i < |bytes| && !p.completed {
      match decode(bytes[..i])
      case Bad(_) =>
      case Good(frame) =>
        match Accept(p, frame, budgets.maxOutputs)
        case Refused(_) =>
        case Accepted(q) => ParseExtends(decode, budgets, q, bytes[i + 1..]);
    }
  }

  /** One whole line in front of a stream is one step of the automaton. */
  lemma ParseLine<D>(decode: seq<Byte> -> Decoded<D>, budgets: Budgets, p: Progress<D>, q: Progress<D>,
                     frame: Frame<D>, text: seq<Byte>, rest: seq<Byte>)
    requires LFFree(text) && decode(text) == Good(frame) && !Over(budgets.maxFrame, |text|)
    requires !p.completed && Accept(p, frame, budgets.maxOutputs) == Accepted(q)
    ensures Parse(decode, budgets, p, Line(text) + rest) == Parse(decode, budgets, q, rest)
  {
    FindLFInLine(text, rest);
  }
}
