/** The protected protocol reader: an incremental byte-budgeted framer in front of the frame
    automaton, proved equal to a parse of the whole stream for every chunking. */
module Protocol {
  import opened Basics
  import opened Framing
  import opened Automaton
  import opened Failures

  // ---------- the incremental reader ----------

  const CHUNK: nat := 65536

  /** A reader that honours the requested size and otherwise chunks as it likes. */
  class Reader {
    var rest: seq<Byte>

    constructor (stream: seq<Byte>)
      ensures rest == stream
    {
      rest := stream;
    }

    method Read(size: nat) returns (chunk: seq<Byte>)
      requires size >= 1
      modifies this
      ensures old(rest) == chunk + rest
      ensures |chunk| <= size
      ensures chunk == [] <==> old(rest) == []
    {
      if rest == [] {
        return [];
      }
      var n: nat :| 1 <= n <= size && n <= |rest|;
      chunk := rest[..n];
      rest := rest[n..];
      assert old(rest) == chunk + rest;
    }
  }

  datatype Acquired = Got(frame: seq<Byte>) | AtEnd | Violation(code: Code)

  function Max(a: int, b: int): int {
    if a <= b then b else a
  }

  /** The read size of the source before its clamp to at least one byte. */
  function Unclamped(maxFrame: Option<nat>, maxTotal: Option<nat>, buffered: nat, received: nat): int {
    Min(CHUNK, Min(if maxFrame.Some? then maxFrame.value + 1 - buffered else CHUNK,
                   if maxTotal.Some? then maxTotal.value + 1 - received else CHUNK))
  }

  /** How many bytes the next frame or violation takes to be seen. */
  function Looked(maxFrame: Option<nat>, bytes: seq<Byte>): nat {
    var i := FindLF(bytes);
    if Over(maxFrame, i) then maxFrame.value + 1 else if i < |bytes| then i + 1 else |bytes|
  }

  /** How many bytes of a stream the result of its parse depends on. */
  function Examined<D>(decode: seq<Byte> -> Decoded<D>, budgets: Budgets, p: Progress<D>, bytes: seq<Byte>): nat
    decreases |bytes|
  {
    var i := FindLF(bytes);
    if !Over(budgets.maxFrame, i) && i < |bytes| && !p.completed && decode(bytes[..i]).Good?
       && Accept(p, decode(bytes[..i]).frame, budgets.maxOutputs).Accepted?
    then
      var q := Accept(p, decode(bytes[..i]).frame, budgets.maxOutputs).progress;
      i + 1 + Examined(decode, budgets, q, bytes[i + 1..])
    else Looked(budgets.maxFrame, bytes)
  }

  class FrameAcquisition {
    const reader: Reader
    const maxFrame: Option<nat>
    const maxTotal: Option<nat>
    ghost const size: nat
    var buffer: seq<Byte>
    var atEof: bool
    var received: nat

    /** The buffer never holds more than one frame budget and one byte, and no more bytes
        are received than the total budget, or one more when it has been exceeded. */
    ghost predicate Valid()
      reads this, reader
    {
      && received + |reader.rest| == size
      && (atEof ==> reader.rest == [])
      && (maxFrame.Some? ==> |buffer| <= maxFrame.value + 1)
      && (maxTotal.Some? ==> received <= maxTotal.value + 1)
    }

    /** The bytes not yet handed out as frames. */
    ghost function Ahead(): seq<Byte>
      reads this, reader
    {
      buffer + reader.rest
    }

    /** Since `ahead` was ahead and `before` received: enough is read to see its next frame or
        violation, and less than a chunk more. */
    ghost predicate LooksFar(ahead: seq<Byte>, before: nat)
      reads this
    {
      var goal := size - |ahead| + Looked(maxFrame, ahead);
      && (!Over(maxTotal, received) ==> received >= goal)
      && (received == before || received < goal + CHUNK)
    }

    constructor (reader: Reader, maxFrame: Option<nat>, maxTotal: Option<nat>)
      ensures Valid() && this.reader == reader && buffer == [] && received == 0
      ensures this.maxFrame == maxFrame && this.maxTotal == maxTotal && size == |reader.rest|
    {
      this.reader, this.maxFrame, this.maxTotal := reader, maxFrame, maxTotal;
      size := |reader.rest|;
      buffer, atEof, received := [], false, 0;
    }

    /** While the budgets are kept the computed size is positive without the clamp. */
    method ReadSize() returns (n: nat)
      requires !Over(maxFrame, |buffer|) && !Over(maxTotal, received)
      ensures n == Unclamped(maxFrame, maxTotal, |buffer|, received) >= 1 && n <= CHUNK
      ensures maxFrame.Some? ==> |buffer| + n <= maxFrame.value + 1
      ensures maxTotal.Some? ==> received + n <= maxTotal.value + 1
      ensures || n == CHUNK
              || (maxFrame.Some? && |buffer| + n == maxFrame.value + 1)
              || (maxTotal.Some? && received + n == maxTotal.value + 1)
    {
      var least: int := CHUNK;
      if maxFrame.Some? {
        least := Min(least, maxFrame.value + 1 - |buffer|);
      }
      if maxTotal.Some? {
        least := Min(least, maxTotal.value + 1 - received);
      }
      n := Max(1, least);
    }

    /** One read; an excess chunk is discarded whole. */
    method Fill() returns (exceeded: bool)
      requires Valid() && !Over(maxFrame, |buffer|) && !Over(maxTotal, received) && !atEof
      modifies this, reader
      ensures Valid()
      ensures exceeded <==> Over(maxTotal, received)
      ensures !exceeded ==> Ahead() == old(Ahead())
      ensures |reader.rest| <= old(|reader.rest|)
      ensures |reader.rest| < old(|reader.rest|) || (atEof && received == old(received))
      ensures received <= old(received) + CHUNK
    {
      var n := ReadSize();
      var chunk := reader.Read(n);
      if chunk == [] {
        atEof := true;
        return false;
      }
      received := received + |chunk|;
      if Over(maxTotal, received) {
        return true;
      }
      buffer := buffer + chunk;
      return false;
    }

    method NextFrame(afterCompletion: bool) returns (r: Acquired)
      requires Valid() && !Over(maxTotal, received)
      modifies this, reader
      ensures Valid()
      ensures Over(maxTotal, received) ==> r == Violation(Oversized)
      ensures !Over(maxTotal, received) ==>
                var bytes := old(Ahead());
                var i := FindLF(bytes);
                if Over(maxFrame, i) then r == Violation(Oversized)
                else if i < |bytes| then r == Got(bytes[..i]) && Ahead() == bytes[i + 1..]
                else if bytes != [] then r == Violation(if afterCompletion then Unexpected else Incomplete)
                else r == AtEnd && received == size
      ensures LooksFar(old(Ahead()), old(received))
    {
      ghost var bytes := Ahead();
      ghost var goal := size - |bytes| + Looked(maxFrame, bytes);
      while true
        invariant Valid() && !Over(maxTotal, received)
        invariant Ahead() == bytes
        invariant received == old(received) || received < goal + CHUNK
        decreases |reader.rest|, if atEof then 0 else 1
      {
        var terminator := FindLF(buffer);
        FindLFInFront(buffer, reader.rest);
        if terminator < |buffer| {
          r := Got(buffer[..terminator]);
          buffer := buffer[terminator + 1..];
          assert Ahead() == bytes[terminator + 1..];
          if Over(maxFrame, terminator) {
            r := Violation(Oversized);
          }
          return;
        }
        if Over(maxFrame, |buffer|) {
          return Violation(Oversized);
        }
        if atEof {
          assert bytes == buffer;
          if buffer != [] {
            return Violation(if afterCompletion then Unexpected else Incomplete);
          }
          return AtEnd;
        }
        var exceeded := Fill();
        if exceeded {
          return Violation(Oversized);
        }
      }
    }
  }

  /** A terminator in the buffer is the first of the stream; without one the first is later. */
  lemma FindLFInFront(buffer: seq<Byte>, rest: seq<Byte>)
    ensures FindLF(buffer) < |buffer| ==> FindLF(buffer + rest) == FindLF(buffer)
    ensures FindLF(buffer) == |buffer| ==> FindLF(buffer + rest) >= |buffer|
    ensures FindLF(buffer) < |buffer| ==> (buffer + rest)[..FindLF(buffer)] == buffer[..FindLF(buffer)]
  {
    var i := FindLF(buffer);
    assert forall j :: 0 <= j < i ==> (buffer + rest)[j] == buffer[j];
    if i < |buffer| {
      assert (buffer + rest)[i] == LF;
    }
  }

  class StreamState<D> {
    const id: seq<Byte>
    const maxOutputs: Option<nat>
    var outputs: seq<D>
    var preludeSeen: bool
    var completed: bool

    ghost function View(): Progress<D>
      reads this
    {
      Progress(id, outputs, preludeSeen, completed)
    }

    constructor (id: seq<Byte>, maxOutputs: Option<nat>)
      ensures View() == Begin(id) && this.maxOutputs == maxOutputs
    {
      this.id, this.maxOutputs := id, maxOutputs;
      outputs, preludeSeen, completed := [], false, false;
    }

    method Take(frame: Frame<D>) returns (violation: Option<Code>)
      modifies this
      ensures match Accept(old(View()), frame, maxOutputs)
              case Accepted(q) => violation == None && View() == q
              case Refused(code) => violation == Some(code) && outputs == old(outputs)
      ensures var place := PlaceOf(old(preludeSeen), old(completed));
              forall code :: violation == Some(code)
                             <==> Wrong(place, id, |old(outputs)|, maxOutputs, frame, code)
    {
      match frame {
        case Prelude(theirs) =>
          if preludeSeen {
            return Some(Unexpected);
          }
          preludeSeen := true;
          if theirs != id {
            return Some(IdMismatch);
          }
        case Output(sequence, document) =>
          if !preludeSeen || completed {
            return Some(Unexpected);
          }
          if sequence < |outputs| {
            return Some(DuplicateOutput);
          }
          if sequence != |outputs| {
            return Some(Unexpected);
          }
          if Over(maxOutputs, |outputs| + 1) {
            return Some(Oversized);
          }
          outputs := outputs + [document];
        case Complete(count) =>
          if !preludeSeen || completed {
            return Some(Unexpected);
          }
          if count != |outputs| {
            return Some(Incomplete);
          }
          completed := true;
      }
      return None;
    }
  }

  lemma SameFirstLine(bytes: seq<Byte>, more: seq<Byte>, k: nat)
    requires k <= |bytes| && bytes[..k] <= more
    ensures FindLF(bytes) < k <==> FindLF(more) < k
    ensures FindLF(bytes) < k ==> FindLF(more) == FindLF(bytes) && more[..FindLF(more)] == bytes[..FindLF(bytes)]
  {
    FindLFInFront(bytes[..k], bytes[k..]);
    FindLFInFront(bytes[..k], more[k..]);
    assert bytes == bytes[..k] + bytes[k..] && more == bytes[..k] + more[k..];
  }

  /** The bytes examined decide the result: whatever else follows them, it is the same. */
  lemma {:induction false} ExaminedBytesDecide<D>(
      decode: seq<Byte> -> Decoded<D>, budgets: Budgets, p: Progress<D>, bytes: seq<Byte>, more: seq<Byte>)
    requires Examined(decode, budgets, p, bytes) < |bytes|
    requires bytes[..Examined(decode, budgets, p, bytes)] <= more
    ensures Parse(decode, budgets, p, more) == Parse(decode, budgets, p, bytes)
    decreases |bytes|
  {
    var (i, k) := (FindLF(bytes), Examined(decode, budgets, p, bytes));
    SameFirstLine(bytes, more, k);
    if !Over(budgets.maxFrame, i) && i < |bytes| && !p.completed && decode(bytes[..i]).Good?
       && Accept(p, decode(bytes[..i]).frame, budgets.maxOutputs).Accepted?
    {
      var q := Accept(p, decode(bytes[..i]).frame, budgets.maxOutputs).progress;
      var rest := bytes[i + 1..];
      assert rest[..k - i - 1] == bytes[..k][i + 1..];
      assert bytes[..k][i + 1..] <= more[i + 1..];
      ExaminedBytesDecide(decode, budgets, q, rest, more[i + 1..]);
    }
  }

  /** A reader that has come to `p` with `ahead` still to hand out: what the whole stream means and
      how much of it decides that. */
  ghost predicate Underway<D>(
      decode: seq<Byte> -> Decoded<D>, budgets: Budgets, p: Progress<D>, ahead: seq<Byte>,
      length: nat, whole: Result<D>, needed: int)
  {
    && Parse(decode, budgets, p, ahead) == whole
    && length - |ahead| + Examined(decode, budgets, p, ahead) == needed
  }

  /** One turn of the reading: it ends, or goes on with what the next line made of it. */
  datatype Turn<D> = Ended(failure: Option<Code>) | Went(progress: Progress<D>, rest: seq<Byte>)

  function TurnOf<D>(decode: seq<Byte> -> Decoded<D>, budgets: Budgets, p: Progress<D>, ahead: seq<Byte>): Turn<D> {
    var i := FindLF(ahead);
    if Over(budgets.maxFrame, i) then Ended(Some(Oversized))
    else if i < |ahead| then
      if p.completed then Ended(Some(Unexpected)) else TakenLine(decode, budgets, p, ahead[..i], ahead[i + 1..])
    else if ahead != [] then Ended(Some(if p.completed then Unexpected else Incomplete))
    else Ended(if p.completed then None else Some(Incomplete))
  }

  function TakenLine<D>(decode: seq<Byte> -> Decoded<D>, budgets: Budgets, p: Progress<D>,
                        text: seq<Byte>, rest: seq<Byte>): Turn<D> {
    match decode(text)
    case Bad(code) => Ended(Some(code))
    case Good(frame) =>
      match Accept(p, frame, budgets.maxOutputs)
      case Refused(code) => Ended(Some(code))
      case Accepted(q) => Went(q, rest)
  }

  lemma TurnMeans<D>(
      decode: seq<Byte> -> Decoded<D>, budgets: Budgets, p: Progress<D>, ahead: seq<Byte>,
      length: nat, whole: Result<D>, needed: int)
    requires Underway(decode, budgets, p, ahead, length, whole, needed)
    ensures p.outputs <= whole.outputs && length - |ahead| + Looked(budgets.maxFrame, ahead) <= needed
    ensures match TurnOf(decode, budgets, p, ahead)
            case Ended(failure) =>
              whole == Result(p.outputs, failure) && needed == length - |ahead| + Looked(budgets.maxFrame, ahead)
            case Went(q, rest) =>
              Underway(decode, budgets, q, rest, length, whole, needed) && |rest| < |ahead|
  {
    ParseExtends(decode, budgets, p, ahead);
  }

  predicate Fits(budgets: Budgets, stream: seq<Byte>) {
    !Over(budgets.maxTotal, |stream|)
  }

  /** The next frame, decoded and taken: one turn of the reading, or the end of the total budget. */
  method TakeNext<D>(
      decode: seq<Byte> -> Decoded<D>, budgets: Budgets, acquisition: FrameAcquisition, state: StreamState<D>)
      returns (over: bool, failure: Option<Code>)
    requires acquisition.Valid() && !Over(budgets.maxTotal, acquisition.received)
    requires acquisition.maxFrame == budgets.maxFrame && acquisition.maxTotal == budgets.maxTotal
    requires state.maxOutputs == budgets.maxOutputs
    modifies acquisition, acquisition.reader, state
    ensures acquisition.Valid()
    ensures acquisition.LooksFar(old(acquisition.Ahead()), old(acquisition.received))
    ensures over ==> state.outputs == old(state.outputs)
    ensures if Over(budgets.maxTotal, acquisition.received) then over && failure == Some(Oversized)
            else
              match TurnOf(decode, budgets, old(state.View()), old(acquisition.Ahead()))
              case Ended(why) =>
                over && failure == why && (why.None? ==> acquisition.received == acquisition.size)
              case Went(q, rest) => !over && failure.None? && state.View() == q && acquisition.Ahead() == rest
  {
    var acquired := acquisition.NextFrame(state.completed);
    if acquired.Violation? {
      return true, Some(acquired.code);
    }
    if acquired.AtEnd? {
      return true, if state.completed then None else Some(Incomplete);
    }
    if state.completed {
      return true, Some(Unexpected);
    }
    var decoded := decode(acquired.frame);
    if decoded.Bad? {
      return true, Some(decoded.code);
    }
    failure := state.Take(decoded.frame);
    over := failure.Some?;
  }

  /** Reading a stream in arbitrary chunks: when the stream fits the total budget the result
      is the parse of the whole stream; otherwise reading fails, having accepted a prefix of
      the parse's outputs. Never more than one byte past the total budget is received, and never
      a whole chunk more than the result depends on. */
  method ReadProtocolStream<D>(decode: seq<Byte> -> Decoded<D>, id: seq<Byte>, budgets: Budgets, stream: seq<Byte>)
      returns (outputs: seq<D>, received: nat, failure: Option<Code>)
    ensures var whole := Parse(decode, budgets, Begin(id), stream);
            && (Fits(budgets, stream) ==> outputs == whole.outputs && failure == whole.failure)
            && (!Fits(budgets, stream) ==>
                  || (failure == Some(Oversized) && outputs <= whole.outputs && received == budgets.maxTotal.value + 1)
                  || (failure.Some? && outputs == whole.outputs && failure == whole.failure))
    ensures failure.None? ==> received == |stream|
    ensures received <= |stream|
    ensures budgets.maxTotal.Some? ==> received <= budgets.maxTotal.value + 1
    ensures var needed := Examined(decode, budgets, Begin(id), stream);
            && received < needed + CHUNK
            && (needed <= received || (failure == Some(Oversized) && Over(budgets.maxTotal, received)))
  {
    var reader := new Reader(stream);
    var acquisition := new FrameAcquisition(reader, budgets.maxFrame, budgets.maxTotal);
    var state := new StreamState<D>(id, budgets.maxOutputs);
    ghost var whole := Parse(decode, budgets, Begin(id), stream);
    ghost var needed := Examined(decode, budgets, Begin(id), stream);
    var over := false;
    failure := None;
    assert acquisition.Ahead() == stream;
    while !over
      invariant acquisition.Valid() && acquisition.reader == reader && acquisition.size == |stream|
      invariant acquisition.maxFrame == budgets.maxFrame && acquisition.maxTotal == budgets.maxTotal
      invariant state.maxOutputs == budgets.maxOutputs && acquisition.received < needed + CHUNK
      invariant !over ==>
                  && !Over(budgets.maxTotal, acquisition.received)
                  && Underway(decode, budgets, state.View(), acquisition.Ahead(), |stream|, whole, needed)
      invariant over ==> if Over(budgets.maxTotal, acquisition.received) then
                           failure == Some(Oversized) && state.outputs <= whole.outputs
                         else
                           && whole == Result(state.outputs, failure) && needed <= acquisition.received
                           && (failure.None? ==> acquisition.received == |stream|)
      decreases !over, |acquisition.Ahead()|
    {
      TurnMeans(decode, budgets, state.View(), acquisition.Ahead(), |stream|, whole, needed);
      over, failure := TakeNext(decode, budgets, acquisition, state);
    }
    outputs := state.outputs;
    received := acquisition.received;
  }
}
