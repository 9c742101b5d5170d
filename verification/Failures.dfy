/** Which failure a stream has, and exactly when: every stream is a run of accepted lines, and
    either it ends there completed or what follows violates the protocol in one stated way. */
module Failures {
  import opened Basics
  import opened Framing
  import opened Automaton

  /** How far the protocol has come: nothing read, the prelude read, the completion read. */
  datatype Place = Start | Opened | Closed

  function Texts(lines: seq<seq<Byte>>): seq<Byte> {
    if lines == [] then [] else Texts(lines[..|lines| - 1]) + Line(lines[|lines| - 1])
  }

  /** The lines of a protocol in order, up to a place, with the documents of its outputs. */
  ghost predicate Reached<D>(
      decode: seq<Byte> -> Decoded<D>, budgets: Budgets, id: seq<Byte>, place: Place, docs: seq<D>,
      lines: seq<seq<Byte>>)
  {
    && (forall k :: 0 <= k < |lines| ==> LFFree(lines[k]) && !Over(budgets.maxFrame, |lines[k]|))
    && (docs != [] ==> !Over(budgets.maxOutputs, |docs|))
    && (place.Start? ==> lines == [] && docs == [])
    && (place.Opened? ==> |lines| == |docs| + 1)
    && (place.Closed? ==> |lines| == |docs| + 2 && decode(lines[|docs| + 1]) == Good(Complete(|docs|)))
    && (!place.Start? ==>
          && decode(lines[0]) == Good(Prelude(id))
          && forall k :: 0 <= k < |docs| ==> decode(lines[k + 1]) == Good(Output(k, docs[k])))
  }

  /** How a whole frame can be wrong after `n` outputs. */
  predicate Wrong<D>(
      place: Place, id: seq<Byte>, n: nat, maxOutputs: Option<nat>, frame: Frame<D>, code: Code)
  {
    match code
    case IdMismatch => place.Start? && frame.Prelude? && frame.id != id
    case DuplicateOutput => place.Opened? && frame.Output? && frame.sequence < n
    case Oversized => place.Opened? && frame.Output? && frame.sequence == n && Over(maxOutputs, n + 1)
    case Incomplete => place.Opened? && frame.Complete? && frame.count != n
    case Unexpected =>
      || (place.Start? && !frame.Prelude?)
      || (place.Opened? && frame.Prelude?)
      || (place.Opened? && frame.Output? && frame.sequence > n)
      || place.Closed?
    case Malformed => false
  }

  /** How the rest of a stream can end the reading. */
  predicate Halts<D>(
      decode: seq<Byte> -> Decoded<D>, budgets: Budgets, id: seq<Byte>, place: Place, n: nat, rest: seq<Byte>,
      code: Code)
  {
    var i := FindLF(rest);
    if Over(budgets.maxFrame, i) then code == Oversized
    else if rest == [] then !place.Closed? && code == Incomplete
    else if place.Closed? then code == Unexpected
    else if i == |rest| then code == Incomplete
    else
      match decode(rest[..i])
      case Bad(refusal) => code == refusal
      case Good(frame) => Wrong(place, id, n, budgets.maxOutputs, frame, code)
  }

  /** The stream fails with the code, after the outputs of the documents. */
  ghost predicate Halted<D(!new)>(
      decode: seq<Byte> -> Decoded<D>, budgets: Budgets, id: seq<Byte>, docs: seq<D>, code: Code, stream: seq<Byte>)
  {
    exists place, lines, rest ::
      HaltedAt(decode, budgets, id, docs, code, stream, place, lines, rest)
  }

  ghost predicate HaltedAt<D>(
      decode: seq<Byte> -> Decoded<D>, budgets: Budgets, id: seq<Byte>, docs: seq<D>, code: Code, stream: seq<Byte>,
      place: Place, lines: seq<seq<Byte>>, rest: seq<Byte>)
  {
    && stream == Texts(lines) + rest
    && Reached(decode, budgets, id, place, docs, lines)
    && Halts(decode, budgets, id, place, |docs|, rest, code)
  }

  // ---------- the automaton gets to every place ----------

  function PlaceOf(preludeSeen: bool, completed: bool): Place {
    if !preludeSeen then Start else if completed then Closed else Opened
  }

  function At<D>(id: seq<Byte>, place: Place, docs: seq<D>): Progress<D> {
    Progress(id, docs, !place.Start?, place.Closed?)
  }

  /** The automaton refuses a frame exactly as stated. */
  lemma RefusedExactlyWhenWrong<D>(
      id: seq<Byte>, place: Place, docs: seq<D>, maxOutputs: Option<nat>, frame: Frame<D>, code: Code)
    requires place.Start? ==> docs == []
    ensures Accept(At(id, place, docs), frame, maxOutputs) == Refused(code)
            <==> Wrong(place, id, |docs|, maxOutputs, frame, code)
  {
  }

  lemma LastLine<D>(decode: seq<Byte> -> Decoded<D>, budgets: Budgets, id: seq<Byte>, place: Place, docs: seq<D>,
                    lines: seq<seq<Byte>>) returns (before: Place, some: seq<D>, frame: Frame<D>)
    requires Reached(decode, budgets, id, place, docs, lines) && lines != []
    ensures Reached(decode, budgets, id, before, some, lines[..|lines| - 1]) && !before.Closed?
    ensures decode(lines[|lines| - 1]) == Good(frame)
    ensures Accept(At(id, before, some), frame, budgets.maxOutputs) == Accepted(At(id, place, docs))
  {
    if place.Closed? {
      before, some, frame := Opened, docs, Complete(|docs|);
    } else if docs == [] {
      before, some, frame := Start, [], Prelude(id);
    } else {
      before, some, frame := Opened, docs[..|docs| - 1], Output(|docs| - 1, docs[|docs| - 1]);
      assert some + [docs[|docs| - 1]] == docs;
    }
  }

  lemma {:induction false} ParsesUpTo<D>(
      decode: seq<Byte> -> Decoded<D>, budgets: Budgets, id: seq<Byte>, place: Place, docs: seq<D>,
      lines: seq<seq<Byte>>, rest: seq<Byte>)
    requires Reached(decode, budgets, id, place, docs, lines)
    ensures Parse(decode, budgets, Begin(id), Texts(lines) + rest) == Parse(decode, budgets, At(id, place, docs), rest)
    decreases |lines|
  {
    if lines == [] {
      assert Texts(lines) + rest == rest;
    } else {
      var last := lines[|lines| - 1];
      var before, some, frame := LastLine(decode, budgets, id, place, docs, lines);
      Regroup(Texts(lines[..|lines| - 1]), Line(last), rest);
      ParsesUpTo(decode, budgets, id, before, some, lines[..|lines| - 1], Line(last) + rest);
      ParseLine(decode, budgets, At(id, before, some), At(id, place, docs), frame, last, rest);
    }
  }

  lemma HaltsHere<D>(
      decode: seq<Byte> -> Decoded<D>, budgets: Budgets, id: seq<Byte>, place: Place, docs: seq<D>, rest: seq<Byte>,
      code: Code)
    requires place.Start? ==> docs == []
    requires Halts(decode, budgets, id, place, |docs|, rest, code)
    ensures Parse(decode, budgets, At(id, place, docs), rest) == Result(docs, Some(code))
  {
    var i := FindLF(rest);
    if !Over(budgets.maxFrame, i) && i < |rest| && !place.Closed? && decode(rest[..i]).Good? {
      RefusedExactlyWhenWrong(id, place, docs, budgets.maxOutputs, decode(rest[..i]).frame, code);
    }
  }

  // ---------- and every failure is one of these ----------

  /** One more accepted line. */
  lemma Advances<D>(
      decode: seq<Byte> -> Decoded<D>, budgets: Budgets, id: seq<Byte>, place: Place, docs: seq<D>,
      lines: seq<seq<Byte>>, text: seq<Byte>) returns (next: Place, more: seq<D>)
    requires Reached(decode, budgets, id, place, docs, lines) && !place.Closed?
    requires LFFree(text) && !Over(budgets.maxFrame, |text|) && decode(text).Good?
    requires Accept(At(id, place, docs), decode(text).frame, budgets.maxOutputs).Accepted?
    ensures Reached(decode, budgets, id, next, more, lines + [text])
    ensures Accept(At(id, place, docs), decode(text).frame, budgets.maxOutputs).progress == At(id, next, more)
  {
    match decode(text).frame
    case Prelude(_) => next, more := Opened, [];
    case Output(_, document) => next, more := Opened, docs + [document];
    case Complete(_) => next, more := Closed, docs;
  }

  lemma TextsGrow(lines: seq<seq<Byte>>, rest: seq<Byte>, i: nat)
    requires i < |rest| && rest[i] == LF
    ensures Texts(lines) + rest == Texts(lines + [rest[..i]]) + rest[i + 1..]
  {
    var longer := lines + [rest[..i]];
    assert longer[..|longer| - 1] == lines;
    assert rest == Line(rest[..i]) + rest[i + 1..];
    Regroup(Texts(lines), Line(rest[..i]), rest[i + 1..]);
  }

  lemma {:induction false} FailsSomewhere<D>(
      decode: seq<Byte> -> Decoded<D>, budgets: Budgets, id: seq<Byte>, stream: seq<Byte>,
      place: Place, docs: seq<D>, lines: seq<seq<Byte>>, rest: seq<Byte>)
      returns (where: Place, all: seq<seq<Byte>>, left: seq<Byte>)
    requires stream == Texts(lines) + rest && Reached(decode, budgets, id, place, docs, lines)
    requires Parse(decode, budgets, At(id, place, docs), rest).failure.Some?
    ensures var r := Parse(decode, budgets, At(id, place, docs), rest);
            HaltedAt(decode, budgets, id, r.outputs, r.failure.value, stream, where, all, left)
    decreases |rest|
  {
    var i := FindLF(rest);
    where, all, left := place, lines, rest;
    if !Over(budgets.maxFrame, i) && i < |rest| && !place.Closed? && decode(rest[..i]).Good? {
      var frame := decode(rest[..i]).frame;
      var step := Accept(At(id, place, docs), frame, budgets.maxOutputs);
      if step.Accepted? {
        var next, more := Advances(decode, budgets, id, place, docs, lines, rest[..i]);
        TextsGrow(lines, rest, i);
        where, all, left := FailsSomewhere(decode, budgets, id, stream, next, more, lines + [rest[..i]], rest[i + 1..]);
      } else {
        RefusedExactlyWhenWrong(id, place, docs, budgets.maxOutputs, frame, step.code);
      }
    }
  }

  /** A stream fails with a code after certain outputs exactly when its accepted lines end there
      and what follows is wrong in the way the code stands for. */
  lemma FailsExactlyWhen<D(!new)>(
      decode: seq<Byte> -> Decoded<D>, budgets: Budgets, id: seq<Byte>, stream: seq<Byte>, docs: seq<D>, code: Code)
    ensures Parse(decode, budgets, Begin(id), stream) == Result(docs, Some(code))
            <==> Halted(decode, budgets, id, docs, code, stream)
  {
    if Parse(decode, budgets, Begin(id), stream) == Result(docs, Some(code)) {
      assert Texts([]) + stream == stream;
      assert At(id, Start, []) == Begin<D>(id);
      var place, lines, rest := FailsSomewhere(decode, budgets, id, stream, Start, [], [], stream);
    }
    if Halted(decode, budgets, id, docs, code, stream) {
      var place, lines, rest :| HaltedAt(decode, budgets, id, docs, code, stream, place, lines, rest);
      ParsesUpTo(decode, budgets, id, place, docs, lines, rest);
      HaltsHere(decode, budgets, id, place, docs, rest, code);
    }
  }
}
