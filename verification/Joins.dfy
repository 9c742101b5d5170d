/** The transport threads of an attempt: the stdin feeder, the output pump and the protocol reader
    with the bounded pipe between the last two. Closing an attempt joins them without a time limit,
    so they have to end by themselves, and they do once the release byte is written. */
module Joins {
  import T = Transports

  const CHUNK: nat := 65536

  type Size = n: nat | n <= CHUNK

  /** What a select call reports to the pump: the release byte, a payload stream, or the
      protocol stream with what a read of it returns. */
  datatype Key = ReleaseKey | PlainKey | ProtocolKey(size: Size)

  datatype Feeder = FeederWriting | FeederSelecting | FeederDone

  /** The pump working off the keys of one select call; `left` is what it still has to forward. */
  datatype Pump = Selecting | Handling(keys: seq<Key>) | Forwarding(left: nat, keys: seq<Key>) | Gone

  /** `Missing`: no thread, yet the read end is open. */
  datatype Reader = Missing | Reading | Closed

  /** `released`: the release byte is in its pipe, so every select reports it. */
  datatype State = State(
    released: bool, room: nat, buffered: nat, feeder: Feeder, pump: Pump, reader: Reader)

  datatype Step =
    | FeederSelects | FeederWrites(ends: bool)
    | PumpSelects(keys: seq<Key>) | PumpHandles(ends: bool) | PumpWrites(count: nat) | PumpWritten
    | ReaderReads(count: nat, violation: bool) | ReaderSeesEnd

  predicate Enabled(s: State, step: Step) {
    match step
    case FeederSelects => s.feeder == FeederSelecting
    case FeederWrites(_) => s.feeder == FeederWriting
    case PumpSelects(keys) =>
      s.pump.Selecting? && keys != [] && |keys| <= 4 && (ReleaseKey in keys <==> s.released)
    case PumpHandles(_) => s.pump.Handling?
    case PumpWrites(count) =>
      s.pump.Forwarding? && s.pump.left > 0
      && (s.reader == Closed || (0 < count <= s.pump.left && s.buffered + count <= s.room))
    case PumpWritten => s.pump.Forwarding? && s.pump.left == 0
    case ReaderReads(count, _) => s.reader == Reading && 0 < count <= s.buffered
    case ReaderSeesEnd => s.reader == Reading && s.buffered == 0 && s.pump.Gone?
  }

  /** One key of the batch; with none left the pump selects again, or ends when every stream has
      ended. Errors end the pump too. */
  function Handle(keys: seq<Key>, ends: bool): Pump {
    if ends then Gone
    else if keys == [] then Selecting
    else match keys[0]
      case ReleaseKey => Gone
      case PlainKey => Handling(keys[1..])
      case ProtocolKey(size) => Forwarding(size, keys[1..])
  }

  function Next(s: State, step: Step): State
    requires Enabled(s, step)
  {
    match step
    case FeederSelects => s.(feeder := if s.released then FeederDone else FeederWriting)
    case FeederWrites(ends) => s.(feeder := if ends then FeederDone else FeederSelecting)
    case PumpSelects(keys) => s.(pump := Handling(keys))
    case PumpHandles(ends) => s.(pump := Handle(s.pump.keys, ends))
    case PumpWrites(count) =>
      if s.reader == Closed then s.(pump := Handling(s.pump.keys))
      else s.(buffered := s.buffered + count, pump := Forwarding(s.pump.left - count, s.pump.keys))
    case PumpWritten => s.(pump := Handling(s.pump.keys))
    case ReaderReads(count, violation) =>
      s.(buffered := s.buffered - count, reader := if violation then Closed else Reading)
    case ReaderSeesEnd => s.(reader := Closed)
  }

  ghost predicate Legal(s: State, steps: seq<Step>)
    decreases |steps|
  {
    steps != [] ==> Enabled(s, steps[0]) && Legal(Next(s, steps[0]), steps[1..])
  }

  ghost function Exec(s: State, steps: seq<Step>): State
    requires Legal(s, steps)
    decreases |steps|
  {
    if steps == [] then s else Exec(Next(s, steps[0]), steps[1..])
  }

  /** Every thread has ended. */
  predicate AllEnded(s: State) {
    s.feeder == FeederDone && s.pump.Gone? && s.reader != Reading
  }

  /** The release byte is written, and the forward pipe has a reader, or its read end is closed,
      or nobody writes to it. */
  predicate Served(s: State) {
    s.released && s.room >= 1 && (s.reader == Missing ==> s.pump.Gone?)
  }

  // ---------- the measure ----------

  const KeyCost: nat := 2 * CHUNK + 2

  const SelectCost: nat := 4 * KeyCost + 2

  function BatchCost(keys: seq<Key>): nat {
    |keys| * KeyCost + 1 + if ReleaseKey in keys then 0 else SelectCost
  }

  function PumpCost(p: Pump): nat {
    match p
    case Gone => 0
    case Selecting => SelectCost
    case Handling(keys) => BatchCost(keys)
    case Forwarding(left, keys) => 2 * left + 1 + BatchCost(keys)
  }

  function Measure(s: State): nat {
    PumpCost(s.pump)
    + (if s.reader == Reading then 1 + s.buffered else 0)
    + match s.feeder { case FeederWriting => 2 case FeederSelecting => 1 case FeederDone => 0 }
  }

  lemma BatchShrinks(keys: seq<Key>)
    requires keys != [] && keys[0] != ReleaseKey
    ensures BatchCost(keys[1..]) + KeyCost == BatchCost(keys)
  {
    assert ReleaseKey in keys <==> ReleaseKey in keys[1..];
    assert |keys| * KeyCost == |keys[1..]| * KeyCost + KeyCost;
  }

  lemma BatchFits(keys: seq<Key>)
    requires ReleaseKey in keys && |keys| <= 4
    ensures BatchCost(keys) < SelectCost
  {
    assert |keys| * KeyCost <= 4 * KeyCost;
  }

  lemma StepShrinks(s: State, step: Step)
    requires Enabled(s, step) && s.released
    ensures Measure(Next(s, step)) < Measure(s)
    ensures Served(s) ==> Served(Next(s, step))
  {
    if step.PumpSelects? {
      BatchFits(step.keys);
    } else if step.PumpHandles? && s.pump.keys != [] && s.pump.keys[0] != ReleaseKey {
      BatchShrinks(s.pump.keys);
    }
  }

  /** Until every thread has ended, some thread can go on. */
  lemma SomeStep(s: State) returns (step: Step)
    requires Served(s) && !AllEnded(s)
    ensures Enabled(s, step)
  {
    if s.feeder != FeederDone {
      step := if s.feeder == FeederSelecting then FeederSelects else FeederWrites(false);
    } else if s.pump.Selecting? {
      step := PumpSelects([ReleaseKey]);
    } else if s.pump.Handling? {
      step := PumpHandles(false);
    } else if s.pump.Forwarding? && s.pump.left == 0 {
      step := PumpWritten;
    } else if s.pump.Forwarding? && (s.reader == Closed || s.buffered < s.room) {
      step := PumpWrites(1);
    } else if s.buffered > 0 {
      step := ReaderReads(1, false);
    } else {
      step := ReaderSeesEnd;
    }
  }

  lemma {:induction false} RunsAreBounded(s: State, steps: seq<Step>)
    requires Legal(s, steps) && Served(s)
    ensures |steps| <= Measure(s) && Served(Exec(s, steps))
    decreases |steps|
  {
    if steps != [] {
      StepShrinks(s, steps[0]);
      RunsAreBounded(Next(s, steps[0]), steps[1..]);
    }
  }

  /** After the release every run of the threads is bounded, and where none can go on all have
      ended: the joins of a close return, whatever the child still writes. */
  lemma JoinsReturn(s: State, steps: seq<Step>)
    requires Served(s) && Legal(s, steps)
    ensures |steps| <= Measure(s)
    ensures (forall step :: !Enabled(Exec(s, steps), step)) <==> AllEnded(Exec(s, steps))
  {
    RunsAreBounded(s, steps);
    if !AllEnded(Exec(s, steps)) {
      var step := SomeStep(Exec(s, steps));
    }
  }

  // ---------- the joins of a close ----------

  /** The threads as they are when an attempt comes to its joins: ended unless still running; a
      forward pipe whose read end was closed, or that the target does not have, takes no bytes. */
  predicate StandsFor(a: T.State, s: State) {
    && |a.workers| == 3
    && (s.released <==> T.Use(T.ReleaseWrite) in a.log)
    && (s.feeder == FeederDone <==> a.workers[0] != T.Running)
    && (s.pump.Gone? <==> a.workers[1] != T.Running)
    && s.reader == (if a.workers[2] == T.Running then Reading
                    else if !a.wants.protocol || T.Close(T.ForwardRead) in a.log then Closed
                    else Missing)
  }

  /** For every target, every fault and every moment at which a close comes to its joins: the
      forward pipe is served, every run of the threads is bounded, and where none can go on all
      have ended, so that the joins return. */
  lemma CloseJoinsReturn(w: T.Wants, before: seq<T.Step>, s: State, steps: seq<Step>)
    requires w.protocol ==> w.digest
    requires T.Legal(T.Init(w), before) && T.Exec(T.Init(w), before).main == T.JoinAll
    requires StandsFor(T.Exec(T.Init(w), before), s) && s.room >= 1 && Legal(s, steps)
    ensures Served(s) && |steps| <= Measure(s)
    ensures (forall step :: !Enabled(Exec(s, steps), step)) ==> AllEnded(Exec(s, steps))
  {
    T.JoinedPumpIsServed(w, before);
    T.InitHolds(w);
    T.RunKeeps(T.Init(w), before);
    T.EndedReaderClosed(w, before);
    T.ReleaseComesFirst(w, before);
    JoinsReturn(s, steps);
  }

  /** Without a reader for an open forward pipe the pump can be stuck in a write for good. */
  lemma AnUnservedPumpCanHang(room: nat, left: nat, keys: seq<Key>)
    requires left > 0
    ensures var s := State(true, room, room, FeederDone, Forwarding(left, keys), Missing);
            !AllEnded(s) && forall step :: !Enabled(s, step)
  {
  }

  /** Without the release byte a child that keeps writing keeps the pump going: for every number
      of rounds there is a run that ends where it began. */
  lemma {:induction false} AnUnreleasedPumpNeedNotEnd(s: State, rounds: nat) returns (steps: seq<Step>)
    requires !s.released && s.pump.Selecting?
    ensures |steps| == 3 * rounds && Legal(s, steps) && Exec(s, steps) == s
  {
    steps := [];
    if rounds > 0 {
      var more := AnUnreleasedPumpNeedNotEnd(s, rounds - 1);
      var handling, empty := s.(pump := Handling([PlainKey])), s.(pump := Handling([]));
      assert [PlainKey][1..] == [];
      assert Next(s, PumpSelects([PlainKey])) == handling;
      assert Next(handling, PumpHandles(false)) == empty && Next(empty, PumpHandles(false)) == s;
      var last, middle := [PumpHandles(false)] + more, [PumpHandles(false), PumpHandles(false)] + more;
      steps := [PumpSelects([PlainKey]), PumpHandles(false), PumpHandles(false)] + more;
      assert last[1..] == more && middle[1..] == last && steps[1..] == middle;
      assert last[0] == PumpHandles(false) && middle[0] == PumpHandles(false) && steps[0] == PumpSelects([PlainKey]);
      assert Legal(empty, last) && Exec(empty, last) == s;
      assert Legal(handling, middle) && Exec(handling, middle) == s;
    }
  }

  // ---------- what the reader gets ----------

  /** Protocol bytes the pump still has to write. */
  function Left(p: Pump): nat {
    if p.Forwarding? then p.left else 0
  }

  /** Protocol bytes that a run of the pump reads from the child. */
  ghost function TakenIn(s: State, steps: seq<Step>): nat
    requires Legal(s, steps)
    decreases |steps|
  {
    if steps == [] then 0
    else
      (if steps[0] == PumpHandles(false) && s.pump.keys != [] && s.pump.keys[0].ProtocolKey?
       then s.pump.keys[0].size else 0)
      + TakenIn(Next(s, steps[0]), steps[1..])
  }

  /** Bytes that a run of the reader takes from the forward pipe. */
  ghost function ReadOut(s: State, steps: seq<Step>): nat
    requires Legal(s, steps)
    decreases |steps|
  {
    if steps == [] then 0
    else (if steps[0].ReaderReads? then steps[0].count else 0) + ReadOut(Next(s, steps[0]), steps[1..])
  }

  /** As long as the reader reads, every protocol byte the pump took in has been read by it, is in
      the pipe, or is still to be written. */
  lemma {:induction false} ForwardingLosesNothing(s: State, steps: seq<Step>)
    requires Legal(s, steps) && Exec(s, steps).reader == Reading
    ensures var e := Exec(s, steps);
            Left(s.pump) + s.buffered + TakenIn(s, steps) == Left(e.pump) + e.buffered + ReadOut(s, steps)
    decreases |steps|
  {
    if steps != [] {
      ReaderWasReading(Next(s, steps[0]), steps[1..]);
      ForwardingLosesNothing(Next(s, steps[0]), steps[1..]);
    }
  }

  lemma {:induction false} ReaderWasReading(s: State, steps: seq<Step>)
    requires Legal(s, steps) && Exec(s, steps).reader == Reading
    ensures s.reader == Reading
    decreases |steps|
  {
    if steps != [] {
      ReaderWasReading(Next(s, steps[0]), steps[1..]);
    }
  }
}
