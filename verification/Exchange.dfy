/** One worker process and the jobs that use it in turn: two bounded byte pipes, the worker's
    serve loop, the parent's reader thread, and the calling side that sends one request and
    takes one frame, with stops and deaths at any point. */
module Exchange {
  import opened Basics
  import opened Framing

  type Bytes = seq<Byte>

  /** The worker process; `rest` is what it still has to write. */
  datatype Process = Importing | Serving | Handling(request: Bytes) | Writing(rest: Bytes) | Dead

  /** The side of the caller that holds the lease; `rest` is what it still has to send. */
  datatype Caller = Free | Starting(job: Bytes) | Sending(job: Bytes, rest: Bytes) | Receiving(job: Bytes) | Retired

  /** The request pipe and what the worker has read of the next line; the result pipe and what
      the reader thread has read of the next line; the reader thread's queue: published lines,
      then possibly the death marker. Each pipe holds at most `room` bytes. */
  datatype Pipes = Pipes(
    room: nat, requests: Bytes, reading: Bytes, results: Bytes, partial: Bytes, box: seq<Bytes>, eof: bool)

  /** A request line and a frame that came for it. */
  datatype Reply = Reply(request: Bytes, frame: Bytes)

  /** `answered` is the worker's own record, `delivered` the callers'. */
  datatype History = History(answered: seq<Reply>, delivered: seq<Reply>)

  datatype State = State(process: Process, caller: Caller, ready: bool, pipes: Pipes, history: History)

  const READY: Bytes := [114, 101, 97, 100, 121, 10]

  function Init(room: nat): State {
    State(Importing, Free, false, Pipes(room, [], [], [], [], [], false), History([], []))
  }

  datatype Step =
    | Lease(job: Bytes) | AwaitReady | Send(count: nat) | SendFails | Receive | Stop
    | Imported | Fetch(count: nat) | ReadRequest | Answer(answer: Bytes) | Write(count: nat) | Die
    | Drain(count: nat) | Publish | PublishDeath

  predicate HasLine(b: Bytes) {
    FindLF(b) < |b|
  }

  predicate Enabled(s: State, step: Step) {
    match step
    case Lease(job) => s.caller == Free && LFFree(job)
    case AwaitReady => s.caller.Starting? && (s.ready || s.pipes.box != [] || s.pipes.eof)
    case Send(count) => s.caller.Sending? && 0 < count <= |s.caller.rest| && |s.pipes.requests| + count <= s.pipes.room
    case SendFails => s.caller.Sending? && s.process == Dead
    case Receive => s.caller.Receiving? && (s.pipes.box != [] || s.pipes.eof)
    case Stop => (s.caller.Starting? && !s.ready) || s.caller.Receiving?
    case Imported => s.process == Importing
    case Fetch(count) => s.process == Serving && !HasLine(s.pipes.reading) && 0 < count <= |s.pipes.requests|
    case ReadRequest => s.process == Serving && HasLine(s.pipes.reading)
    case Answer(answer) => s.process.Handling? && LFFree(answer)
    case Write(count) =>
      s.process.Writing? && 0 < count <= |s.process.rest| && |s.pipes.results| + count <= s.pipes.room
    case Die => s.process != Dead
    case Drain(count) => 0 < count <= |s.pipes.results|
    case Publish => HasLine(s.pipes.partial)
    case PublishDeath => s.process == Dead && s.pipes.results == [] && !HasLine(s.pipes.partial) && !s.pipes.eof
  }

  predicate OfCaller(step: Step) {
    step.Lease? || step.AwaitReady? || step.Send? || step.SendFails? || step.Receive? || step.Stop?
  }

  predicate OfReader(step: Step) {
    step.Drain? || step.Publish? || step.PublishDeath?
  }

  /** The calling side: `_dispatch`, `wait_for_ready`, `_exchange`. A lease that is discarded
      ends in `Retired`; a released one in `Free`. */
  function CallerStep(s: State, step: Step): State
    requires Enabled(s, step) && OfCaller(step)
  {
    var pipes := s.pipes;
    match step
    case Lease(job) => s.(caller := Starting(job))
    case AwaitReady =>
      var job := s.caller.job;
      if s.ready then s.(caller := Sending(job, Line(job)))
      else if pipes.box == [] then s.(caller := Retired)
      else if pipes.box[0] != READY then s.(caller := Retired, pipes := pipes.(box := pipes.box[1..]))
      else s.(caller := Sending(job, Line(job)), ready := true, pipes := pipes.(box := pipes.box[1..]))
    case Send(count) =>
      var (job, rest) := (s.caller.job, s.caller.rest);
      s.(caller := if count == |rest| then Receiving(job) else Sending(job, rest[count..]),
         pipes := pipes.(requests := pipes.requests + rest[..count]))
    case SendFails => s.(caller := Retired)
    case Receive =>
      if pipes.box == [] then s.(caller := Retired)
      else s.(caller := Free, pipes := pipes.(box := pipes.box[1..]),
              history := s.history.(delivered := s.history.delivered + [Reply(Line(s.caller.job), pipes.box[0])]))
    case Stop => s.(caller := Retired)
  }

  /** The worker's serve loop. */
  function WorkerStep(s: State, step: Step): State
    requires Enabled(s, step) && !OfCaller(step) && !OfReader(step)
  {
    var pipes := s.pipes;
    match step
    case Imported => s.(process := Writing(READY))
    case Fetch(count) =>
      s.(pipes := pipes.(reading := pipes.reading + pipes.requests[..count], requests := pipes.requests[count..]))
    case ReadRequest =>
      var cut := FindLF(pipes.reading) + 1;
      s.(process := Handling(pipes.reading[..cut]), pipes := pipes.(reading := pipes.reading[cut..]))
    case Answer(answer) =>
      s.(process := Writing(Line(answer)),
         history := s.history.(answered := s.history.answered + [Reply(s.process.request, Line(answer))]))
    case Write(count) =>
      var rest := s.process.rest;
      s.(process := if count == |rest| then Serving else Writing(rest[count..]),
         pipes := pipes.(results := pipes.results + rest[..count]))
    case Die => s.(process := Dead)
  }

  /** The parent's reader thread. */
  function ReaderStep(s: State, step: Step): State
    requires Enabled(s, step) && OfReader(step)
  {
    var pipes := s.pipes;
    match step
    case Drain(count) =>
      s.(pipes := pipes.(partial := pipes.partial + pipes.results[..count], results := pipes.results[count..]))
    case Publish =>
      var cut := FindLF(pipes.partial) + 1;
      s.(pipes := pipes.(box := pipes.box + [pipes.partial[..cut]], partial := pipes.partial[cut..]))
    case PublishDeath => s.(pipes := pipes.(partial := [], eof := true))
  }

  function Next(s: State, step: Step): State
    requires Enabled(s, step)
  {
    if OfCaller(step) then CallerStep(s, step)
    else if OfReader(step) then ReaderStep(s, step)
    else WorkerStep(s, step)
  }

  ghost predicate Legal(s: State, steps: seq<Step>)
    decreases |steps|
  {
    steps != [] ==> Enabled(s, steps[0]) && Legal(Next(s, steps[0]), steps[1..])
  }

  ghost function Exec(s: State, steps: seq<Step>): State
    requires Legal(s, steps)
    decreases |steps|
  {
    if steps == [] then s else Exec(Next(s, steps[0]), steps[1..])
  }

  // ---------- what every step keeps ----------

  /** A whole line: one LF, at its end. */
  predicate IsLine(b: Bytes) {
    b != [] && FindLF(b) == |b| - 1
  }

  /** Bytes on their way to the worker's serve loop. */
  function Incoming(p: Pipes): Bytes {
    p.reading + p.requests
  }

  /** Bytes on their way to the reader thread's queue. */
  function Outgoing(p: Pipes): Bytes {
    p.partial + p.results
  }

  predicate Silent(p: Pipes) {
    p.box == [] && Outgoing(p) == []
  }

  /** `line` is on its way from the worker to the caller, or died on the way. */
  predicate Carries(process: Process, out: Bytes, box: seq<Bytes>, line: Bytes) {
    match process
    case Importing => false
    case Handling(_) => false
    case Writing(rest) => box == [] && rest != [] && out + rest == line
    case Serving => (box == [] && out == line) || (box == [line] && out == [])
    case Dead => (box == [] && out <= line) || (box == [line] && out == [])
  }

  predicate AtRest(process: Process) {
    process == Serving || process == Dead
  }

  /** Before the ready frame was taken. */
  predicate Unready(s: State) {
    && Incoming(s.pipes) == [] && s.history.answered == []
    && ((s.process == Importing && Silent(s.pipes)) || Carries(s.process, Outgoing(s.pipes), s.pipes.box, READY))
  }

  /** Nothing asked, nothing on its way. */
  predicate Clean(s: State) {
    s.history.delivered == s.history.answered && Silent(s.pipes) && AtRest(s.process)
  }

  /** The request is on its way to the worker or in its hands. */
  predicate Asked(s: State, job: Bytes) {
    && s.history.delivered == s.history.answered && Silent(s.pipes)
    && match s.process
       case Serving => Incoming(s.pipes) == Line(job)
       case Handling(request) => request == Line(job) && Incoming(s.pipes) == []
       case Dead => true
       case _ => false
  }

  /** The worker answered and the answer is on its way. */
  predicate Answered(s: State, job: Bytes) {
    var (done, got) := (s.history.answered, |s.history.delivered|);
    && |done| == got + 1 && done[..got] == s.history.delivered
    && done[got].request == Line(job) && IsLine(done[got].frame)
    && Incoming(s.pipes) == [] && Carries(s.process, Outgoing(s.pipes), s.pipes.box, done[got].frame)
  }

  predicate CallerInv(s: State) {
    match s.caller
    case Free => if s.ready then Clean(s) && Incoming(s.pipes) == [] else Unready(s)
    case Starting(job) =>
      LFFree(job) && if s.ready then Clean(s) && Incoming(s.pipes) == [] else Unready(s)
    case Sending(job, rest) =>
      s.ready && LFFree(job) && Clean(s) && rest != [] && Incoming(s.pipes) + rest == Line(job)
    case Receiving(job) => s.ready && LFFree(job) && (Asked(s, job) || Answered(s, job))
    case Retired => true
  }

  predicate Inv(s: State) {
    && CallerInv(s)
    && s.history.delivered <= s.history.answered
    && (s.pipes.eof ==> s.process == Dead && Outgoing(s.pipes) == [])
  }

  lemma LineIsLine(b: Bytes)
    requires LFFree(b)
    ensures IsLine(Line(b)) && FindLF(Line(b)) == |b|
  {
    FindLFInLine(b, []);
    assert Line(b) + [] == Line(b);
  }

  lemma ReadyIsLine()
    ensures IsLine(READY)
  {
    LineIsLine(READY[..5]);
    assert Line(READY[..5]) == READY;
  }

  /** A prefix of a line that holds a line is all of it. */
  lemma PrefixWithLine(p: Bytes, line: Bytes)
    requires IsLine(line) && p <= line
    ensures HasLine(p) <==> p == line
  {
    if HasLine(p) {
      assert line[FindLF(p)] == LF;
    }
  }

  lemma MovedAlong(a: Bytes, b: Bytes, count: nat)
    requires count <= |b|
    ensures a + b[..count] + b[count..] == a + b
  {
  }

  lemma CallerKeeps(s: State, step: Step)
    requires Inv(s) && Enabled(s, step) && OfCaller(step)
    ensures Inv(Next(s, step))
  {
    match step
    case Lease(job) =>
    case AwaitReady => assert [] + Line(s.caller.job) == Line(s.caller.job);
    case Send(count) =>
      var rest := s.caller.rest;
      Regroup(s.pipes.reading, s.pipes.requests, rest[..count]);
      MovedAlong(Incoming(s.pipes), rest, count);
    case SendFails =>
    case Receive =>
    case Stop =>
  }

  lemma WriteCarries(process: Process, out: Bytes, box: seq<Bytes>, line: Bytes, count: nat)
    requires process.Writing? && 0 < count <= |process.rest| && Carries(process, out, box, line)
    ensures var rest := process.rest;
            Carries(if count == |rest| then Serving else Writing(rest[count..]), out + rest[..count], box, line)
  {
    MovedAlong(out, process.rest, count);
  }

  lemma WriteKeeps(s: State, count: nat)
    requires Inv(s) && Enabled(s, Write(count))
    ensures Inv(Next(s, Write(count)))
  {
    Regroup(s.pipes.partial, s.pipes.results, s.process.rest[..count]);
    match s.caller
    case Receiving(job) =>
      WriteCarries(s.process, Outgoing(s.pipes), s.pipes.box, s.history.answered[|s.history.delivered|].frame, count);
    case Free => WriteCarries(s.process, Outgoing(s.pipes), s.pipes.box, READY, count);
    case Starting(_) => WriteCarries(s.process, Outgoing(s.pipes), s.pipes.box, READY, count);
    case Sending(_, _) =>
    case Retired =>
  }

  /** A line that is complete on the reader's side is the whole of what is on its way. */
  lemma PublishCarries(process: Process, p: Pipes, line: Bytes)
    requires IsLine(line) && HasLine(p.partial) && Carries(process, Outgoing(p), p.box, line)
    ensures var cut := FindLF(p.partial) + 1;
            var q := p.(box := p.box + [p.partial[..cut]], partial := p.partial[cut..]);
            && Outgoing(q) == [] && q.box == [line]
            && Carries(process, Outgoing(q), q.box, line)
  {
    assert p.partial <= Outgoing(p) <= line;
    PrefixWithLine(p.partial, line);
    assert line[..|line|] == line && line[|line|..] == [];
    assert p.results == [] && p.box + [line] == [line];
  }

  lemma PublishKeepsUnready(s: State)
    requires Inv(s) && Enabled(s, Publish) && Unready(s) && (s.caller.Free? || s.caller.Starting?) && !s.ready
    ensures Inv(Next(s, Publish))
  {
    ReadyIsLine();
    PublishCarries(s.process, s.pipes, READY);
  }

  lemma PublishKeepsAnswered(s: State)
    requires Inv(s) && Enabled(s, Publish) && s.caller.Receiving? && Answered(s, s.caller.job)
    ensures Inv(Next(s, Publish))
  {
    PublishCarries(s.process, s.pipes, s.history.answered[|s.history.delivered|].frame);
    assert Answered(Next(s, Publish), s.caller.job);
  }

  lemma SilentHasNoLine(p: Pipes)
    requires Silent(p)
    ensures !HasLine(p.partial)
  {
  }

  lemma PublishKeeps(s: State)
    requires Inv(s) && Enabled(s, Publish)
    ensures Inv(Next(s, Publish))
  {
    assert !Silent(s.pipes) by { if Silent(s.pipes) { SilentHasNoLine(s.pipes); } }
    if s.caller.Receiving? {
      PublishKeepsAnswered(s);
    } else if !s.caller.Retired? {
      PublishKeepsUnready(s);
    }
  }

  lemma DrainKeeps(s: State, count: nat)
    requires Inv(s) && Enabled(s, Drain(count))
    ensures Inv(Next(s, Drain(count)))
  {
    MovedAlong(s.pipes.partial, s.pipes.results, count);
  }

  lemma FetchKeeps(s: State, count: nat)
    requires Inv(s) && Enabled(s, Fetch(count))
    ensures Inv(Next(s, Fetch(count)))
  {
    MovedAlong(s.pipes.reading, s.pipes.requests, count);
  }

  lemma ReadRequestKeeps(s: State)
    requires Inv(s) && Enabled(s, ReadRequest)
    ensures Inv(Next(s, ReadRequest))
  {
    match s.caller
    case Receiving(job) =>
      LineIsLine(job);
      if Asked(s, job) { PrefixWithLine(s.pipes.reading, Line(job)); }
    case Sending(job, rest) =>
      LineIsLine(job);
      PrefixWithLine(s.pipes.reading, Line(job));
    case Free =>
    case Starting(_) =>
    case Retired =>
  }

  lemma AnswerKeeps(s: State, answer: Bytes)
    requires Inv(s) && Enabled(s, Answer(answer))
    ensures Inv(Next(s, Answer(answer)))
  {
    LineIsLine(answer);
    assert [] + Line(answer) == Line(answer);
  }

  lemma ImportedKeeps(s: State)
    requires Inv(s) && Enabled(s, Imported)
    ensures Inv(Next(s, Imported))
  {
    assert [] + READY == READY;
  }

  lemma PublishDeathKeeps(s: State)
    requires Inv(s) && Enabled(s, PublishDeath)
    ensures Inv(Next(s, PublishDeath))
  {
    ReadyIsLine();
    assert Outgoing(s.pipes) == s.pipes.partial;
  }

  lemma StepKeeps(s: State, step: Step)
    requires Inv(s) && Enabled(s, step)
    ensures Inv(Next(s, step))
  {
    if OfCaller(step) {
      CallerKeeps(s, step);
    } else {
      match step
      case Imported => ImportedKeeps(s);
      case Fetch(count) => FetchKeeps(s, count);
      case ReadRequest => ReadRequestKeeps(s);
      case Answer(answer) => AnswerKeeps(s, answer);
      case Write(count) => WriteKeeps(s, count);
      case Die =>
      case Drain(count) => DrainKeeps(s, count);
      case Publish => PublishKeeps(s);
      case PublishDeath => PublishDeathKeeps(s);
    }
  }

  lemma {:induction false} RunKeeps(s: State, steps: seq<Step>)
    requires Inv(s) && Legal(s, steps)
    ensures Inv(Exec(s, steps))
    decreases |steps|
  {
    if steps != [] {
      StepKeeps(s, steps[0]);
      RunKeeps(Next(s, steps[0]), steps[1..]);
    }
  }

  // ---------- the results ----------

  /** In every run, the k-th frame a caller took is what the worker wrote for the k-th request
      it read, and that request was that caller's own. */
  lemma EveryFrameAnswersItsOwnRequest(room: nat, steps: seq<Step>)
    requires Legal(Init(room), steps)
    ensures var h := Exec(Init(room), steps).history;
            |h.delivered| <= |h.answered| <= |h.delivered| + 1 || Exec(Init(room), steps).caller == Retired
    ensures var h := Exec(Init(room), steps).history;
            |h.delivered| <= |h.answered|
            && forall k :: 0 <= k < |h.delivered| ==> h.delivered[k] == h.answered[k]
  {
    RunKeeps(Init(room), steps);
  }

  /** A worker that went back to the queue is ready, has no unanswered request and no
      buffered result frame. */
  lemma ReturnedWorkerIsClean(room: nat, steps: seq<Step>)
    requires Legal(Init(room), steps) && Exec(Init(room), steps).caller == Free
    ensures var s := Exec(Init(room), steps);
            s.history.delivered != [] ==>
              && s.ready && Incoming(s.pipes) == [] && Outgoing(s.pipes) == [] && s.pipes.box == []
              && |s.history.answered| == |s.history.delivered| && !s.process.Handling? && !s.process.Writing?
  {
    RunKeeps(Init(room), steps);
  }

  /** The wait for readiness lets a job through exactly when the worker is ready or its frame is
      the ready frame; anything else, and a death, costs the lease. */
  lemma OnlyTheReadyFrameLetsThrough(s: State)
    requires Enabled(s, AwaitReady)
    ensures var n := Next(s, AwaitReady);
            if s.ready || (s.pipes.box != [] && s.pipes.box[0] == READY) then
              n.caller == Sending(s.caller.job, Line(s.caller.job)) && n.ready
            else n.caller == Retired
  {
  }

  /** A stop and a death before the result cost the lease and deliver nothing. */
  lemma StopsAndDeathsCostTheLease(s: State)
    ensures Enabled(s, Stop) ==> Next(s, Stop) == s.(caller := Retired)
    ensures Enabled(s, SendFails) ==> Next(s, SendFails) == s.(caller := Retired)
    ensures Enabled(s, Receive) && s.pipes.box == [] ==> Next(s, Receive) == s.(caller := Retired)
  {
  }

  /** A caller that waits for readiness or for its frame need not wait for the worker: it can stop
      at once, unless the worker is known to be ready and it can send. */
  lemma AWaitingCallerCanGiveUp(s: State) returns (step: Step)
    requires s.caller.Starting? || s.caller.Receiving?
    ensures Enabled(s, step) && OfCaller(step)
    ensures Next(s, step).caller == (if s.caller.Starting? && s.ready then Sending(s.caller.job, Line(s.caller.job))
                                     else Retired)
  {
    step := if s.caller.Starting? && s.ready then AwaitReady else Stop;
  }

  // ---------- progress through bounded pipes ----------

  predicate Helpful(step: Step) {
    step != Stop && step != Die
  }

  function Stage(s: State): nat {
    match s.caller
    case Starting(_) => 3
    case Sending(_, _) => 2
    case Receiving(_) => 1
    case _ => 0
  }

  /** How far the worker is from having written its line. */
  function Phase(s: State): nat {
    match s.process
    case Importing => 3
    case Serving => if s.caller.Receiving? && Incoming(s.pipes) != [] then 3 else 0
    case Handling(_) => 2
    case Writing(_) => 1
    case Dead => 0
  }

  /** Bytes still to be moved, those not yet in a pipe twice. */
  function Load(s: State): nat {
    (if s.caller.Sending? then 2 * |s.caller.rest| else 0)
    + (if s.process.Writing? then 2 * |s.process.rest| else 0)
    + |s.pipes.requests| + |s.pipes.results|
  }

  function Unpublished(s: State): nat {
    if s.pipes.box == [] && !s.pipes.eof then 1 else 0
  }

  predicate Closer(s: State, n: State) {
    || Stage(n) < Stage(s)
    || (Stage(n) == Stage(s) && Phase(n) < Phase(s))
    || (Stage(n) == Stage(s) && Phase(n) == Phase(s) && Load(n) < Load(s))
    || (Stage(n) == Stage(s) && Phase(n) == Phase(s) && Load(n) == Load(s) && Unpublished(n) < Unpublished(s))
  }

  /** Moving a written line towards the queue, through whatever room there is. */
  lemma LineMovesOn(s: State, line: Bytes) returns (step: Step)
    requires IsLine(line) && Carries(s.process, Outgoing(s.pipes), s.pipes.box, line)
    requires s.pipes.room >= 1 && s.pipes.box == [] && !s.pipes.eof && Incoming(s.pipes) == []
    requires s.caller.Starting? || s.caller.Receiving?
    ensures Enabled(s, step) && Helpful(step) && Closer(s, Next(s, step))
  {
    if s.pipes.results != [] {
      step := Drain(1);
    } else if s.process.Writing? {
      step := Write(1);
    } else {
      assert Outgoing(s.pipes) == s.pipes.partial;
      PrefixWithLine(s.pipes.partial, line);
      step := if HasLine(s.pipes.partial) then Publish else PublishDeath;
    }
  }

  lemma StartingMovesOn(s: State) returns (step: Step)
    requires Inv(s) && s.caller.Starting? && s.pipes.room >= 1
    ensures Enabled(s, step) && Helpful(step) && Closer(s, Next(s, step))
  {
    if s.ready || s.pipes.box != [] || s.pipes.eof {
      step := AwaitReady;
    } else if s.process == Importing {
      step := Imported;
    } else {
      ReadyIsLine();
      step := LineMovesOn(s, READY);
    }
  }

  lemma SendingMovesOn(s: State) returns (step: Step)
    requires Inv(s) && s.caller.Sending? && s.pipes.room >= 1
    ensures Enabled(s, step) && Helpful(step) && Closer(s, Next(s, step))
  {
    if s.process == Dead {
      step := SendFails;
    } else if s.pipes.requests == [] {
      step := Send(1);
    } else {
      LineIsLine(s.caller.job);
      PrefixWithLine(s.pipes.reading, Line(s.caller.job));
      step := Fetch(1);
    }
  }

  lemma AskedMovesOn(s: State) returns (step: Step)
    requires Inv(s) && s.caller.Receiving? && Asked(s, s.caller.job) && !s.pipes.eof
    ensures Enabled(s, step) && Helpful(step) && Closer(s, Next(s, step))
  {
    if s.process == Dead {
      step := PublishDeath;
    } else if s.process.Handling? {
      step := Answer([]);
    } else {
      LineIsLine(s.caller.job);
      PrefixWithLine(s.pipes.reading, Line(s.caller.job));
      if s.pipes.requests == [] {
        assert s.pipes.reading == Line(s.caller.job);
        step := ReadRequest;
      } else {
        step := Fetch(1);
        assert Incoming(Next(s, step).pipes) != [];
      }
    }
  }

  /** While a caller holds the lease some step other than a stop or a death is possible and
      brings it closer to its end, however little the pipes hold. */
  lemma CallerMovesOn(s: State) returns (step: Step)
    requires Inv(s) && Stage(s) > 0 && s.pipes.room >= 1
    ensures Enabled(s, step) && Helpful(step) && Closer(s, Next(s, step))
  {
    if s.caller.Starting? {
      step := StartingMovesOn(s);
    } else if s.caller.Sending? {
      step := SendingMovesOn(s);
    } else if s.pipes.box != [] || s.pipes.eof {
      step := Receive;
    } else if Asked(s, s.caller.job) {
      step := AskedMovesOn(s);
    } else {
      step := LineMovesOn(s, s.history.answered[|s.history.delivered|].frame);
    }
  }

  ghost predicate CanFinish(s: State) {
    exists steps :: Legal(s, steps) && (forall step :: step in steps ==> Helpful(step)) && Stage(Exec(s, steps)) == 0
  }

  lemma FinishLater(s: State, step: Step)
    requires Enabled(s, step) && Helpful(step) && CanFinish(Next(s, step))
    ensures CanFinish(s)
  {
    var steps :| Legal(Next(s, step), steps) && (forall x :: x in steps ==> Helpful(x))
                 && Stage(Exec(Next(s, step), steps)) == 0;
    var longer := [step] + steps;
    assert longer[0] == step && longer[1..] == steps;
    assert Legal(s, longer) && Exec(s, longer) == Exec(Next(s, step), steps);
    assert forall x :: x in longer ==> x == step || x in steps;
  }

  lemma {:induction false} CallerFinishes(s: State)
    requires Inv(s) && s.pipes.room >= 1
    ensures CanFinish(s)
    decreases Stage(s), Phase(s), Load(s), Unpublished(s)
  {
    if Stage(s) == 0 {
      var steps: seq<Step> := [];
      assert Legal(s, steps) && Exec(s, steps) == s;
    } else {
      var step := CallerMovesOn(s);
      StepKeeps(s, step);
      CallerFinishes(Next(s, step));
      FinishLater(s, step);
    }
  }

  lemma {:induction false} RoomNeverChanges(s: State, steps: seq<Step>)
    requires Legal(s, steps)
    ensures Exec(s, steps).pipes.room == s.pipes.room
    decreases |steps|
  {
    if steps != [] {
      RoomNeverChanges(Next(s, steps[0]), steps[1..]);
    }
  }

  /** In every reachable state the caller can get to the end of its job without a stop or a
      death, for requests and answers of any size over pipes of any positive size: the worker
      reads while the caller writes, and the reader thread reads while the worker writes. */
  lemma NoPipeEverBlocksAJobForGood(room: nat, steps: seq<Step>)
    requires room >= 1 && Legal(Init(room), steps)
    ensures CanFinish(Exec(Init(room), steps))
  {
    RunKeeps(Init(room), steps);
    RoomNeverChanges(Init(room), steps);
    CallerFinishes(Exec(Init(room), steps));
  }

  // ---------- the reader thread ----------

  function Flat(parts: seq<Bytes>): Bytes {
    if parts == [] then [] else parts[0] + Flat(parts[1..])
  }

  lemma {:induction false} FlatAppend(parts: seq<Bytes>, last: Bytes)
    ensures Flat(parts + [last]) == Flat(parts) + last
  {
    if parts == [] {
      assert Flat([last]) == last + Flat([]);
    } else {
      assert (parts + [last])[1..] == parts[1..] + [last];
      FlatAppend(parts[1..], last);
    }
  }

  lemma FlatNext(parts: seq<Bytes>, n: nat)
    requires n < |parts|
    ensures Flat(parts[..n + 1]) == Flat(parts[..n]) + parts[n]
  {
    assert parts[..n + 1] == parts[..n] + [parts[n]];
    FlatAppend(parts[..n], parts[n]);
  }

  lemma DrainStep(frames: seq<Bytes>, joined: Bytes, done: Bytes, chunk: Bytes)
    requires Flat(frames) + joined == done
    ensures Flat(frames) + (joined + chunk) == done + chunk
    ensures Flat(frames + [joined + chunk]) + [] == done + chunk
  {
    FlatAppend(frames, joined + chunk);
  }

  /** What one read-line call can return: at most one LF, at the end. */
  predicate LineRead(chunk: Bytes) {
    chunk != [] && LFFree(chunk[..|chunk| - 1])
  }

  lemma GrownChunks(chunks: Bytes, chunk: Bytes)
    requires LFFree(chunks) && LineRead(chunk)
    ensures if chunk[|chunk| - 1] == LF then IsLine(chunks + chunk) else LFFree(chunks + chunk)
  {
    var stem := chunk[..|chunk| - 1];
    assert chunk == stem + [chunk[|chunk| - 1]];
    if chunk[|chunk| - 1] == LF {
      LineIsLine(chunks + stem);
      assert chunks + chunk == Line(chunks + stem);
    }
  }

  /** The whole lines of a byte stream; what follows the last LF is not one. */
  function WholeLines(stream: Bytes): seq<Bytes>
    decreases |stream|
  {
    if !HasLine(stream) then []
    else var cut := FindLF(stream) + 1; [stream[..cut]] + WholeLines(stream[cut..])
  }

  /** What the reader thread leaves in its queue: the lines, then the death marker. */
  function Published(lines: seq<Bytes>): seq<Option<Bytes>> {
    seq(|lines|, i requires 0 <= i < |lines| => Some(lines[i])) + [None]
  }

  lemma WholeLinesStep(line: Bytes, rest: Bytes)
    requires IsLine(line)
    ensures WholeLines(line + rest) == [line] + WholeLines(rest)
  {
    FirstLine(line, rest);
    assert (line + rest)[..|line|] == line && (line + rest)[|line|..] == rest;
  }

  /** Any split of a stream into lines and a rest without LF is the split into its whole lines. */
  lemma {:induction false} LinesOfASplit(lines: seq<Bytes>, rest: Bytes)
    requires forall i :: 0 <= i < |lines| ==> IsLine(lines[i])
    requires LFFree(rest)
    ensures WholeLines(Flat(lines) + rest) == lines
  {
    if lines == [] {
      assert Flat(lines) + rest == rest;
    } else {
      assert Flat(lines) + rest == lines[0] + (Flat(lines[1..]) + rest);
      WholeLinesStep(lines[0], Flat(lines[1..]) + rest);
      LinesOfASplit(lines[1..], rest);
    }
  }

  /** The reader thread's loop over the read-line results of its pipe: it publishes exactly the
      whole lines of the bytes it was given, however they were cut, and then the death marker. */
  method DrainFrames(chunks: seq<Bytes>) returns (queue: seq<Option<Bytes>>)
    requires forall i :: 0 <= i < |chunks| ==> LineRead(chunks[i])
    ensures queue == Published(WholeLines(Flat(chunks)))
  {
    var joined: Bytes := [];
    var frames: seq<Bytes> := [];
    for n := 0 to |chunks|
      invariant LFFree(joined)
      invariant forall i :: 0 <= i < |frames| ==> IsLine(frames[i])
      invariant Flat(frames) + joined == Flat(chunks[..n])
    {
      var chunk := chunks[n];
      FlatNext(chunks, n);
      GrownChunks(joined, chunk);
      DrainStep(frames, joined, Flat(chunks[..n]), chunk);
      joined := joined + chunk;
      if chunk[|chunk| - 1] == LF {
        frames := frames + [joined];
        joined := [];
      }
    }
    assert chunks[..|chunks|] == chunks;
    LinesOfASplit(frames, joined);
    queue := Published(frames);
  }

  lemma FirstLine(line: Bytes, rest: Bytes)
    requires IsLine(line)
    ensures FindLF(line + rest) == |line| - 1
  {
    FindLFInLine(line[..|line| - 1], rest);
    assert Line(line[..|line| - 1]) == line;
  }
}
