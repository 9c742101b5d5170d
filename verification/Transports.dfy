/** The descriptors of one process attempt: who owns each of them while the attempt launches,
    starts its transport threads, waits, tears down and closes, whatever fails on the way. */
module Transports {
  import opened Basics

  datatype Fd =
    | StdinRead | StdinWrite | StdoutRead | StdoutWrite | StderrRead | StderrWrite
    | StatusRead | StatusWrite | ReleaseRead | ReleaseWrite
    | ProtocolRead | ProtocolWrite | ForwardRead | ForwardWrite

  datatype Event = Use(fd: Fd) | Close(fd: Fd)

  datatype Worker = Absent | Running | Exited

  /** Where the attempt's own thread is. `Take(k)`, `Start(k)` and `GiveBack(k)` belong to the
      k-th transport thread: 0 feeds stdin, 1 pumps outputs, 2 reads the protocol. */
  datatype Main =
    | Launch | CloseChildEnds(rest: seq<Fd>, launched: bool) | Observe
    | Take(k: nat) | Start(k: nat) | GiveBack(k: nat)
    | Await | TearDown | Join
    | Release | JoinAll | CloseAll(rest: seq<Fd>) | Done

  /** What the target asks for: a protocol stream, and a digest to read it with. */
  datatype Wants = Wants(protocol: bool, digest: bool)

  /** `held` are the descriptors the transports record still names. */
  datatype State = State(wants: Wants, main: Main, held: set<Fd>, workers: seq<Worker>, log: seq<Event>)

  function ChildEnds(w: Wants): seq<Fd> {
    if w.protocol then [StdinRead, StdoutWrite, StderrWrite, StatusWrite, ProtocolWrite]
    else [StdinRead, StdoutWrite, StderrWrite, StatusWrite]
  }

  predicate IsChildEnd(w: Wants, f: Fd) {
    f.StdinRead? || f.StdoutWrite? || f.StderrWrite? || f.StatusWrite? || (w.protocol && f.ProtocolWrite?)
  }

  predicate IsParentEnd(w: Wants, f: Fd) {
    || f.StdinWrite? || f.StdoutRead? || f.StderrRead? || f.StatusRead? || f.ReleaseRead? || f.ReleaseWrite?
    || (w.protocol && (f.ProtocolRead? || f.ForwardRead? || f.ForwardWrite?))
  }

  function ParentEnds(w: Wants): set<Fd> {
    set f: Fd | IsParentEnd(w, f)
  }

  predicate Opened(w: Wants, f: Fd) {
    IsChildEnd(w, f) || IsParentEnd(w, f)
  }

  /** The order in which the record is closed. */
  function CloseOrder(w: Wants): seq<Fd> {
    if w.protocol then
      [StdinWrite, StdoutRead, StderrRead, StatusRead, ReleaseRead, ReleaseWrite,
       ProtocolRead, ForwardRead, ForwardWrite]
    else
      [StdinWrite, StdoutRead, StderrRead, StatusRead, ReleaseRead, ReleaseWrite]
  }

  function Only(order: seq<Fd>, held: set<Fd>): seq<Fd> {
    if order == [] then []
    else (if order[0] in held then [order[0]] else []) + Only(order[1..], held)
  }

  /** The descriptor handed over to a transport thread. */
  function Given(w: Wants, k: nat): Option<Fd> {
    if k == 0 then Some(StdinWrite)
    else if k == 1 && w.protocol then Some(ForwardWrite)
    else if k == 2 && w.protocol then Some(ForwardRead)
    else None
  }

  /** The descriptors a transport thread works on. */
  predicate WorksOn(w: Wants, k: nat, f: Fd) {
    || Given(w, k) == Some(f)
    || (k == 0 && f == ReleaseRead)
    || (k == 1 && (f == StdoutRead || f == StderrRead || f == ReleaseRead || (w.protocol && f == ProtocolRead)))
  }

  function Init(w: Wants): State {
    State(w, Launch, ParentEnds(w), [Absent, Absent, Absent], [])
  }

  /** `Go` and `Fail` are the attempt's own steps; the others are those of thread `k`. */
  datatype Step = Go | Fail | Again | Work(k: nat, fd: Fd) | End(k: nat)

  predicate OfMain(step: Step) {
    step.Go? || step.Fail? || step.Again?
  }

  predicate Enabled(s: State, step: Step) {
    match step
    case Go => s.main != Done && (s.main == JoinAll ==> Running !in s.workers)
    case Fail => s.main == Launch || s.main == Observe || s.main.Start? || s.main == TearDown
    case Again => s.main == Observe
    case Work(k, fd) => k < |s.workers| && s.workers[k] == Running && WorksOn(s.wants, k, fd)
    case End(k) => k < |s.workers| && s.workers[k] == Running
  }

  function AfterStart(w: Wants, k: nat): Main {
    if k == 0 then Take(1)
    else if k == 1 && w.protocol && w.digest then Take(2)
    else Await
  }

  function Closing(given: Option<Fd>): seq<Event> {
    if given.Some? then [Close(given.value)] else []
  }

  function Less(held: set<Fd>, given: Option<Fd>): set<Fd> {
    if given.Some? then held - {given.value} else held
  }

  function MainNext(s: State, step: Step): State
    requires Enabled(s, step) && OfMain(step)
  {
    match s.main
    case Launch => s.(main := CloseChildEnds(ChildEnds(s.wants), step == Go))
    case CloseChildEnds(rest, launched) =>
      if rest == [] then s.(main := if launched then Observe else Release)
      else s.(main := CloseChildEnds(rest[1..], launched), log := s.log + [Close(rest[0])])
    case Observe =>
      s.(main := if step == Again then Observe else if step == Go then Take(0) else TearDown,
         log := s.log + [Use(StatusRead)])
    case Take(k) => s.(main := Start(k), held := Less(s.held, Given(s.wants, k)))
    case Start(k) =>
      if step == Fail || k >= |s.workers| then s.(main := GiveBack(k))
      else s.(main := AfterStart(s.wants, k), workers := s.workers[k := Running])
    case GiveBack(k) => s.(main := TearDown, log := s.log + Closing(Given(s.wants, k)))
    case Await => s.(main := TearDown)
    case TearDown => s.(main := if step == Go then Join else Release)
    case Join => s.(main := Release)
    case Release => s.(main := JoinAll, log := s.log + [Use(ReleaseWrite)])
    case JoinAll => s.(main := CloseAll(Only(CloseOrder(s.wants), s.held)), held := {})
    case CloseAll(rest) =>
      if rest == [] then s.(main := Done)
      else s.(main := CloseAll(rest[1..]), log := s.log + [Close(rest[0])])
  }

  function Next(s: State, step: Step): State
    requires Enabled(s, step)
  {
    match step
    case Work(k, fd) => s.(log := s.log + [Use(fd)])
    case End(k) => s.(workers := s.workers[k := Exited], log := s.log + Closing(Given(s.wants, k)))
    case _ => MainNext(s, step)
  }

  ghost predicate Legal(s: State, steps: seq<Step>)
    decreases |steps|
  {
    steps != [] ==> Enabled(s, steps[0]) && Legal(Next(s, steps[0]), steps[1..])
  }

  ghost function Exec(s: State, steps: seq<Step>): State
    requires Legal(s, steps)
    decreases |steps|
  {
    if steps == [] then s else Exec(Next(s, steps[0]), steps[1..])
  }

  // ---------- ownership ----------

  function MainOwns(s: State, f: Fd): bool {
    match s.main
    case Launch => IsChildEnd(s.wants, f)
    case CloseChildEnds(rest, _) => f in rest
    case Start(k) => Given(s.wants, k) == Some(f)
    case GiveBack(k) => Given(s.wants, k) == Some(f)
    case CloseAll(rest) => f in rest
    case _ => false
  }

  function WorkerOwns(s: State, k: nat, f: Fd): bool {
    k < |s.workers| && s.workers[k] == Running && Given(s.wants, k) == Some(f)
  }

  function One(b: bool): nat {
    if b then 1 else 0
  }

  /** In how many hands a descriptor is: the record, the attempt's thread, a transport thread,
      or closed. */
  function Hands(s: State, f: Fd): nat {
    One(f in s.held) + One(MainOwns(s, f))
    + One(WorkerOwns(s, 0, f)) + One(WorkerOwns(s, 1, f)) + One(WorkerOwns(s, 2, f))
    + One(Close(f) in s.log)
  }

  /** No event follows the close of its descriptor: closed at most once, never used after. */
  predicate Orderly(log: seq<Event>) {
    forall i, j :: 0 <= i < j < |log| && log[i].Close? ==> log[j].fd != log[i].fd
  }

  predicate Ending(m: Main) {
    m.CloseAll? || m.Done?
  }

  /** Descriptors lent, never given, to the threads. */
  predicate Lent(w: Wants, f: Fd) {
    IsParentEnd(w, f) && f != StdinWrite && f != ForwardRead && f != ForwardWrite
  }

  /** The k-th thread's descriptor has not been taken from the record yet. */
  predicate Untaken(m: Main, k: nat) {
    m.Launch? || m.CloseChildEnds? || m.Observe? || (m.Take? && m.k <= k) || (m.Start? && m.k < k)
  }

  /** The k-th thread cannot have been started yet. */
  predicate Unstarted(m: Main, k: nat) {
    Untaken(m, k) || (m.Start? && m.k == k)
  }

  predicate Shape(s: State) {
    && |s.workers| == 3
    && (s.main.Take? || s.main.Start? || s.main.GiveBack? ==>
          s.main.k < 3 && (s.main.k == 2 ==> s.wants.protocol && s.wants.digest))
    && (forall k :: 0 <= k < 3 && Unstarted(s.main, k) ==> s.workers[k] == Absent)
    && (Ending(s.main) ==> Running !in s.workers && s.held == {})
    && (s.main.CloseAll? ==> NoRepeat(s.main.rest))
    && (s.main.CloseChildEnds? ==> NoRepeat(s.main.rest))
  }

  ghost predicate Owned(s: State) {
    forall f: Fd :: Hands(s, f) == One(Opened(s.wants, f))
  }

  ghost predicate InRecord(s: State) {
    && (forall f: Fd :: f in s.held ==> IsParentEnd(s.wants, f))
    && (forall f: Fd :: Lent(s.wants, f) && !Ending(s.main) ==> f in s.held)
    && (forall k: nat :: Untaken(s.main, k) && Given(s.wants, k).Some? ==> Given(s.wants, k).value in s.held)
  }

  ghost predicate Inv(s: State) {
    Shape(s) && Owned(s) && InRecord(s) && Orderly(s.log)
  }

  lemma InitHolds(w: Wants)
    ensures Inv(Init(w))
  {
    var s := Init(w);
    forall f: Fd ensures Hands(s, f) == One(Opened(w, f)) {
      assert f in s.held <==> IsParentEnd(w, f);
    }
  }

  lemma ChildEndsAre(w: Wants, f: Fd)
    ensures f in ChildEnds(w) <==> IsChildEnd(w, f)
    ensures NoRepeat(ChildEnds(w))
  {
  }

  lemma {:induction false} OnlyHas(order: seq<Fd>, held: set<Fd>, f: Fd)
    ensures f in Only(order, held) <==> f in order && f in held
  {
    if order != [] {
      OnlyHas(order[1..], held, f);
      assert order == [order[0]] + order[1..];
    }
  }

  lemma {:induction false} OnlyNoRepeat(order: seq<Fd>, held: set<Fd>)
    requires NoRepeat(order)
    ensures NoRepeat(Only(order, held))
  {
    if order != [] {
      OnlyNoRepeat(order[1..], held);
      OnlyHas(order[1..], held, order[0]);
    }
  }

  lemma CloseHead(rest: seq<Fd>, f: Fd)
    requires rest != [] && NoRepeat(rest)
    ensures NoRepeat(rest[1..])
    ensures f in rest[1..] <==> f in rest && f != rest[0]
  {
    assert rest == [rest[0]] + rest[1..];
  }

  // ---------- every step keeps ownership ----------

  /** One descriptor's hands over a step of a transport thread. */
  lemma WorkerMoves(s: State, step: Step, f: Fd)
    requires Shape(s) && Owned(s) && Enabled(s, step) && !OfMain(step)
    ensures Hands(Next(s, step), f) == Hands(s, f)
  {
    assert Hands(s, f) <= 1;
    if step.End? {
      assert Close(f) in Next(s, step).log <==> Close(f) in s.log || Given(s.wants, step.k) == Some(f);
    }
  }

  /** The step closes `f`, which its owner had, or leaves it alone. */
  lemma ListMoves(s: State, step: Step, f: Fd)
    requires Shape(s) && Owned(s) && Enabled(s, step) && OfMain(step)
    requires s.main.CloseChildEnds? || s.main.CloseAll?
    ensures Hands(Next(s, step), f) == Hands(s, f)
  {
    assert Hands(s, f) <= 1;
    if s.main.rest != [] {
      var n := Next(s, step);
      CloseHead(s.main.rest, f);
      assert MainOwns(n, f) <==> MainOwns(s, f) && f != s.main.rest[0];
      assert Close(f) in n.log <==> Close(f) in s.log || f == s.main.rest[0];
      assert n.held == s.held && n.workers == s.workers && n.wants == s.wants;
    }
  }

  lemma GiveBackMoves(s: State, step: Step, f: Fd)
    requires Owned(s) && Enabled(s, step) && OfMain(step) && s.main.GiveBack?
    ensures Hands(Next(s, step), f) == Hands(s, f)
  {
    assert Hands(s, f) <= 1;
    assert Close(f) in Next(s, step).log <==> Close(f) in s.log || Given(s.wants, s.main.k) == Some(f);
  }

  lemma HandoverMoves(s: State, step: Step, f: Fd)
    requires Shape(s) && InRecord(s) && Enabled(s, step) && OfMain(step)
    requires s.main.Take? || s.main.Start?
    ensures Hands(Next(s, step), f) == Hands(s, f)
  {
    var k := s.main.k;
    assert Unstarted(s.main, k);
    assert s.main.Take? ==> Untaken(s.main, k);
  }

  lemma CloseListIs(w: Wants, held: set<Fd>, f: Fd)
    requires forall g: Fd :: g in held ==> IsParentEnd(w, g)
    ensures f in Only(CloseOrder(w), held) <==> f in held
    ensures NoRepeat(Only(CloseOrder(w), held))
  {
    OnlyHas(CloseOrder(w), held, f);
    OnlyNoRepeat(CloseOrder(w), held);
  }

  lemma JoinAllMoves(s: State, n: State, rest: seq<Fd>, f: Fd)
    requires s.main.JoinAll? && n == s.(main := CloseAll(rest), held := {})
    requires f in rest <==> f in s.held
    ensures Hands(n, f) == Hands(s, f)
  {
    assert MainOwns(n, f) <==> f in s.held;
  }

  lemma LaunchMoves(s: State, step: Step, f: Fd)
    requires Enabled(s, step) && OfMain(step) && s.main.Launch?
    ensures Hands(Next(s, step), f) == Hands(s, f)
  {
    ChildEndsAre(s.wants, f);
  }

  lemma QuietMoves(s: State, n: State, f: Fd)
    requires n.wants == s.wants && n.held == s.held && n.workers == s.workers
    requires MainOwns(n, f) == MainOwns(s, f) && (Close(f) in n.log <==> Close(f) in s.log)
    ensures Hands(n, f) == Hands(s, f)
  {
  }

  lemma StepOwned(s: State, step: Step)
    requires Shape(s) && Owned(s) && InRecord(s) && Enabled(s, step)
    ensures Owned(Next(s, step))
  {
    forall f: Fd ensures Hands(Next(s, step), f) == Hands(s, f) {
      if !OfMain(step) { WorkerMoves(s, step, f); }
      else if s.main.Take? || s.main.Start? { HandoverMoves(s, step, f); }
      else if s.main.CloseChildEnds? || s.main.CloseAll? { ListMoves(s, step, f); }
      else if s.main.GiveBack? { GiveBackMoves(s, step, f); }
      else if s.main.Launch? { LaunchMoves(s, step, f); }
      else if s.main.JoinAll? {
        CloseListIs(s.wants, s.held, f);
        JoinAllMoves(s, Next(s, step), Only(CloseOrder(s.wants), s.held), f);
      } else { QuietMoves(s, Next(s, step), f); }
    }
  }

  lemma ListShape(s: State, step: Step)
    requires Shape(s) && Enabled(s, step) && OfMain(step) && (s.main.CloseChildEnds? || s.main.CloseAll?)
    ensures Shape(Next(s, step))
  {
    if s.main.rest != [] {
      CloseHead(s.main.rest, s.main.rest[0]);
    }
  }

  lemma HandoverShape(s: State, step: Step)
    requires Shape(s) && Enabled(s, step) && OfMain(step) && (s.main.Take? || s.main.Start? || s.main.GiveBack?)
    ensures Shape(Next(s, step))
  {
  }

  lemma LaunchShape(s: State, step: Step)
    requires Shape(s) && Enabled(s, step) && OfMain(step) && s.main.Launch?
    ensures Shape(Next(s, step))
  {
    ChildEndsAre(s.wants, StdinRead);
  }

  lemma WorkerShape(s: State, step: Step)
    requires Shape(s) && Enabled(s, step) && !OfMain(step)
    ensures Shape(Next(s, step))
  {
  }

  lemma StepShape(s: State, step: Step)
    requires Shape(s) && InRecord(s) && Enabled(s, step)
    ensures Shape(Next(s, step))
  {
    if !OfMain(step) {
      WorkerShape(s, step);
    } else if s.main.JoinAll? {
      CloseListIs(s.wants, s.held, StdinWrite);
    } else if s.main.CloseChildEnds? || s.main.CloseAll? {
      ListShape(s, step);
    } else if s.main.Launch? {
      LaunchShape(s, step);
    } else if s.main.Take? || s.main.Start? || s.main.GiveBack? {
      HandoverShape(s, step);
    }
  }

  /** Events a step adds concern descriptors that are still open. */
  lemma StepOrderly(s: State, step: Step)
    requires Inv(s) && Enabled(s, step)
    ensures Orderly(Next(s, step).log)
  {
    var n := Next(s, step);
    if |n.log| > |s.log| {
      var e := n.log[|s.log|];
      assert n.log == s.log + [e];
      assert Hands(s, e.fd) <= 1;
      assert Close(e.fd) !in s.log;
    }
  }

  lemma StepKeeps(s: State, step: Step)
    requires Inv(s) && Enabled(s, step)
    ensures Inv(Next(s, step))
  {
    StepOwned(s, step);
    StepShape(s, step);
    StepOrderly(s, step);
  }

  lemma {:induction false} RunKeeps(s: State, steps: seq<Step>)
    requires Inv(s) && Legal(s, steps)
    ensures Inv(Exec(s, steps)) && Exec(s, steps).wants == s.wants
    decreases |steps|
  {
    if steps != [] {
      StepKeeps(s, steps[0]);
      RunKeeps(Next(s, steps[0]), steps[1..]);
    }
  }

  // ---------- the results ----------

  /** Whatever fails: at every moment of every run no descriptor is closed twice or used after
      its close, and an attempt that is over has closed every descriptor it opened. */
  lemma EveryDescriptorClosedOnce(w: Wants, steps: seq<Step>)
    requires Legal(Init(w), steps)
    ensures Orderly(Exec(Init(w), steps).log)
    ensures forall f: Fd :: Close(f) in Exec(Init(w), steps).log ==> Opened(w, f)
    ensures Exec(Init(w), steps).main == Done ==>
              forall f: Fd :: Opened(w, f) ==> Close(f) in Exec(Init(w), steps).log
  {
    InitHolds(w);
    RunKeeps(Init(w), steps);
    var s := Exec(Init(w), steps);
    forall f: Fd ensures Close(f) in s.log ==> Opened(w, f)
                 ensures s.main == Done && Opened(w, f) ==> Close(f) in s.log
    {
      assert Hands(s, f) == One(Opened(w, f));
    }
  }

  /** The record still has the descriptor whenever a thread is to be given one, so the
      already-taken errors cannot arise. */
  lemma NothingIsTakenTwice(w: Wants, steps: seq<Step>)
    requires Legal(Init(w), steps) && Exec(Init(w), steps).main.Take?
    ensures var s := Exec(Init(w), steps);
            && (s.main.k != 1 || w.protocol ==> Given(w, s.main.k).Some?)
            && (Given(w, s.main.k).Some? ==> Given(w, s.main.k).value in s.held)
  {
    InitHolds(w);
    RunKeeps(Init(w), steps);
  }

  /** Once the pump runs, the read end of the forward pipe is about to be given to the protocol
      reader, was given to it, or is closed. */
  predicate ForwardServed(s: State) {
    && |s.workers| == 3
    && (s.wants.protocol && s.wants.digest && s.workers[1] != Absent ==>
          || s.workers[2] != Absent || Close(ForwardRead) in s.log
          || ((s.main.Take? || s.main.Start? || s.main.GiveBack?) && s.main.k == 2))
  }

  lemma StepServes(s: State, step: Step)
    requires Shape(s) && ForwardServed(s) && Enabled(s, step)
    ensures ForwardServed(Next(s, step))
  {
    var n := Next(s, step);
    assert Close(ForwardRead) in s.log ==> Close(ForwardRead) in n.log;
  }

  lemma {:induction false} RunServes(s: State, steps: seq<Step>)
    requires Inv(s) && ForwardServed(s) && Legal(s, steps)
    ensures ForwardServed(Exec(s, steps))
    decreases |steps|
  {
    if steps != [] {
      StepKeeps(s, steps[0]);
      StepServes(s, steps[0]);
      RunServes(Next(s, steps[0]), steps[1..]);
    }
  }

  /** When a close joins the threads, a running pump that forwards a protocol has a reader on the
      other side or a closed read end, given that every protocol target has a digest. */
  lemma JoinedPumpIsServed(w: Wants, steps: seq<Step>)
    requires (w.protocol ==> w.digest) && Legal(Init(w), steps) && Exec(Init(w), steps).main == JoinAll
    ensures var s := Exec(Init(w), steps);
            |s.workers| == 3
            && (w.protocol && s.workers[1] == Running ==> s.workers[2] != Absent || Close(ForwardRead) in s.log)
  {
    InitHolds(w);
    RunServes(Init(w), steps);
    RunKeeps(Init(w), steps);
  }

  // ---------- the release byte ----------

  predicate PastRelease(m: Main) {
    m.JoinAll? || m.CloseAll? || m.Done?
  }

  /** Descriptors the record gives up only when it is closed are closed after the release. */
  ghost predicate ReleasedFirst(s: State) {
    && (PastRelease(s.main) ==> Use(ReleaseWrite) in s.log)
    && (!Ending(s.main) ==> forall f: Fd :: Lent(s.wants, f) ==> Close(f) !in s.log)
    && (forall f: Fd :: Lent(s.wants, f) ==> AfterRelease(s.log, f))
  }

  /** Every close of the descriptor comes after the release byte was written. */
  ghost predicate AfterRelease(log: seq<Event>, f: Fd) {
    forall k :: 0 <= k < |log| && log[k] == Close(f) ==> Use(ReleaseWrite) in log[..k]
  }

  lemma AppendAfterRelease(log: seq<Event>, e: Event, f: Fd)
    requires AfterRelease(log, f) && (e == Close(f) ==> Use(ReleaseWrite) in log)
    ensures AfterRelease(log + [e], f)
  {
    var longer := log + [e];
    forall k | 0 <= k < |longer| && longer[k] == Close(f) ensures Use(ReleaseWrite) in longer[..k] {
      if k < |log| {
        assert longer[..k] == log[..k];
      } else {
        assert longer[..k] == log;
      }
    }
  }

  /** What a step adds to the log: nothing, or one event, a close of a lent descriptor only in
      the closing list. */
  lemma StepLogs(s: State, step: Step)
    requires Inv(s) && Enabled(s, step)
    ensures var n := Next(s, step);
            || n.log == s.log
            || exists e: Event :: n.log == s.log + [e] && (e.Close? && Lent(s.wants, e.fd) ==> Ending(s.main))
  {
    var n := Next(s, step);
    if n.log != s.log {
      var e := n.log[|s.log|];
      assert n.log == s.log + [e];
      assert Lent(s.wants, e.fd) && !Ending(s.main) ==> !MainOwns(s, e.fd) by {
        assert Hands(s, e.fd) <= 1;
      }
    }
  }

  lemma StepReleasesFirst(s: State, step: Step)
    requires Inv(s) && ReleasedFirst(s) && Enabled(s, step)
    ensures ReleasedFirst(Next(s, step))
  {
    var n := Next(s, step);
    StepLogs(s, step);
    assert n.wants == s.wants && (Ending(s.main) ==> Ending(n.main));
    if n.log != s.log {
      var e: Event :| n.log == s.log + [e] && (e.Close? && Lent(s.wants, e.fd) ==> Ending(s.main));
      forall f: Fd | Lent(n.wants, f) ensures AfterRelease(n.log, f) {
        AppendAfterRelease(s.log, e, f);
      }
    }
  }

  lemma {:induction false} RunReleasesFirst(s: State, steps: seq<Step>)
    requires Inv(s) && ReleasedFirst(s) && Legal(s, steps)
    ensures ReleasedFirst(Exec(s, steps))
    decreases |steps|
  {
    if steps != [] {
      StepKeeps(s, steps[0]);
      StepReleasesFirst(s, steps[0]);
      RunReleasesFirst(Next(s, steps[0]), steps[1..]);
    }
  }

  /** In every run the release byte is written before a close comes to its joins, and before any
      descriptor that the threads only borrow is closed. */
  lemma ReleaseComesFirst(w: Wants, steps: seq<Step>)
    requires Legal(Init(w), steps)
    ensures var s := Exec(Init(w), steps);
            && (PastRelease(s.main) ==> Use(ReleaseWrite) in s.log)
            && (forall f: Fd :: Lent(w, f) ==> AfterRelease(s.log, f))
  {
    InitHolds(w);
    RunReleasesFirst(Init(w), steps);
    RunKeeps(Init(w), steps);
  }

  /** A protocol reader that has ended has closed its read end. */
  predicate ReaderClosed(s: State) {
    |s.workers| == 3 && (s.wants.protocol && s.workers[2] == Exited ==> Close(ForwardRead) in s.log)
  }

  lemma {:induction false} RunClosesReader(s: State, steps: seq<Step>)
    requires Inv(s) && ReaderClosed(s) && Legal(s, steps)
    ensures ReaderClosed(Exec(s, steps))
    decreases |steps|
  {
    if steps != [] {
      StepKeeps(s, steps[0]);
      StepClosesReader(s, steps[0]);
      RunClosesReader(Next(s, steps[0]), steps[1..]);
    }
  }

  lemma StepClosesReader(s: State, step: Step)
    requires Shape(s) && ReaderClosed(s) && Enabled(s, step)
    ensures ReaderClosed(Next(s, step))
  {
    var n := Next(s, step);
    assert Close(ForwardRead) in s.log ==> Close(ForwardRead) in n.log;
  }

  lemma EndedReaderClosed(w: Wants, steps: seq<Step>)
    requires Legal(Init(w), steps)
    ensures ReaderClosed(Exec(Init(w), steps)) && Exec(Init(w), steps).wants == w
  {
    InitHolds(w);
    RunClosesReader(Init(w), steps);
    RunKeeps(Init(w), steps);
  }

  // ---------- an attempt without a fault, and one whose start fails ----------

  /** The transport threads the attempt needs. */
  predicate Wanted(w: Wants, k: nat) {
    k < 2 || (k == 2 && w.protocol && w.digest)
  }

  predicate PastJoin(m: Main) {
    m.Release? || m.JoinAll? || Ending(m)
  }

  predicate PastTearDown(m: Main) {
    m.Join? || PastJoin(m)
  }

  predicate PastAwait(m: Main) {
    m.TearDown? || PastTearDown(m)
  }

  /** The k-th thread has had its start. */
  predicate PastStart(m: Main, k: nat) {
    m.Await? || PastAwait(m) || ((m.Take? || m.Start?) && k < m.k)
  }

  predicate Flawless(s: State) {
    && !s.main.GiveBack? && (s.main.CloseChildEnds? ==> s.main.launched)
    && |s.workers| == 3 && (s.main.Take? || s.main.Start? ==> Wanted(s.wants, s.main.k))
    && forall k :: 0 <= k < 3 ==> (s.workers[k] != Absent <==> Wanted(s.wants, k) && PastStart(s.main, k))
  }

  lemma StepFlawless(s: State, step: Step)
    requires Flawless(s) && Enabled(s, step) && step != Fail
    ensures Flawless(Next(s, step)) && Next(s, step).wants == s.wants
    ensures PastAwait(Next(s, step).main) ==> PastAwait(s.main) || s.main.Await?
    ensures PastTearDown(Next(s, step).main) ==> PastTearDown(s.main) || s.main.TearDown?
    ensures PastJoin(Next(s, step).main) ==> PastJoin(s.main) || s.main.Join?
  {
  }

  /** The attempt's own thread is at the place at some moment of the run. */
  ghost predicate Passes(s: State, steps: seq<Step>, place: Main)
    requires Legal(s, steps)
    decreases |steps|
  {
    s.main == place || (steps != [] && Passes(Next(s, steps[0]), steps[1..], place))
  }

  lemma {:induction false} RunFlawless(s: State, steps: seq<Step>)
    requires Flawless(s) && Legal(s, steps) && Fail !in steps
    ensures var e := Exec(s, steps);
            && Flawless(e) && e.wants == s.wants
            && (PastAwait(e.main) && !PastAwait(s.main) ==> Passes(s, steps, Await))
            && (PastTearDown(e.main) && !PastTearDown(s.main) ==> Passes(s, steps, TearDown))
            && (PastJoin(e.main) && !PastJoin(s.main) ==> Passes(s, steps, Join))
    decreases |steps|
  {
    if steps != [] {
      StepFlawless(s, steps[0]);
      assert steps == [steps[0]] + steps[1..];
      RunFlawless(Next(s, steps[0]), steps[1..]);
    }
  }

  /** In every run without a fault exactly the threads the attempt needs are started before it
      waits; it tears down only after it waited, and closes only after tearing down and after the
      joins that have a budget. */
  lemma FlawlessAttempt(w: Wants, steps: seq<Step>)
    requires Legal(Init(w), steps) && Fail !in steps
    ensures var s := Exec(Init(w), steps);
            && (s.main.Await? || PastAwait(s.main) ==>
                  |s.workers| == 3 && forall k :: 0 <= k < 3 ==> (s.workers[k] != Absent <==> Wanted(w, k)))
            && (PastAwait(s.main) ==> Passes(Init(w), steps, Await))
            && (PastTearDown(s.main) ==> Passes(Init(w), steps, TearDown))
            && (PastJoin(s.main) ==> Passes(Init(w), steps, Join))
  {
    RunFlawless(Init(w), steps);
  }

  /** No thread from the k-th on runs, and none will. */
  predicate GivenUp(s: State, k: nat) {
    && (s.main.GiveBack? || PastAwait(s.main) || (s.main.CloseChildEnds? && !s.main.launched))
    && forall j :: k <= j < |s.workers| ==> s.workers[j] == Absent
  }

  /** A launch, a setup or a start that fails ends the attempt: it does not wait for the child, and
      neither that thread nor a later one ever runs. */
  lemma FailureEndsTheAttempt(s: State, steps: seq<Step>)
    requires Inv(s) && (s.main.Launch? || s.main.Observe? || s.main.Start?) && Legal(s, [Fail] + steps)
    ensures GivenUp(Exec(s, [Fail] + steps), if s.main.Start? then s.main.k else 0)
  {
    var all := [Fail] + steps;
    assert all[1..] == steps;
    GivenUpStays(Next(s, Fail), if s.main.Start? then s.main.k else 0, steps);
  }

  lemma {:induction false} GivenUpStays(s: State, k: nat, steps: seq<Step>)
    requires GivenUp(s, k) && Legal(s, steps)
    ensures GivenUp(Exec(s, steps), k)
    decreases |steps|
  {
    if steps != [] {
      GivenUpStays(Next(s, steps[0]), k, steps[1..]);
    }
  }
}
