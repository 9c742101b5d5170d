/** `run_batch`: one driver over a private scheduler, interleaved with the worker
    threads and the deadline watcher.  Each driver move is one call into the
    scheduler or the code between two such calls. */
module Batch {
  import opened Basics
  import opened SchedulerModel
  import opened SchedulerProofs

  datatype End = Returned | ReturnedNothing | RaisedSchedulerBroken | ClosedByCaller | SourceRaised

  datatype Phase =
    | Filling
    | Offering(job: Job)
    | Checking
    | Waiting
    | Handing
    | Closing(end: End)
    | Quiescing(end: End)
    | Joining(end: End)
    | Done(end: End)

  datatype System = System(
    sched: State, source: seq<Job>, pulled: nat, exhausted: bool, carried: Option<Job>,
    phase: Phase, yielded: seq<Item>, refused: bool)

  datatype Move =
    | Elsewhere(step: Step)     // a worker thread or the deadline watcher
    | Drive(starts: bool)       // the generator
    | CloseEarly                // the caller closes the generator at a yield
    | SourceFails               // the job iterator raises

  function Start(capacity: nat, source: seq<Job>): System {
    System(Init(capacity), source, 0, false, None, Filling, [], false)
  }

  predicate BackgroundStep(step: Step) {
    step.WorkerTake? || step.WorkerExit? || step.FinishOk? || step.FinishFailed? || step.Expire?
  }

  /** The wait condition of `take_completion`. */
  predicate Awake(s: State) {
    s.ready != [] || s.broken || (s.running == 0 && s.pending == [])
  }

  predicate CanMove(b: System, move: Move) {
    match move
    case Elsewhere(step) => BackgroundStep(step) && Enabled(b.sched, step)
    case CloseEarly => b.phase.Handing?
    case SourceFails => b.phase.Filling? && !b.exhausted && b.carried.None? && CanAdmit(b.sched)
    case Drive(_) =>
      match b.phase
      case Waiting => Awake(b.sched)
      case Quiescing(_) => b.sched.running == 0 && b.sched.pending == []
      case Joining(_) => Enabled(b.sched, ShutdownEnd)
      case Done(_) => false
      case _ => true
  }

  function Fill(b: System): System {
    if b.exhausted || !CanAdmit(b.sched) then b.(phase := Checking)
    else if b.carried.Some? then b.(carried := None, phase := Offering(b.carried.value))
    else if b.pulled < |b.source| then b.(pulled := b.pulled + 1, phase := Offering(b.source[b.pulled]))
    else b.(exhausted := true, phase := Checking)
  }

  /** The driver after an admission that left the scheduler in `n`. */
  function Settle(b: System, job: Job, n: State, result: Admission): System {
    match result
    case Admitted => b.(sched := n, phase := Filling)
    case IntakeClosed => b.(sched := n, exhausted := true, refused := b.sched.intakeClosed, phase := Checking)
    case NoRoom => b.(sched := n, carried := Some(job), phase := Checking)
  }

  function Offer(b: System, job: Job, context: Context, starts: bool): System {
    Settle(b, job, Next(b.sched, Admit(job, context, starts)), AdmissionOf(b.sched, job, context, starts))
  }

  function Receive(b: System): System {
    match TakeOf(b.sched, Anyone)
    case Got(item) =>
      b.(sched := Next(b.sched, TakeReady(Anyone)), yielded := b.yielded + [item], phase := Handing)
    case RaisedBroken => b.(phase := Closing(RaisedSchedulerBroken))
    case Nothing => b.(phase := Closing(ReturnedNothing))
  }

  function MoveOn(b: System, move: Move, context: Context): System
    requires CanMove(b, move)
  {
    match move
    case Elsewhere(step) => b.(sched := Next(b.sched, step))
    case CloseEarly => b.(phase := Closing(ClosedByCaller))
    case SourceFails => b.(phase := Closing(SourceRaised))
    case Drive(starts) =>
      match b.phase
      case Filling => Fill(b)
      case Offering(job) => Offer(b, job, context, starts)
      case Checking =>
        if b.exhausted && b.carried.None? && b.sched.residents <= 0 then b.(phase := Closing(Returned))
        else b.(phase := Waiting)
      case Waiting => Receive(b)
      case Handing => b.(phase := Filling)
      case _ => WindDown(b)
  }

  /** The finally block: close the intake, await quiescence, shut down. */
  function WindDown(b: System): System
    requires b.phase.Closing? || b.phase.Quiescing? || (b.phase.Joining? && Enabled(b.sched, ShutdownEnd))
  {
    match b.phase
    case Closing(end) => b.(sched := Next(b.sched, CloseIntake), phase := Quiescing(end))
    case Quiescing(end) => b.(sched := Next(b.sched, CloseIntake), phase := Joining(end))
    case Joining(end) =>
      b.(sched := Next(Next(b.sched, ShutdownEnd), Discard), phase := Done(end))
  }

  ghost predicate LegalMoves(b: System, moves: seq<Move>, context: Context)
    decreases |moves|
  {
    moves != [] ==> CanMove(b, moves[0]) && LegalMoves(MoveOn(b, moves[0], context), moves[1..], context)
  }

  ghost function Play(b: System, moves: seq<Move>, context: Context): System
    requires LegalMoves(b, moves, context)
    decreases |moves|
  {
    if moves == [] then b else Play(MoveOn(b, moves[0], context), moves[1..], context)
  }

  // ---------- the invariant ----------

  function JobsOf(items: seq<Item>): seq<Job> {
    seq(|items|, i requires 0 <= i < |items| => items[i].job)
  }

  function InHand(b: System): seq<Job> {
    if b.phase.Offering? then [b.phase.job]
    else if b.carried.Some? then [b.carried.value]
    else []
  }

  predicate Open(phase: Phase) {
    phase.Filling? || phase.Offering? || phase.Checking? || phase.Waiting? || phase.Handing?
  }

  /** Completions are handed out in finish order. */
  ghost predicate InOrder(b: System) {
    if b.phase.Done? then b.yielded <= b.sched.finished
    else ItemsOf(b.sched.departed) == b.yielded && b.sched.finished == b.yielded + b.sched.ready
  }

  /** Every pulled job is in the log or in the driver's hand. */
  ghost predicate Accounted(b: System) {
    && b.pulled <= |b.source|
    && (b.phase.Offering? || b.exhausted ==> b.carried.None?)
    && (b.phase.Offering? ==> !b.exhausted)
    && (b.refused ==> b.sched.broken && b.exhausted)
    && (!b.refused ==> JobsOf(b.sched.log) + InHand(b) == b.source[..b.pulled])
    && (b.exhausted ==> b.sched.broken || b.pulled == |b.source|)
  }

  /** Outside the finally block only a break closes the intake. */
  ghost predicate Pending(b: System) {
    && b.sched.capacity >= 1
    && !b.sched.discarded == !b.phase.Done?
    && !b.sched.shutDown == !b.phase.Done?
    && (Open(b.phase) ==> (b.sched.intakeClosed ==> b.sched.broken))
    && (b.phase.Quiescing? || b.phase.Joining? || b.phase.Done? ==> b.sched.intakeClosed)
    && (b.phase.Joining? || b.phase.Done? ==> b.sched.pending == [] && b.sched.active == [])
  }

  ghost predicate Ends(phase: Phase, end: End) {
    (phase.Closing? || phase.Quiescing? || phase.Joining? || phase.Done?) && phase.end == end
  }

  /** What the driver knows at each point. */
  ghost predicate Informed(b: System) {
    && (b.phase.Checking? && (!b.exhausted || b.carried.Some?) ==> b.sched.residents >= 1)
    && (b.phase.Waiting? ==> b.sched.residents >= 1)
    && !Ends(b.phase, ReturnedNothing)
    && (Ends(b.phase, RaisedSchedulerBroken) ==> b.sched.broken)
    && (Ends(b.phase, Returned) ==>
          Live(b.sched) == [] && !b.sched.broken && b.exhausted && b.carried.None?
          && (b.phase.Done? ==> multiset(b.sched.log) == multiset(b.yielded) && b.yielded == b.sched.finished))
  }

  ghost predicate DriverInv(b: System) {
    InOrder(b) && Accounted(b) && Pending(b) && Informed(b)
  }

  ghost predicate BatchInv(b: System) {
    Inv(b.sched) && DriverInv(b)
  }

  // ---------- background steps ----------

  /** What the driver can notice of a background step: completions are appended, a healthy
      scheduler may break while something runs, and nothing else moves. */
  ghost predicate Quiet(s: State, n: State) {
    && n.residents == s.residents && n.log == s.log && n.departed == s.departed
    && n.capacity == s.capacity && n.discarded == s.discarded && n.shutDown == s.shutDown
    && (s.broken ==> n.broken)
    && (s.intakeClosed ==> n.intakeClosed)
    && (n.intakeClosed && !s.intakeClosed ==> n.broken)
    && (s.pending == [] && s.active == [] ==>
          n.pending == [] && n.active == [] && n.ready == s.ready && n.finished == s.finished && n.broken == s.broken)
    && n.finished == s.finished + Appended(s, n)
    && n.ready == s.ready + Appended(s, n)
  }

  function Appended(s: State, n: State): seq<Item> {
    if |n.ready| <= |s.ready| then [] else n.ready[|s.ready|..]
  }

  lemma BackgroundIsQuiet(s: State, step: Step)
    requires BackgroundStep(step) && Enabled(s, step)
    ensures Quiet(s, Next(s, step))
  {
    var n := Next(s, step);
    if step.FinishOk? {
      assert Appended(s, n) == [s.active[step.index]];
    } else {
      assert n.ready == s.ready && n.finished == s.finished;
    }
  }

  lemma QuietKeeps(b: System, n: State)
    requires BatchInv(b) && Inv(n) && Quiet(b.sched, n)
    ensures BatchInv(b.(sched := n))
  {
    var c := b.(sched := n);
    assert InHand(c) == InHand(b);
    if !b.phase.Done? {
      Regroup(b.yielded, b.sched.ready, Appended(b.sched, n));
    }
  }

  // ---------- driver moves ----------

  lemma FillKeeps(b: System)
    requires DriverInv(b) && b.phase.Filling? && (b.sched.broken ==> b.sched.residents >= 1)
    ensures DriverInv(Fill(b))
  {
    var c := Fill(b);
    assert Accounted(c) by {
      if b.pulled < |b.source| {
        assert b.source[..b.pulled + 1] == b.source[..b.pulled] + [b.source[b.pulled]];
      }
      assert JobsOf(b.sched.log) + [] == JobsOf(b.sched.log);
    }
  }

  /** A broken scheduler keeps at least one resident for the work it lost. */
  lemma LostCounts(s: State)
    requires Inv(s) && !s.discarded
    ensures s.broken ==> s.residents >= 1
  {
  }

  /** Hiring a worker, or failing to, touches neither the log nor the completions. */
  lemma EnsureFrame(s: State, starts: bool)
    ensures var n := EnsureWorker(s, starts);
            && n.departed == s.departed && n.finished == s.finished && n.ready == s.ready && n.log == s.log
            && n.capacity == s.capacity && n.discarded == s.discarded && n.shutDown == s.shutDown
            && (s.broken ==> n.broken)
            && (n.intakeClosed ==> s.intakeClosed || n.broken)
  {
  }

  lemma AdmitFacts(s: State, job: Job, context: Context, starts: bool)
    ensures var n := Next(s, Admit(job, context, starts));
            && n.departed == s.departed && n.finished == s.finished && n.ready == s.ready
            && n.capacity == s.capacity && n.discarded == s.discarded && n.shutDown == s.shutDown
            && (s.broken ==> n.broken)
            && (n.intakeClosed ==> s.intakeClosed || n.broken)
            && n.log == if CanAdmit(s) then s.log + [Item(s.nextTicket, job, context)] else s.log
  {
    EnsureFrame(Enqueued(s, job, context), starts);
  }

  lemma JobsOfConcat(a: seq<Item>, x: Item)
    ensures JobsOf(a + [x]) == JobsOf(a) + [x.job]
  {
  }

  lemma OfferKeeps(b: System, job: Job, context: Context, starts: bool)
    requires BatchInv(b) && b.phase == Offering(job)
    ensures BatchInv(Offer(b, job, context, starts))
  {
    var n := Next(b.sched, Admit(job, context, starts));
    assert Inv(n) by { StepKeepsInv(b.sched, Admit(job, context, starts)); }
    AdmitFacts(b.sched, job, context, starts);
    JobsOfConcat(b.sched.log, Item(b.sched.nextTicket, job, context));
    LostCounts(n);
    OfferedKeeps(b, job, n, Item(b.sched.nextTicket, job, context), AdmissionOf(b.sched, job, context, starts));
  }

  /** The driver's side of an admission, from what the scheduler promises about it. */
  lemma OfferedKeeps(b: System, job: Job, n: State, item: Item, result: Admission)
    requires DriverInv(b) && b.phase == Offering(job) && item.job == job
    requires n.broken ==> n.residents >= 1
    requires n.departed == b.sched.departed && n.finished == b.sched.finished && n.ready == b.sched.ready
    requires n.capacity == b.sched.capacity && n.discarded == b.sched.discarded && n.shutDown == b.sched.shutDown
    requires b.sched.broken ==> n.broken
    requires n.intakeClosed ==> b.sched.intakeClosed || n.broken
    requires JobsOf(b.sched.log + [item]) == JobsOf(b.sched.log) + [job]
    requires n.log == if CanAdmit(b.sched) then b.sched.log + [item] else b.sched.log
    requires match result
             case Admitted => CanAdmit(b.sched)
             case NoRoom => n == b.sched && b.sched.residents >= b.sched.capacity
             case IntakeClosed => if b.sched.intakeClosed then n == b.sched else CanAdmit(b.sched) && n.broken
    ensures DriverInv(Settle(b, job, n, result))
  {
    assert JobsOf(b.sched.log) + [job] == b.source[..b.pulled];
    if CanAdmit(b.sched) {
      assert JobsOf(n.log) + [] == JobsOf(b.sched.log) + [job];
    }
  }

  lemma CheckKeeps(b: System, context: Context)
    requires BatchInv(b) && b.phase.Checking?
    ensures BatchInv(MoveOn(b, Drive(true), context))
  {
    if b.exhausted && b.carried.None? && b.sched.residents <= 0 {
      assert Live(b.sched) == [] && b.sched.lost == [];
    }
  }

  lemma TakeFrontFacts(s: State)
    ensures TakeOf(s, Anyone).Got? <==> s.ready != []
    ensures s.ready != [] ==>
              var n := Next(s, TakeReady(Anyone));
              && TakeOf(s, Anyone).item == s.ready[0]
              && n == s.(ready := s.ready[1..], tokens := n.tokens, residents := s.residents - 1,
                         departed := s.departed + [Taken(Anyone, s.ready[0])])
  {
    if s.ready != [] {
      assert FirstClaimed(s.ready, Anyone) == 0;
      assert RemoveAt(s.ready, 0) == s.ready[1..];
    }
  }

  lemma HandOverKeeps(b: System, n: State)
    requires DriverInv(b) && b.phase.Waiting? && b.sched.ready != []
    requires n == b.sched.(ready := b.sched.ready[1..], tokens := n.tokens, residents := b.sched.residents - 1,
                           departed := b.sched.departed + [Taken(Anyone, b.sched.ready[0])])
    ensures DriverInv(b.(sched := n, yielded := b.yielded + [b.sched.ready[0]], phase := Handing))
  {
    var x := b.sched.ready[0];
    assert ItemsOf(n.departed) == ItemsOf(b.sched.departed) + [x];
    assert b.sched.ready == [x] + b.sched.ready[1..];
    Regroup(b.yielded, [x], b.sched.ready[1..]);
  }

  lemma ReceiveKeeps(b: System)
    requires BatchInv(b) && b.phase.Waiting? && Awake(b.sched)
    ensures BatchInv(Receive(b))
  {
    TakeFrontFacts(b.sched);
    if b.sched.ready != [] {
      var n := Next(b.sched, TakeReady(Anyone));
      assert Inv(n) by { StepKeepsInv(b.sched, TakeReady(Anyone)); }
      HandOverKeeps(b, n);
    }
  }

  lemma CloseKeeps(b: System, phase: Phase)
    requires BatchInv(b) && (b.phase.Closing? || b.phase.Quiescing?)
    requires b.phase.Closing? ==> phase == Quiescing(b.phase.end)
    requires b.phase.Quiescing? ==> phase == Joining(b.phase.end) && b.sched.running == 0 && b.sched.pending == []
    ensures BatchInv(b.(sched := Next(b.sched, CloseIntake), phase := phase))
  {
    StepKeepsInv(b.sched, CloseIntake);
    var c := b.(sched := Next(b.sched, CloseIntake), phase := phase);
    assert InHand(c) == InHand(b);
  }

  lemma DownFacts(s: State)
    requires Inv(s) && Enabled(s, ShutdownEnd)
    ensures var d := Next(Next(s, ShutdownEnd), Discard);
            && d.capacity == s.capacity && d.discarded && d.shutDown && d.intakeClosed
            && d.log == s.log && d.finished == s.finished && d.broken == s.broken && d.lost == s.lost
            && d.pending == [] && d.active == [] && d.ready == []
  {
    ShutdownDropsNothing(s);
  }

  /** The driver's side of the shutdown, from what the scheduler promises about it. */
  lemma JoinedKeeps(b: System, d: State)
    requires BatchInv(b) && b.phase.Joining?
    requires d.capacity == b.sched.capacity && d.discarded && d.shutDown && d.intakeClosed
    requires d.log == b.sched.log && d.finished == b.sched.finished
    requires d.broken == b.sched.broken && d.lost == b.sched.lost
    requires d.pending == [] && d.active == [] && d.ready == []
    ensures DriverInv(b.(sched := d, phase := Done(b.phase.end)))
  {
    var c := b.(sched := d, phase := Done(b.phase.end));
    assert InHand(c) == InHand(b);
    assert Live(d) == [];
    if b.phase.end == Returned {
      assert b.sched.ready == [] && b.sched.lost == [];
      assert b.yielded + [] == b.yielded;
    }
  }

  lemma JoinKeeps(b: System)
    requires BatchInv(b) && b.phase.Joining? && Enabled(b.sched, ShutdownEnd)
    ensures BatchInv(b.(sched := Next(Next(b.sched, ShutdownEnd), Discard), phase := Done(b.phase.end)))
  {
    var down := Next(b.sched, ShutdownEnd);
    DownFacts(b.sched);
    JoinedKeeps(b, Next(down, Discard));
    assert Inv(Next(down, Discard)) by {
      StepKeepsInv(b.sched, ShutdownEnd);
      StepKeepsInv(down, Discard);
    }
  }

  lemma DriveKeeps(b: System, starts: bool, context: Context)
    requires BatchInv(b) && CanMove(b, Drive(starts))
    ensures BatchInv(MoveOn(b, Drive(starts), context))
  {
    match b.phase
    case Filling => LostCounts(b.sched); FillKeeps(b);
    case Offering(job) => OfferKeeps(b, job, context, starts);
    case Checking => CheckKeeps(b, context);
    case Waiting => ReceiveKeeps(b);
    case Handing => ResumeKeeps(b);
    case _ => WindDownKeeps(b);
  }

  lemma ResumeKeeps(b: System)
    requires DriverInv(b) && b.phase.Handing?
    ensures DriverInv(b.(phase := Filling))
  {
  }

  lemma WindDownKeeps(b: System)
    requires BatchInv(b) && !Open(b.phase) && CanMove(b, Drive(true))
    ensures BatchInv(WindDown(b))
  {
    match b.phase
    case Closing(end) => CloseKeeps(b, Quiescing(end));
    case Quiescing(end) => CloseKeeps(b, Joining(end));
    case Joining(end) => JoinKeeps(b);
  }

  lemma MoveKeeps(b: System, move: Move, context: Context)
    requires BatchInv(b) && CanMove(b, move)
    ensures BatchInv(MoveOn(b, move, context))
  {
    match move
    case Elsewhere(step) =>
      assert Inv(Next(b.sched, step)) by { StepKeepsInv(b.sched, step); }
      BackgroundIsQuiet(b.sched, step);
      QuietKeeps(b, Next(b.sched, step));
    case Drive(starts) => DriveKeeps(b, starts, context);
    case CloseEarly => assert DriverInv(b.(phase := Closing(ClosedByCaller)));
    case SourceFails => assert DriverInv(b.(phase := Closing(SourceRaised)));
  }

  lemma {:induction false} PlayKeeps(b: System, moves: seq<Move>, context: Context)
    requires BatchInv(b) && LegalMoves(b, moves, context)
    ensures BatchInv(Play(b, moves, context))
    decreases |moves|
  {
    if moves != [] {
      MoveKeeps(b, moves[0], context);
      PlayKeeps(MoveOn(b, moves[0], context), moves[1..], context);
    }
  }

  lemma StartHolds(capacity: nat, source: seq<Job>)
    requires capacity >= 1
    ensures BatchInv(Start(capacity, source))
  {
    assert JobsOf([]) == [];
    assert ItemsOf([]) == [];
  }

  // ---------- the results ----------

  lemma {:induction false} PlayKeepsSource(b: System, moves: seq<Move>, context: Context)
    requires LegalMoves(b, moves, context)
    ensures Play(b, moves, context).source == b.source
    decreases |moves|
  {
    if moves != [] {
      PlayKeepsSource(MoveOn(b, moves[0], context), moves[1..], context);
    }
  }

  /** A batch that ends normally saw no break, exhausted its source and yielded every job
      exactly once, in the order the jobs finished. */
  lemma NormalEndYieldsEveryJobOnce(capacity: nat, source: seq<Job>, moves: seq<Move>, context: Context)
    requires capacity >= 1 && LegalMoves(Start(capacity, source), moves, context)
    requires Play(Start(capacity, source), moves, context).phase == Done(Returned)
    ensures var b := Play(Start(capacity, source), moves, context);
            && !b.sched.broken && b.sched.lost == []
            && JobsOf(b.sched.log) == source
            && multiset(b.yielded) == multiset(b.sched.log)
            && (forall x :: x in b.yielded ==> multiset(b.yielded)[x] == 1)
            && b.yielded == b.sched.finished
  {
    StartHolds(capacity, source);
    PlayKeeps(Start(capacity, source), moves, context);
    PlayKeepsSource(Start(capacity, source), moves, context);
    var b := Play(Start(capacity, source), moves, context);
    assert b.source[..b.pulled] == b.source;
    assert JobsOf(b.sched.log) + [] == JobsOf(b.sched.log);
    forall x | x in b.yielded ensures multiset(b.yielded)[x] == 1 {
      assert x in multiset(b.yielded);
      assert x in b.sched.log;
      OnceInLog(b.sched.log, x.ticket);
    }
  }

  /** After a break the batch can only raise, unless the caller or the source ended it;
      the `completion is None` return is never reached; `SchedulerBroken` means a break. */
  lemma BreakSurfaces(capacity: nat, source: seq<Job>, moves: seq<Move>, context: Context)
    requires capacity >= 1 && LegalMoves(Start(capacity, source), moves, context)
    ensures var b := Play(Start(capacity, source), moves, context);
            && !Ends(b.phase, ReturnedNothing)
            && (Ends(b.phase, RaisedSchedulerBroken) ==> b.sched.broken && b.sched.lost != [])
            && (b.sched.broken ==> !Ends(b.phase, Returned))
            && (!b.phase.Done? ==> b.sched.finished == b.yielded + b.sched.ready)
            && b.yielded <= b.sched.finished
  {
    StartHolds(capacity, source);
    PlayKeeps(Start(capacity, source), moves, context);
  }

  /** Once broken, nothing is admitted any more: what can still be yielded was admitted before. */
  lemma {:induction false} NothingAdmittedAfterBreak(b: System, moves: seq<Move>, context: Context)
    requires b.sched.broken && b.sched.intakeClosed && LegalMoves(b, moves, context)
    ensures Play(b, moves, context).sched.broken
    ensures Play(b, moves, context).sched.log == b.sched.log
    decreases |moves|
  {
    if moves != [] {
      BrokenMove(b, moves[0], context);
      NothingAdmittedAfterBreak(MoveOn(b, moves[0], context), moves[1..], context);
    }
  }

  lemma BrokenMove(b: System, move: Move, context: Context)
    requires b.sched.broken && b.sched.intakeClosed && CanMove(b, move)
    ensures var c := MoveOn(b, move, context);
            c.sched.broken && c.sched.intakeClosed && c.sched.log == b.sched.log
  {
    match move
    case Elsewhere(step) => BackgroundIsQuiet(b.sched, step);
    case Drive(starts) => BrokenDrive(b, starts, context);
    case _ =>
  }

  lemma BrokenDrive(b: System, starts: bool, context: Context)
    requires b.sched.broken && b.sched.intakeClosed && CanMove(b, Drive(starts))
    ensures var c := MoveOn(b, Drive(starts), context);
            c.sched.broken && c.sched.intakeClosed && c.sched.log == b.sched.log
  {
    if b.phase.Waiting? {
      TakeFrontFacts(b.sched);
    } else if b.phase.Offering? {
      BrokenOffer(b, b.phase.job, context, starts);
    } else if !Open(b.phase) {
      BrokenWindDown(b);
    }
  }

  lemma BrokenWindDown(b: System)
    requires b.sched.broken && b.sched.intakeClosed
    requires b.phase.Closing? || b.phase.Quiescing? || (b.phase.Joining? && Enabled(b.sched, ShutdownEnd))
    ensures var c := WindDown(b);
            c.sched.broken && c.sched.intakeClosed && c.sched.log == b.sched.log
  {
  }

  lemma BrokenOffer(b: System, job: Job, context: Context, starts: bool)
    requires b.sched.intakeClosed
    ensures Offer(b, job, context, starts).sched == b.sched
  {
  }

  // ---------- termination ----------

  /** What the scheduler still has to do, weighted so that every step of it counts. */
  function Load(s: State): int {
    12 * |s.pending| + 6 * |s.active| + 5 * |s.ready| + s.workers - s.exited
  }

  function Rank(phase: Phase): nat {
    match phase
    case Handing => 9
    case Filling => 8
    case Offering(_) => 7
    case Checking => 6
    case Waiting => 5
    case Closing(_) => 4
    case Quiescing(_) => 3
    case Joining(_) => 2
    case Done(_) => 0
  }

  /** Jobs not yet pulled or in the driver's hand, the scheduler's load and the driver's place. */
  function Work(b: System): int {
    15 * (|b.source| - b.pulled + |InHand(b)|) + Load(b.sched) + Rank(b.phase)
  }

  /** Expiry can be repeated without effect; every other move gets the batch on. */
  predicate IsExpiry(move: Move) {
    move.Elsewhere? && move.step == Expire
  }

  lemma LoadOfBackground(s: State, step: Step)
    requires Inv(s) && BackgroundStep(step) && Enabled(s, step)
    ensures if step == Expire then Load(Next(s, step)) == Load(s) else Load(Next(s, step)) < Load(s)
  {
    if step.FinishFailed? {
      var f := Failed(s, step.index);
      assert Load(f) == Load(s) - 6 && Load(Break(f)) <= Load(f);
    }
  }

  lemma LoadOfAdmit(s: State, job: Job, context: Context, starts: bool)
    ensures var n := Next(s, Admit(job, context, starts));
            Load(n) <= Load(s) + 13 && (!CanAdmit(s) ==> n == s)
  {
    var e := Enqueued(s, job, context);
    assert Load(e) == Load(s) + 12 && Load(Break(e)) <= Load(e);
  }

  lemma LoadOfShutdown(s: State)
    requires Inv(s) && Enabled(s, ShutdownEnd)
    ensures Load(Next(Next(s, ShutdownEnd), Discard)) <= Load(s)
  {
    var n := Next(s, ShutdownEnd);
    assert n.pending == [] && n.active == s.active && |n.ready| <= |s.ready|;
  }

  lemma OfferLowersWork(b: System, context: Context, starts: bool)
    requires BatchInv(b) && b.phase.Offering?
    ensures Work(MoveOn(b, Drive(starts), context)) < Work(b)
  {
    LoadOfAdmit(b.sched, b.phase.job, context, starts);
  }

  lemma FillLowersWork(b: System)
    requires b.phase.Filling?
    ensures Work(Fill(b)) < Work(b)
  {
  }

  lemma ReceiveLowersWork(b: System)
    requires b.phase.Waiting?
    ensures Work(Receive(b)) < Work(b)
  {
    TakeFrontFacts(b.sched);
  }

  lemma WindDownLowersWork(b: System)
    requires BatchInv(b) && !Open(b.phase) && CanMove(b, Drive(true))
    ensures Work(WindDown(b)) < Work(b)
  {
    if b.phase.Joining? {
      LoadOfShutdown(b.sched);
    } else {
      assert Load(Next(b.sched, CloseIntake)) == Load(b.sched);
    }
  }

  lemma DriveLowersWork(b: System, starts: bool, context: Context)
    requires BatchInv(b) && CanMove(b, Drive(starts))
    ensures Work(MoveOn(b, Drive(starts), context)) < Work(b)
  {
    match b.phase
    case Filling => FillLowersWork(b);
    case Offering(_) => OfferLowersWork(b, context, starts);
    case Checking => TurnLowersWork(b, starts, context);
    case Waiting => ReceiveLowersWork(b);
    case Handing => TurnLowersWork(b, starts, context);
    case _ => WindDownLowersWork(b);
  }

  lemma TurnLowersWork(b: System, starts: bool, context: Context)
    requires b.phase.Checking? || b.phase.Handing?
    ensures Work(MoveOn(b, Drive(starts), context)) < Work(b)
  {
    var c := MoveOn(b, Drive(starts), context);
    assert c == b.(phase := c.phase);
  }

  lemma MoveLowersWork(b: System, move: Move, context: Context)
    requires BatchInv(b) && CanMove(b, move)
    ensures if IsExpiry(move) then Work(MoveOn(b, move, context)) == Work(b)
            else Work(MoveOn(b, move, context)) < Work(b)
  {
    match move
    case Elsewhere(step) => LoadOfBackground(b.sched, step);
    case Drive(starts) => DriveLowersWork(b, starts, context);
    case _ =>
  }

  function Expiries(moves: seq<Move>): nat {
    if moves == [] then 0 else (if IsExpiry(moves[0]) then 1 else 0) + Expiries(moves[1..])
  }

  lemma {:induction false} PlayLowersWork(b: System, moves: seq<Move>, context: Context)
    requires BatchInv(b) && LegalMoves(b, moves, context)
    ensures |moves| - Expiries(moves) + Work(Play(b, moves, context)) <= Work(b)
    decreases |moves|
  {
    if moves != [] {
      MoveLowersWork(b, moves[0], context);
      MoveKeeps(b, moves[0], context);
      PlayLowersWork(MoveOn(b, moves[0], context), moves[1..], context);
    }
  }

  /** A move of the generator or of a worker thread. */
  predicate OwnMove(move: Move) {
    move.Drive? || (move.Elsewhere? && move.step != Expire)
  }

  lemma SomeMove(b: System) returns (move: Move)
    requires BatchInv(b) && !b.phase.Done?
    ensures CanMove(b, move) && OwnMove(move)
  {
    if CanMove(b, Drive(true)) {
      move := Drive(true);
    } else if b.phase.Joining? {
      move := Elsewhere(WorkerExit);
    } else if b.sched.active != [] {
      move := Elsewhere(FinishOk(0));
    } else {
      assert b.sched.exited == 0;
      move := Elsewhere(WorkerTake);
    }
  }

  /** Every run of a batch is bounded by the size of its source, not counting repeated expiries,
      and a run that neither the generator nor a worker thread can extend has ended, with nothing
      queued and nothing running. */
  lemma BatchTerminates(capacity: nat, source: seq<Job>, moves: seq<Move>, context: Context)
    requires capacity >= 1 && LegalMoves(Start(capacity, source), moves, context)
    ensures |moves| - Expiries(moves) <= 15 * |source| + 8
    ensures var b := Play(Start(capacity, source), moves, context);
            && ((forall move :: OwnMove(move) ==> !CanMove(b, move)) ==> b.phase.Done?)
            && (b.phase.Done? ==> b.sched.pending == [] && b.sched.active == [])
  {
    var start := Start(capacity, source);
    StartHolds(capacity, source);
    PlayKeeps(start, moves, context);
    PlayLowersWork(start, moves, context);
    var b := Play(start, moves, context);
    if !b.phase.Done? {
      var move := SomeMove(b);
    }
  }

  // ---------- waiting, laziness and the ways to end ----------

  /** A waiting batch goes on exactly when a completion is buffered, the scheduler broke, or
      nothing is queued or running. */
  lemma WaitEndsExactly(b: System, starts: bool)
    requires Inv(b.sched) && b.phase.Waiting?
    ensures CanMove(b, Drive(starts))
            <==> b.sched.ready != [] || b.sched.broken || (b.sched.pending == [] && b.sched.active == [])
  {
  }

  /** An unbroken driver offers a job only when there is room for it, so it never carries one. */
  ghost predicate Roomy(b: System) {
    && b.carried.None?
    && (b.phase.Offering? && !b.sched.intakeClosed ==> b.sched.residents < b.sched.capacity)
  }

  lemma MoveKeepsRoomy(b: System, move: Move, context: Context)
    requires BatchInv(b) && Roomy(b) && CanMove(b, move)
    ensures Roomy(MoveOn(b, move, context))
  {
    match move
    case Elsewhere(step) => BackgroundLeavesRoom(b.sched, step);
    case Drive(starts) =>
      match b.phase {
        case Offering(job) => OfferFindsRoom(b, job, context, starts);
        case Filling => FillChecksRoom(b);
        case _ => OthersOfferNothing(b, starts, context);
      }
    case _ =>
  }

  lemma OfferFindsRoom(b: System, job: Job, context: Context, starts: bool)
    requires Roomy(b) && b.phase == Offering(job)
    ensures Roomy(Offer(b, job, context, starts))
  {
    assert AdmissionOf(b.sched, job, context, starts) != NoRoom;
  }

  lemma FillChecksRoom(b: System)
    requires Roomy(b) && b.phase.Filling?
    ensures Roomy(Fill(b))
  {
  }

  lemma OthersOfferNothing(b: System, starts: bool, context: Context)
    requires CanMove(b, Drive(starts)) && !b.phase.Offering? && !b.phase.Filling?
    ensures var c := MoveOn(b, Drive(starts), context);
            c.carried == b.carried && !c.phase.Offering?
  {
  }

  lemma BackgroundLeavesRoom(s: State, step: Step)
    requires BackgroundStep(step) && Enabled(s, step)
    ensures Next(s, step).residents == s.residents && Next(s, step).capacity == s.capacity
    ensures s.intakeClosed ==> Next(s, step).intakeClosed
  {
    match step
    case FinishFailed(index) => assert Failed(s, index).residents == s.residents;
    case _ =>
  }

  lemma {:induction false} PlayKeepsRoomy(b: System, moves: seq<Move>, context: Context)
    requires BatchInv(b) && Roomy(b) && LegalMoves(b, moves, context)
    ensures Roomy(Play(b, moves, context))
    decreases |moves|
  {
    if moves != [] {
      MoveKeeps(b, moves[0], context);
      MoveKeepsRoomy(b, moves[0], context);
      PlayKeepsRoomy(MoveOn(b, moves[0], context), moves[1..], context);
    }
  }

  /** While nothing broke the source is pulled at most as far as the capacity and what was yielded. */
  lemma SourceIsPulledLazily(capacity: nat, source: seq<Job>, moves: seq<Move>, context: Context)
    requires capacity >= 1 && LegalMoves(Start(capacity, source), moves, context)
    ensures var b := Play(Start(capacity, source), moves, context);
            !b.sched.broken && !b.phase.Done? ==> b.pulled <= |b.yielded| + b.sched.capacity
  {
    StartHolds(capacity, source);
    PlayKeeps(Start(capacity, source), moves, context);
    PlayKeepsRoomy(Start(capacity, source), moves, context);
    var b := Play(Start(capacity, source), moves, context);
    if !b.sched.broken && !b.phase.Done? {
      assert |JobsOf(b.sched.log) + InHand(b)| == b.pulled;
      assert |multiset(b.sched.log)| == |b.sched.log|;
      assert |b.sched.log| == |b.sched.pending| + |b.sched.active| + |b.sched.ready| + |b.yielded| by {
        assert multiset(ItemsOf(b.sched.departed)) == multiset(b.yielded);
        assert |multiset(b.sched.pending) + multiset(b.sched.active) + multiset(b.sched.ready) + multiset(b.yielded)|
            == |b.sched.pending| + |b.sched.active| + |b.sched.ready| + |b.yielded|;
      }
    }
  }

  lemma {:induction false} EndStays(b: System, moves: seq<Move>, context: Context)
    requires !Open(b.phase) && LegalMoves(b, moves, context)
    ensures !Open(Play(b, moves, context).phase) && Play(b, moves, context).phase.end == b.phase.end
    ensures CloseEarly !in moves && SourceFails !in moves
    decreases |moves|
  {
    if moves != [] {
      EndStays(MoveOn(b, moves[0], context), moves[1..], context);
      assert moves == [moves[0]] + moves[1..];
    }
  }

  /** The batch ends as closed by its caller, or by its source's error, exactly when that happened. */
  lemma {:induction false} EndsAsItHappened(b: System, moves: seq<Move>, context: Context)
    requires Open(b.phase) && LegalMoves(b, moves, context)
    ensures var e := Play(b, moves, context).phase;
            && (Ends(e, ClosedByCaller) <==> CloseEarly in moves)
            && (Ends(e, SourceRaised) <==> SourceFails in moves)
    decreases |moves|
  {
    if moves != [] {
      var n := MoveOn(b, moves[0], context);
      assert moves == [moves[0]] + moves[1..];
      if Open(n.phase) {
        EndsAsItHappened(n, moves[1..], context);
      } else {
        EndStays(n, moves[1..], context);
      }
    }
  }
}
