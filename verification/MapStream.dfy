/** One `map_stream` over a shared pool: the loop of `_drive_stream`, the gated source and
    the delivery to the caller, interleaved with every other stream, the worker threads
    and the closer. */
module MapStream {
  import opened Basics
  import opened SchedulerModel
  import opened SchedulerProofs

  datatype Pool = PoolRunning | PoolDraining | PoolBroken | PoolClosed

  datatype Submission = Submission(job: Job, value: Value)

  /** The source-pull task: waiting for the gate, inside the source, or done. */
  datatype Pull = NoPull | Gated | Asking | Pulled(submission: Option<Submission>)

  datatype Phase =
    | Top | Taking | Took | Yielded | Handed
    | Checking | Offering | Collecting | Starting | Waiting
    | Returned | RaisedSchedulerBroken | ClosedByCaller | Abandoned | Gone

  /** The gated source: the submissions, the semaphore and the pull task. */
  datatype Feed = Feed(
    source: seq<Submission>, width: nat, pulled: nat, asked: nat,
    permits: int, released: nat, done: bool, pull: Pull)

  datatype Stream = Stream(
    sched: State, pool: Pool, owner: nat, feed: Feed,
    exhausted: bool, carried: Option<Submission>, outstanding: int,
    phase: Phase, delivered: seq<Item>,
    refused: bool,      // an admission came back INTAKE_CLOSED
    failed: bool)       // ... after the submission had been queued

  datatype Move =
    | Elsewhere(step: Step)     // other streams, workers
    | PoolCloses                // drain or abort
    | PoolFinishesClosing       // shutdown with completions preserved
    | PoolDiscards
    | OtherStreamBreaks         // another stream saw the break first
    | GateOpens                 // the pull task acquires a permit and asks the source
    | SourceAnswers
    | Drive(starts: bool)
    | CallerStops               // the caller closes the stream at a yield
    | WaitCancelled             // the consuming task is cancelled in the stream's wait
    | SourceRaises              // the pull task failed and the stream collects its error

  function Me(t: Stream): Claim {
    OwnedBy(t.owner)
  }

  function Start(sched: State, owner: nat, width: nat, source: seq<Submission>): Stream {
    Stream(sched, PoolRunning, owner, Feed(source, width, 0, 0, width, 0, false, NoPull),
           false, None, 0, Top, [], false, false)
  }

  /** Steps of the other parties never use this stream's identity. */
  predicate Foreign(step: Step, owner: nat) {
    match step
    case Admit(_, context, _) => !Claims(OwnedBy(owner), context)
    case TakeReady(claim) => claim != Anyone && claim != OwnedBy(owner)
    case ReleaseOwned(claim) => claim != OwnedBy(owner)
    case WorkerTake => true
    case WorkerExit => true
    case FinishOk(_) => true
    case FinishFailed(_) => true
    case CancelAll => true
    case _ => false
  }

  predicate CanMove(t: Stream, move: Move) {
    match move
    case Elsewhere(step) => Foreign(step, t.owner) && Enabled(t.sched, step)
    case PoolCloses => t.pool.PoolRunning? || t.pool.PoolBroken?
    case PoolFinishesClosing => t.pool.PoolDraining? && Enabled(t.sched, ShutdownEnd)
    case PoolDiscards => t.pool.PoolClosed? && Enabled(t.sched, Discard)
    case OtherStreamBreaks => t.pool.PoolRunning? && t.sched.broken
    case GateOpens => t.feed.pull.Gated? && (t.feed.done || t.feed.permits > 0)
    case SourceAnswers => t.feed.pull.Asking?
    case Drive(_) => !t.phase.Gone?
    case CallerStops => t.phase.Handed?
    case WaitCancelled => t.phase.Waiting?
    case SourceRaises => t.phase.Collecting? && t.feed.pull.Asking?
  }

  function PassGate(f: Feed): Feed {
    if f.done then f.(pull := Pulled(None))
    else f.(permits := f.permits - 1, asked := f.asked + 1, pull := Asking)
  }

  /** The source's answer; an empty one gives its permit back and ends the generator. */
  function Answer(f: Feed): Feed {
    if f.pulled < |f.source| then f.(pulled := f.pulled + 1, pull := Pulled(Some(f.source[f.pulled])))
    else f.(permits := f.permits + 1, done := true, pull := Pulled(None))
  }

  /** `gate.release()` for one delivered completion. */
  function GiveBack(f: Feed): Feed {
    f.(permits := f.permits + 1, released := f.released + 1)
  }

  function Begin(t: Stream): Stream {
    if t.pool.PoolRunning? then t.(phase := Taking)
    else t.(exhausted := true, carried := None, feed := Cancel(t.feed), phase := Taking)
  }

  /** Cancelling a pull in progress also ends the gated generator. */
  function Cancel(f: Feed): Feed {
    f.(pull := NoPull, done := f.done || !f.pull.NoPull?)
  }

  function TryTake(t: Stream): Stream {
    match TakeOf(t.sched, Me(t))
    case Got(item) =>
      t.(sched := Next(t.sched, TakeReady(Me(t))), outstanding := t.outstanding - 1,
         delivered := t.delivered + [item], phase := Took)
    case RaisedBroken =>
      t.(pool := if t.pool.PoolRunning? then PoolBroken else t.pool, phase := RaisedSchedulerBroken)
    case Nothing => t.(phase := Checking)
  }

  function MaybePull(t: Stream, phase: Phase): Stream {
    if !t.exhausted && t.carried.None? && t.feed.pull.NoPull? && CanAdmit(t.sched)
    then t.(feed := t.feed.(pull := Gated), phase := phase)
    else t.(phase := phase)
  }

  function Offer(t: Stream, starts: bool): Stream {
    if t.carried.None? then t.(phase := Collecting)
    else
      var job, context := t.carried.value.job, Owned(t.owner, t.carried.value.value);
      var after := t.(sched := Next(t.sched, Admit(job, context, starts)));
      match AdmissionOf(t.sched, job, context, starts)
      case Admitted => after.(carried := None, outstanding := t.outstanding + 1, phase := Top)
      case IntakeClosed =>
        after.(carried := None, exhausted := true, refused := true, failed := !t.sched.intakeClosed, phase := Top)
      case NoRoom => after.(phase := Collecting)
  }

  function Collect(t: Stream): Stream {
    if !t.feed.pull.Pulled? then t.(phase := Starting)
    else
      var submission := t.feed.pull.submission;
      var after := t.(feed := t.feed.(pull := NoPull), phase := Top);
      if submission.None? then after.(exhausted := true)
      else if t.pool.PoolRunning? then after.(carried := submission)
      else after
  }

  /** The finally blocks: drop the pull and release what only this stream could claim. */
  function Leave(t: Stream): Stream {
    t.(feed := Cancel(t.feed), sched := Next(t.sched, ReleaseOwned(Me(t))), phase := Gone)
  }

  function DriveOn(t: Stream, starts: bool): Stream {
    match t.phase
    case Top => Begin(t)
    case Taking => TryTake(t)
    case Took => MaybePull(t, Yielded)
    case Yielded => t.(feed := GiveBack(t.feed), phase := Handed)
    case Handed => t.(phase := Top)
    case Checking =>
      if t.exhausted && t.carried.None? && t.outstanding == 0 then t.(phase := Returned)
      else t.(phase := Offering)
    case Offering => Offer(t, starts)
    case Collecting => Collect(t)
    case Starting => MaybePull(t, Waiting)
    case Waiting => t.(phase := Top)
    case Returned => Leave(t)
    case RaisedSchedulerBroken => Leave(t)
    case ClosedByCaller => Leave(t)
    case Abandoned => Leave(t)
    case Gone => t
  }

  function MoveOn(t: Stream, move: Move): Stream
    requires CanMove(t, move)
  {
    match move
    case Elsewhere(step) => t.(sched := Next(t.sched, step))
    case PoolCloses => t.(pool := PoolDraining, sched := Next(t.sched, CloseIntake))
    case PoolFinishesClosing =>
      t.(pool := if t.sched.broken then PoolBroken else PoolClosed, sched := Next(t.sched, ShutdownEnd))
    case PoolDiscards => t.(sched := Next(t.sched, Discard))
    case OtherStreamBreaks => t.(pool := PoolBroken)
    case GateOpens => t.(feed := PassGate(t.feed))
    case SourceAnswers => t.(feed := Answer(t.feed))
    case Drive(starts) => DriveOn(t, starts)
    case CallerStops => t.(phase := ClosedByCaller)
    case WaitCancelled => t.(phase := Abandoned)
    case SourceRaises => t.(phase := Abandoned)
  }

  ghost predicate LegalMoves(t: Stream, moves: seq<Move>)
    decreases |moves|
  {
    moves != [] ==> CanMove(t, moves[0]) && LegalMoves(MoveOn(t, moves[0]), moves[1..])
  }

  ghost function Play(t: Stream, moves: seq<Move>): Stream
    requires LegalMoves(t, moves)
    decreases |moves|
  {
    if moves == [] then t else Play(MoveOn(t, moves[0]), moves[1..])
  }

  // ---------- the gate ----------

  /** The semaphore: each answered or pending question to the source holds a permit until a
      completion gives it back; the final empty answer gives its own back. */
  ghost predicate FeedInv(f: Feed) {
    && f.permits >= 0
    && f.pulled <= |f.source|
    && (f.pull.Asking? ==> !f.done)
    && (if f.done then f.asked <= f.width + f.released else f.asked + f.permits == f.width + f.released)
  }

  ghost predicate GateInv(t: Stream) {
    && FeedInv(t.feed)
    && t.feed.released <= |t.delivered|
    && (t.phase.Took? || t.phase.Yielded? ==> t.feed.released < |t.delivered|)
  }

  lemma GateTake(t: Stream)
    requires GateInv(t)
    ensures GateInv(TryTake(t))
  {
  }

  lemma GateOffer(t: Stream, starts: bool)
    requires GateInv(t)
    ensures GateInv(Offer(t, starts))
  {
    assert Offer(t, starts).feed == t.feed && Offer(t, starts).delivered == t.delivered;
  }

  lemma GateDrive(t: Stream, starts: bool)
    requires GateInv(t)
    ensures GateInv(DriveOn(t, starts))
  {
    match t.phase
    case Taking => GateTake(t);
    case Took => GateMaybePull(t, Yielded);
    case Offering => GateOffer(t, starts);
    case Collecting => GateCollect(t);
    case Starting => GateMaybePull(t, Waiting);
    case _ =>
  }

  lemma GateCollect(t: Stream)
    requires GateInv(t)
    ensures GateInv(Collect(t))
  {
    assert Collect(t).delivered == t.delivered;
  }

  lemma GateMaybePull(t: Stream, phase: Phase)
    requires GateInv(t) && (phase.Yielded? ==> t.phase.Took?) && !phase.Took?
    ensures GateInv(MaybePull(t, phase))
  {
  }

  lemma GateStep(t: Stream, move: Move)
    requires GateInv(t) && CanMove(t, move)
    ensures GateInv(MoveOn(t, move))
  {
    match move
    case Drive(starts) => GateDrive(t, starts);
    case _ =>
  }

  lemma {:induction false} GateRun(t: Stream, moves: seq<Move>)
    requires GateInv(t) && LegalMoves(t, moves)
    ensures GateInv(Play(t, moves))
    decreases |moves|
  {
    if moves != [] {
      GateStep(t, moves[0]);
      GateRun(MoveOn(t, moves[0]), moves[1..]);
    }
  }

  /** At every moment of every run the source has been asked at most `width` times more
      than completions have been delivered. */
  lemma SourceNeverRunsAhead(sched: State, owner: nat, width: nat, source: seq<Submission>, moves: seq<Move>)
    requires LegalMoves(Start(sched, owner, width, source), moves)
    ensures var t := Play(Start(sched, owner, width, source), moves);
            t.feed.asked <= width + |t.delivered|
  {
    GateRun(Start(sched, owner, width, source), moves);
    PlayKeepsIdentity(Start(sched, owner, width, source), moves);
  }

  // ---------- exactly-once delivery ----------

  /** What this stream has had queued, and what has left the ready queue of it. */
  function Own(t: Stream): seq<Item> {
    Select(t.sched.log, Me(t))
  }

  function Left(t: Stream): seq<Item> {
    Select(ItemsOf(t.sched.departed), Me(t))
  }

  function SubmissionsOf(items: seq<Item>): seq<Submission> {
    seq(|items|, i requires 0 <= i < |items| => Submission(items[i].job, items[i].context.value))
  }

  function InHand(t: Stream): seq<Submission> {
    if t.carried.Some? then [t.carried.value]
    else if t.feed.pull.Pulled? && t.feed.pull.submission.Some? then [t.feed.pull.submission.value]
    else []
  }

  /** The rest of one loop iteration, after the completion queue was found empty and healthy. */
  predicate AfterTake(phase: Phase) {
    phase.Checking? || phase.Offering? || phase.Collecting? || phase.Starting? || phase.Waiting? || phase.Returned?
  }

  ghost predicate Tasked(t: Stream) {
    && (t.carried.Some? ==> t.feed.pull.NoPull?)
    && (t.feed.pull == Pulled(None) ==> t.feed.done)
    && (t.failed ==> t.refused)
    && (t.phase.Returned? ==> t.exhausted && t.carried.None? && t.outstanding == 0)
  }

  /** The books of the stream while the pool is running. */
  ghost predicate Balanced(t: Stream) {
    && (t.sched.intakeClosed ==> t.sched.broken)
    && (t.refused ==> t.sched.broken && t.exhausted)
    && (AfterTake(t.phase) ==> !t.refused)
    && t.feed.pulled <= |t.feed.source|
    && (t.feed.done ==> t.feed.pulled == |t.feed.source|)
    && Left(t) == t.delivered
    && |Own(t)| == t.outstanding + |t.delivered| + (if t.failed then 1 else 0)
    && (!t.refused ==> SubmissionsOf(Own(t)) + InHand(t) == t.feed.source[..t.feed.pulled])
    && (!t.refused && t.exhausted ==>
          t.feed.pulled == |t.feed.source| && t.carried.None? && t.feed.pull.NoPull?)
  }

  ghost predicate StreamInv(t: Stream) {
    && Tasked(t)
    && (t.pool.PoolRunning? && !t.phase.Gone? ==> Balanced(t))
  }

  /** A step that this stream does not take part in. */
  ghost predicate Apart(s: State, n: State, claim: Claim) {
    && Select(n.log, claim) == Select(s.log, claim)
    && Select(ItemsOf(n.departed), claim) == Select(ItemsOf(s.departed), claim)
    && (s.broken ==> n.broken)
    && (n.intakeClosed ==> s.intakeClosed || n.broken)
  }

  lemma AdmitLog(s: State, job: Job, context: Context, starts: bool)
    ensures var n := Next(s, Admit(job, context, starts));
            && n.log == (if CanAdmit(s) then s.log + [Item(s.nextTicket, job, context)] else s.log)
            && n.departed == s.departed
            && (s.broken ==> n.broken)
            && (n.intakeClosed ==> s.intakeClosed || n.broken)
  {
  }

  lemma ForeignAdmitIsApart(s: State, job: Job, context: Context, starts: bool, claim: Claim)
    requires !Claims(claim, context)
    ensures Apart(s, Next(s, Admit(job, context, starts)), claim)
  {
    AdmitLog(s, job, context, starts);
    SelectConcat(s.log, [Item(s.nextTicket, job, context)], claim);
  }

  lemma ForeignTakeIsApart(s: State, taker: Claim, claim: Claim)
    requires taker != Anyone && claim != Anyone && taker != claim
    ensures Apart(s, Next(s, TakeReady(taker)), claim)
  {
    var i := FirstClaimed(s.ready, taker);
    if i < |s.ready| {
      var x := s.ready[i];
      assert ItemsOf(s.departed + [Taken(taker, x)]) == ItemsOf(s.departed) + [x];
      SelectConcat(ItemsOf(s.departed), [x], claim);
      assert Select([x], claim) == [];
    }
  }

  lemma ForeignReleaseIsApart(s: State, gone: Claim, claim: Claim)
    requires gone != Anyone && claim != Anyone && gone != claim
    ensures Apart(s, Next(s, ReleaseOwned(gone)), claim)
  {
    DropItems(s.departed, Select(s.ready, gone));
    SelectConcat(ItemsOf(s.departed), Select(s.ready, gone), claim);
    SelectAfterReject(s.ready, gone, claim);
  }

  lemma ForeignIsApart(s: State, step: Step, owner: nat)
    requires Foreign(step, owner) && Enabled(s, step)
    ensures Apart(s, Next(s, step), OwnedBy(owner))
  {
    match step
    case Admit(job, context, starts) => ForeignAdmitIsApart(s, job, context, starts, OwnedBy(owner));
    case TakeReady(claim) => ForeignTakeIsApart(s, claim, OwnedBy(owner));
    case ReleaseOwned(claim) => ForeignReleaseIsApart(s, claim, OwnedBy(owner));
    case _ =>
  }

  lemma ApartKeeps(t: Stream, n: State)
    requires StreamInv(t) && Apart(t.sched, n, Me(t))
    ensures StreamInv(t.(sched := n))
  {
    var u := t.(sched := n);
    assert Own(u) == Own(t) && Left(u) == Left(t) && InHand(u) == InHand(t);
  }

  // ---------- the stream's own moves ----------

  lemma SubmissionsOfNext(items: seq<Item>, x: Item)
    ensures SubmissionsOf(items + [x]) == SubmissionsOf(items) + [Submission(x.job, x.context.value)]
  {
  }

  lemma TakeKeepsStream(t: Stream)
    requires StreamInv(t) && t.phase.Taking?
    ensures StreamInv(TryTake(t))
  {
    var i := FirstClaimed(t.sched.ready, Me(t));
    if i < |t.sched.ready| {
      var x := t.sched.ready[i];
      var n := Next(t.sched, TakeReady(Me(t)));
      assert ItemsOf(t.sched.departed + [Taken(Me(t), x)]) == ItemsOf(t.sched.departed) + [x];
      SelectConcat(ItemsOf(t.sched.departed), [x], Me(t));
      assert Select([x], Me(t)) == [x];
      TookKeeps(t, n, x);
    }
  }

  lemma TookKeeps(t: Stream, n: State, x: Item)
    requires StreamInv(t) && t.phase.Taking?
    requires n.log == t.sched.log && n.broken == t.sched.broken && n.intakeClosed == t.sched.intakeClosed
    requires Select(ItemsOf(n.departed), Me(t)) == Left(t) + [x]
    ensures StreamInv(t.(sched := n, outstanding := t.outstanding - 1, delivered := t.delivered + [x], phase := Took))
  {
    var u := t.(sched := n, outstanding := t.outstanding - 1, delivered := t.delivered + [x], phase := Took);
    assert InHand(u) == InHand(t) && Own(u) == Own(t);
  }

  /** The queued submission becomes the newest of this stream's log entries. */
  lemma QueuedKeeps(t: Stream, n: State, item: Item, failed: bool)
    requires StreamInv(t) && t.phase.Offering? && t.carried.Some?
    requires item.job == t.carried.value.job && item.context == Owned(t.owner, t.carried.value.value)
    requires n.log == t.sched.log + [item] && n.departed == t.sched.departed
    requires n.intakeClosed ==> t.sched.intakeClosed || n.broken
    requires t.sched.broken ==> n.broken
    requires failed ==> n.broken
    ensures StreamInv(if failed
                      then t.(sched := n, carried := None, exhausted := true,
                              refused := true, failed := true, phase := Top)
                      else t.(sched := n, carried := None, outstanding := t.outstanding + 1, phase := Top))
  {
    SelectConcat(t.sched.log, [item], Me(t));
    assert Select([item], Me(t)) == [item];
    SubmissionsOfNext(Own(t), item);
    assert SubmissionsOf(Own(t)) + [t.carried.value] + [] == SubmissionsOf(Own(t)) + [t.carried.value];
  }

  lemma OfferKeepsStream(t: Stream, starts: bool)
    requires StreamInv(t) && t.phase.Offering?
    ensures StreamInv(Offer(t, starts))
  {
    if t.carried.Some? {
      var job, context := t.carried.value.job, Owned(t.owner, t.carried.value.value);
      var item := Item(t.sched.nextTicket, job, context);
      AdmitLog(t.sched, job, context, starts);
      var n := Next(t.sched, Admit(job, context, starts));
      if CanAdmit(t.sched) {
        QueuedKeeps(t, n, item, n.broken);
      }
    }
  }

  lemma CollectKeepsStream(t: Stream)
    requires StreamInv(t) && t.phase.Collecting?
    ensures StreamInv(Collect(t))
  {
    if t.feed.pull.Pulled? {
      var u := Collect(t);
      assert Own(u) == Own(t) && Left(u) == Left(t);
    }
  }

  lemma PullKeepsStream(t: Stream, phase: Phase)
    requires StreamInv(t) && ((t.phase.Took? && phase == Yielded) || (t.phase.Starting? && phase == Waiting))
    ensures StreamInv(MaybePull(t, phase))
  {
    var u := MaybePull(t, phase);
    assert Own(u) == Own(t) && Left(u) == Left(t) && InHand(u) == InHand(t);
  }

  lemma FeedKeepsStream(t: Stream, f: Feed)
    requires StreamInv(t)
    requires (t.feed.pull.Gated? && f == PassGate(t.feed)) || (t.feed.pull.Asking? && f == Answer(t.feed))
    ensures StreamInv(t.(feed := f))
  {
    var u := t.(feed := f);
    assert Own(u) == Own(t) && Left(u) == Left(t);
    if t.pool.PoolRunning? && !t.phase.Gone? && t.feed.pull.Asking? && t.feed.pulled < |t.feed.source| {
      assert t.feed.source[..t.feed.pulled + 1] == t.feed.source[..t.feed.pulled] + [t.feed.source[t.feed.pulled]];
      assert SubmissionsOf(Own(t)) + [] == SubmissionsOf(Own(t));
    }
  }

  lemma BeginKeepsStream(t: Stream)
    requires StreamInv(t) && t.phase.Top?
    ensures StreamInv(Begin(t))
  {
  }

  lemma PhaseKeepsStream(t: Stream, u: Stream)
    requires StreamInv(t)
    requires u == t.(phase := u.phase, feed := t.feed.(permits := u.feed.permits, released := u.feed.released))
    requires AfterTake(u.phase) ==> AfterTake(t.phase)
    requires u.phase.Returned? ==> t.exhausted && t.carried.None? && t.outstanding == 0
    requires t.phase.Gone? ==> u.phase.Gone?
    ensures StreamInv(u)
  {
    assert Own(u) == Own(t) && Left(u) == Left(t) && InHand(u) == InHand(t);
  }

  lemma DriveKeepsStream(t: Stream, starts: bool)
    requires StreamInv(t) && !t.phase.Gone?
    ensures StreamInv(DriveOn(t, starts))
  {
    match t.phase
    case Top => BeginKeepsStream(t);
    case Taking => TakeKeepsStream(t);
    case Took => PullKeepsStream(t, Yielded);
    case Offering => OfferKeepsStream(t, starts);
    case Collecting => CollectKeepsStream(t);
    case Starting => PullKeepsStream(t, Waiting);
    case Yielded => PhaseKeepsStream(t, DriveOn(t, starts));
    case Handed => PhaseKeepsStream(t, DriveOn(t, starts));
    case Checking => PhaseKeepsStream(t, DriveOn(t, starts));
    case Waiting => PhaseKeepsStream(t, DriveOn(t, starts));
    case _ => LeaveKeepsStream(t);
  }

  lemma LeaveKeepsStream(t: Stream)
    requires StreamInv(t)
    ensures StreamInv(Leave(t))
  {
  }

  lemma MoveKeepsStream(t: Stream, move: Move)
    requires StreamInv(t) && CanMove(t, move)
    ensures StreamInv(MoveOn(t, move))
  {
    match move
    case Elsewhere(step) =>
      ForeignIsApart(t.sched, step, t.owner);
      ApartKeeps(t, Next(t.sched, step));
    case Drive(starts) => DriveKeepsStream(t, starts);
    case GateOpens => FeedKeepsStream(t, PassGate(t.feed));
    case SourceAnswers => FeedKeepsStream(t, Answer(t.feed));
    case CallerStops => PhaseKeepsStream(t, t.(phase := ClosedByCaller));
    case WaitCancelled => PhaseKeepsStream(t, t.(phase := Abandoned));
    case SourceRaises => PhaseKeepsStream(t, t.(phase := Abandoned));
    case _ =>
  }

  lemma MoveKeepsSched(t: Stream, move: Move)
    requires Inv(t.sched) && CanMove(t, move)
    ensures Inv(MoveOn(t, move).sched)
  {
    var n := MoveOn(t, move).sched;
    match move
    case Elsewhere(step) => StepKeepsInv(t.sched, step);
    case PoolCloses => StepKeepsInv(t.sched, CloseIntake);
    case PoolFinishesClosing => StepKeepsInv(t.sched, ShutdownEnd);
    case PoolDiscards => StepKeepsInv(t.sched, Discard);
    case Drive(starts) => DriveKeepsSched(t, starts);
    case _ =>
  }

  /** The one scheduler call, if any, in the driver's next move. */
  function CallOf(t: Stream, starts: bool): Option<Step> {
    match t.phase
    case Taking => Some(TakeReady(Me(t)))
    case Offering =>
      if t.carried.None? then None
      else Some(Admit(t.carried.value.job, Owned(t.owner, t.carried.value.value), starts))
    case Returned => Some(ReleaseOwned(Me(t)))
    case RaisedSchedulerBroken => Some(ReleaseOwned(Me(t)))
    case ClosedByCaller => Some(ReleaseOwned(Me(t)))
    case Abandoned => Some(ReleaseOwned(Me(t)))
    case _ => None
  }

  lemma TakeIsOneCall(t: Stream)
    ensures TryTake(t).sched == Next(t.sched, TakeReady(Me(t)))
  {
  }

  lemma OfferIsOneCall(t: Stream, starts: bool)
    requires t.carried.Some?
    ensures Offer(t, starts).sched
         == Next(t.sched, Admit(t.carried.value.job, Owned(t.owner, t.carried.value.value), starts))
  {
  }

  lemma QuietDrives(t: Stream, starts: bool)
    requires t.phase != Taking && t.phase != Returned && t.phase != RaisedSchedulerBroken
    requires t.phase != ClosedByCaller && t.phase != Abandoned
    requires t.phase == Offering ==> t.carried.None?
    ensures DriveOn(t, starts).sched == t.sched
  {
    if t.phase == Collecting {
      assert Collect(t).sched == t.sched;
    }
  }

  lemma DriveIsOneCall(t: Stream, starts: bool)
    ensures match CallOf(t, starts)
            case None => DriveOn(t, starts).sched == t.sched
            case Some(step) => Enabled(t.sched, step) && DriveOn(t, starts).sched == Next(t.sched, step)
  {
    if CallOf(t, starts).None? {
      QuietDrives(t, starts);
    } else if t.phase == Taking {
      TakeIsOneCall(t);
    } else if t.phase == Offering {
      OfferIsOneCall(t, starts);
    }
  }

  lemma DriveKeepsSched(t: Stream, starts: bool)
    requires Inv(t.sched)
    ensures Inv(DriveOn(t, starts).sched)
  {
    DriveIsOneCall(t, starts);
    if CallOf(t, starts).Some? {
      StepKeepsInv(t.sched, CallOf(t, starts).value);
    }
  }

  lemma {:induction false} PlayKeepsStream(t: Stream, moves: seq<Move>)
    requires StreamInv(t) && Inv(t.sched) && LegalMoves(t, moves)
    ensures StreamInv(Play(t, moves)) && Inv(Play(t, moves).sched)
    decreases |moves|
  {
    if moves != [] {
      assert StreamInv(MoveOn(t, moves[0])) by { MoveKeepsStream(t, moves[0]); }
      assert Inv(MoveOn(t, moves[0]).sched) by { MoveKeepsSched(t, moves[0]); }
      PlayKeepsStream(MoveOn(t, moves[0]), moves[1..]);
    }
  }

  /** The stream's identity, width and source never change. */
  lemma {:induction false} PlayKeepsIdentity(t: Stream, moves: seq<Move>)
    requires LegalMoves(t, moves)
    ensures var u := Play(t, moves);
            u.owner == t.owner && u.feed.source == t.feed.source && u.feed.width == t.feed.width
    decreases |moves|
  {
    if moves != [] {
      MoveKeepsIdentity(t, moves[0]);
      PlayKeepsIdentity(MoveOn(t, moves[0]), moves[1..]);
    }
  }

  lemma MoveKeepsIdentity(t: Stream, move: Move)
    requires CanMove(t, move)
    ensures var u := MoveOn(t, move);
            u.owner == t.owner && u.feed.source == t.feed.source && u.feed.width == t.feed.width
  {
    match move
    case Drive(starts) => DriveKeepsIdentity(t, starts);
    case _ =>
  }

  predicate SameStream(t: Stream, u: Stream) {
    u.owner == t.owner && u.feed.source == t.feed.source && u.feed.width == t.feed.width
  }

  lemma TakeKeepsIdentity(t: Stream)
    ensures SameStream(t, TryTake(t))
  {
  }

  lemma OfferKeepsIdentity(t: Stream, starts: bool)
    ensures SameStream(t, Offer(t, starts))
  {
  }

  lemma CollectKeepsIdentity(t: Stream)
    ensures SameStream(t, Collect(t))
  {
  }

  lemma DriveKeepsIdentity(t: Stream, starts: bool)
    ensures SameStream(t, DriveOn(t, starts))
  {
    if t.phase == Taking {
      TakeKeepsIdentity(t);
    } else if t.phase == Offering {
      OfferKeepsIdentity(t, starts);
    } else if t.phase == Collecting {
      CollectKeepsIdentity(t);
    }
  }

  lemma {:induction false} SelectCount(items: seq<Item>, claim: Claim, x: Item)
    ensures multiset(Select(items, claim))[x] == if Claims(claim, x.context) then multiset(items)[x] else 0
  {
    if items != [] {
      assert items == [items[0]] + items[1..];
      SelectCount(items[1..], claim, x);
    }
  }

  lemma SameSizeSame<T>(a: multiset<T>, b: multiset<T>)
    requires a <= b && |a| == |b|
    ensures a == b
  {
    assert b == a + (b - a);
  }

  /** A stream enters a healthy running pool under an identity nobody has used. */
  ghost predicate FreshOwner(sched: State, owner: nat) {
    && Inv(sched)
    && (sched.intakeClosed ==> sched.broken)
    && Select(sched.log, OwnedBy(owner)) == []
    && Select(ItemsOf(sched.departed), OwnedBy(owner)) == []
  }

  /** A map stream that ends normally while the pool is still running has delivered the
      completion of every submission of its source exactly once, whatever the other
      streams did and whether or not the scheduler has broken since. */
  lemma NormalEndDeliversEverySubmissionOnce(
      sched: State, owner: nat, width: nat, source: seq<Submission>, moves: seq<Move>)
    requires FreshOwner(sched, owner) && LegalMoves(Start(sched, owner, width, source), moves)
    requires Play(Start(sched, owner, width, source), moves).phase.Returned?
    requires Play(Start(sched, owner, width, source), moves).pool.PoolRunning?
    ensures var t := Play(Start(sched, owner, width, source), moves);
            && SubmissionsOf(Own(t)) == source
            && multiset(t.delivered) == multiset(Own(t))
            && (forall x :: x in t.delivered ==> multiset(t.delivered)[x] == 1)
  {
    var t0 := Start(sched, owner, width, source);
    assert SubmissionsOf([]) + [] == [];
    PlayKeepsStream(t0, moves);
    PlayKeepsIdentity(t0, moves);
    var t := Play(t0, moves);
    assert t.feed.source[..t.feed.pulled] == t.feed.source;
    assert SubmissionsOf(Own(t)) + [] == SubmissionsOf(Own(t));
    DeliveredIsOwn(t.sched, Me(t));
    SameSizeSame(multiset(t.delivered), multiset(Own(t)));
  }

  lemma LeftIsAdmitted(s: State, claim: Claim)
    requires Conserved(s)
    ensures multiset(Select(ItemsOf(s.departed), claim)) <= multiset(Select(s.log, claim))
  {
    var left := Select(ItemsOf(s.departed), claim);
    forall x ensures multiset(left)[x] <= multiset(Select(s.log, claim))[x] {
      SelectCount(ItemsOf(s.departed), claim, x);
      SelectCount(s.log, claim, x);
    }
  }

  /** What has left a claim's queue is part of what was admitted for it, without repeats. */
  lemma DeliveredIsOwn(s: State, claim: Claim)
    requires Inv(s)
    ensures var left := Select(ItemsOf(s.departed), claim);
            && multiset(left) <= multiset(Select(s.log, claim))
            && (forall x :: x in left ==> multiset(left)[x] == 1)
  {
    var left := Select(ItemsOf(s.departed), claim);
    LeftIsAdmitted(s, claim);
    forall x | x in left ensures multiset(left)[x] == 1 {
      SelectCount(ItemsOf(s.departed), claim, x);
      assert x in multiset(left);
      assert x in multiset(s.log);
      OnceInLog(s.log, x.ticket);
    }
  }

  /** At every moment while the pool runs, `outstanding` is the number of this stream's
      queued submissions that it has not been handed, unless its last admission failed. */
  lemma OutstandingTracksOwnWork(
      sched: State, owner: nat, width: nat, source: seq<Submission>, moves: seq<Move>)
    requires FreshOwner(sched, owner) && LegalMoves(Start(sched, owner, width, source), moves)
    ensures var t := Play(Start(sched, owner, width, source), moves);
            t.pool.PoolRunning? && !t.phase.Gone? && !t.refused ==>
              && t.outstanding == |Own(t)| - |t.delivered|
              && t.delivered == Left(t)
  {
    assert SubmissionsOf([]) + [] == [];
    PlayKeepsStream(Start(sched, owner, width, source), moves);
  }

  // ---------- pulling, closing and breaking ----------

  /** Before it yields and before it waits the stream asks for a submission exactly when it has
      nothing in hand, its source may have more and there is room for one. */
  lemma AsksExactlyWhenThereIsRoom(t: Stream, starts: bool)
    requires t.phase.Took? || t.phase.Starting?
    ensures var u := DriveOn(t, starts);
            if !t.exhausted && t.carried.None? && t.feed.pull.NoPull?
               && t.sched.residents < t.sched.capacity && !t.sched.intakeClosed
            then u.feed.pull.Gated? else u.feed.pull == t.feed.pull
  {
  }

  /** A stream that found its pool no longer running submits nothing more. */
  ghost predicate Quitting(t: Stream) {
    !t.pool.PoolRunning? && t.exhausted && t.carried.None? && t.feed.pull.NoPull?
  }

  lemma FindingThePoolClosedQuits(t: Stream, starts: bool)
    requires !t.pool.PoolRunning?
    ensures t.phase.Top? ==> Quitting(DriveOn(t, starts))
    ensures t.phase.Collecting? && t.carried.None? ==> DriveOn(t, starts).carried.None?
  {
  }

  lemma QuittingDrive(t: Stream, starts: bool)
    requires Quitting(t)
    ensures Quitting(DriveOn(t, starts)) && DriveOn(t, starts).sched.log == t.sched.log
  {
    DriveIsOneCall(t, starts);
    if t.phase.Offering? {
      assert Offer(t, starts) == t.(phase := Collecting);
    } else if t.phase.Collecting? {
      assert Collect(t) == t.(phase := Starting);
    }
  }

  lemma QuittingMove(t: Stream, move: Move)
    requires Quitting(t) && CanMove(t, move)
    ensures Quitting(MoveOn(t, move)) && Own(MoveOn(t, move)) == Own(t)
  {
    match move
    case Elsewhere(step) => ForeignIsApart(t.sched, step, t.owner);
    case Drive(starts) =>
      QuittingDrive(t, starts);
      DriveKeepsIdentity(t, starts);
    case _ =>
  }

  lemma {:induction false} NothingSubmittedAfterTheClose(t: Stream, moves: seq<Move>)
    requires Quitting(t) && LegalMoves(t, moves)
    ensures Quitting(Play(t, moves)) && Own(Play(t, moves)) == Own(t)
    decreases |moves|
  {
    if moves != [] {
      QuittingMove(t, moves[0]);
      NothingSubmittedAfterTheClose(MoveOn(t, moves[0]), moves[1..]);
    }
  }

  /** A stream that raises for a break has found one and has marked the pool. */
  ghost predicate Marked(t: Stream) {
    t.phase.RaisedSchedulerBroken? ==> t.sched.broken && !t.pool.PoolRunning?
  }

  lemma TakingMarks(t: Stream)
    ensures Marked(TryTake(t))
  {
  }

  lemma DriveMarks(t: Stream, starts: bool)
    ensures Marked(DriveOn(t, starts))
  {
    if t.phase.Taking? {
      TakingMarks(t);
    } else if t.phase.Offering? {
      assert !Offer(t, starts).phase.RaisedSchedulerBroken?;
    } else if t.phase.Collecting? {
      assert !Collect(t).phase.RaisedSchedulerBroken?;
    }
  }

  lemma MoveMarks(t: Stream, move: Move)
    requires Marked(t) && CanMove(t, move)
    ensures Marked(MoveOn(t, move))
  {
    match move
    case Elsewhere(step) => ForeignIsApart(t.sched, step, t.owner);
    case Drive(starts) => DriveMarks(t, starts);
    case _ =>
  }

  lemma {:induction false} BreakIsReported(t: Stream, moves: seq<Move>)
    requires Marked(t) && LegalMoves(t, moves)
    ensures Marked(Play(t, moves))
    decreases |moves|
  {
    if moves != [] {
      MoveMarks(t, moves[0]);
      BreakIsReported(MoveOn(t, moves[0]), moves[1..]);
    }
  }

  // ---------- after the stream has left ----------

  predicate Leaving(phase: Phase) {
    phase.Returned? || phase.RaisedSchedulerBroken? || phase.ClosedByCaller? || phase.Abandoned?
  }

  lemma {:induction false} GoneStays(t: Stream, moves: seq<Move>)
    requires t.phase.Gone? && t.feed.pull.NoPull? && LegalMoves(t, moves)
    ensures var e := Play(t, moves);
            e.phase.Gone? && e.feed == t.feed && Own(e) == Own(t) && e.delivered == t.delivered
    decreases |moves|
  {
    if moves != [] {
      if moves[0].Elsewhere? {
        ForeignIsApart(t.sched, moves[0].step, t.owner);
      }
      GoneStays(MoveOn(t, moves[0]), moves[1..]);
    }
  }

  /** However a stream ends, it leaves nothing buffered for itself, and in every later run it asks
      its source for nothing, submits nothing and delivers nothing. */
  lemma LeavesForGood(t: Stream, starts: bool, moves: seq<Move>)
    requires Leaving(t.phase) && LegalMoves(DriveOn(t, starts), moves)
    ensures var u := DriveOn(t, starts);
            var e := Play(u, moves);
            && u.phase.Gone? && Select(u.sched.ready, Me(t)) == []
            && e.feed == u.feed && !e.feed.pull.Gated? && !e.feed.pull.Asking? && e.feed.pulled == t.feed.pulled
            && Own(e) == Own(t) && e.delivered == t.delivered
  {
    ReleaseEmptiesOwnQueueOnly(t.sched, Me(t), Me(t));
    GoneStays(DriveOn(t, starts), moves);
  }

  // ---------- the state of the pool ----------

  /** A pool marked broken has a broken scheduler; one that closed did not, and stays so. */
  ghost predicate Labelled(t: Stream) {
    && (t.pool.PoolBroken? ==> t.sched.broken)
    && (t.pool.PoolClosed? ==>
          !t.sched.broken && t.sched.intakeClosed && t.sched.pending == [] && t.sched.active == [])
  }

  /** A break is not undone, and a closed and empty scheduler stays as it is. */
  ghost predicate Settles(s: State, n: State) {
    && (s.broken ==> n.broken)
    && (s.intakeClosed && s.pending == [] && s.active == [] ==>
          n.broken == s.broken && n.intakeClosed && n.pending == [] && n.active == [])
  }

  lemma AdmitSettles(s: State, job: Job, context: Context, starts: bool)
    requires Inv(s)
    ensures Settles(s, Next(s, Admit(job, context, starts)))
  {
    assert s.intakeClosed ==> Next(s, Admit(job, context, starts)) == s;
  }

  lemma LeavingSettles(s: State, claim: Claim)
    ensures Settles(s, Next(s, TakeReady(claim)))
    ensures claim != Anyone ==> Settles(s, Next(s, ReleaseOwned(claim)))
  {
  }

  lemma ForeignSettles(s: State, step: Step, owner: nat)
    requires Inv(s) && Enabled(s, step) && Foreign(step, owner)
    ensures Settles(s, Next(s, step))
  {
    if s.broken {
      StepKeepsBroken(s, step);
    }
    match step
    case Admit(job, context, starts) => AdmitSettles(s, job, context, starts);
    case TakeReady(claim) => LeavingSettles(s, claim);
    case ReleaseOwned(claim) => LeavingSettles(s, claim);
    case _ =>
  }

  lemma CallSettles(t: Stream, starts: bool)
    requires Inv(t.sched)
    ensures Settles(t.sched, DriveOn(t, starts).sched)
  {
    DriveIsOneCall(t, starts);
    match CallOf(t, starts)
    case Some(Admit(job, context, s)) => AdmitSettles(t.sched, job, context, s);
    case Some(step) => LeavingSettles(t.sched, Me(t));
    case None =>
  }

  lemma PoolAfterOffer(t: Stream, starts: bool)
    requires t.phase.Offering?
    ensures DriveOn(t, starts).pool == t.pool
  {
  }

  lemma PoolAfterDrive(t: Stream, starts: bool)
    ensures var pool := DriveOn(t, starts).pool;
            pool == t.pool || (t.phase.Taking? && t.sched.broken && t.pool.PoolRunning? && pool.PoolBroken?)
  {
    if t.phase.Offering? {
      PoolAfterOffer(t, starts);
    }
  }

  lemma DriveLabels(t: Stream, starts: bool)
    requires Inv(t.sched) && Labelled(t)
    ensures Labelled(DriveOn(t, starts))
  {
    CallSettles(t, starts);
    PoolAfterDrive(t, starts);
  }

  lemma MoveLabels(t: Stream, move: Move)
    requires Inv(t.sched) && Labelled(t) && CanMove(t, move)
    ensures Labelled(MoveOn(t, move))
  {
    match move
    case Elsewhere(step) => ForeignSettles(t.sched, step, t.owner);
    case Drive(starts) => DriveLabels(t, starts);
    case _ =>
  }

  /** In every run a pool is left broken exactly when its scheduler was. */
  lemma {:induction false} PoolStateTellsTheBreak(t: Stream, moves: seq<Move>)
    requires Inv(t.sched) && Labelled(t) && LegalMoves(t, moves)
    ensures Labelled(Play(t, moves))
    decreases |moves|
  {
    if moves != [] {
      MoveLabels(t, moves[0]);
      MoveKeepsSched(t, moves[0]);
      PoolStateTellsTheBreak(MoveOn(t, moves[0]), moves[1..]);
    }
  }
}
