/** Which ways of leaving a map stream can stall the pool.

    A stream that stops at a yield has just given back a slot, so its work in flight leaves room.
    One that is cancelled in its wait, or whose source raises, may leave the capacity full of
    work that only it could have taken. */
module Departures {
  import opened Basics
  import opened SchedulerModel
  import opened SchedulerProofs
  import opened MapStream
  import opened Orphans

  // ---------- stopping at a yield ----------

  lemma HeldWithinResidents(s: State, claim: Claim)
    requires Inv(s) && !s.discarded
    ensures Held(s, claim) <= s.residents
  {
    SelectIsNoLonger(s.pending, claim);
    SelectIsNoLonger(s.active, claim);
    SelectIsNoLonger(s.ready, claim);
    SelectIsNoLonger(s.lost, claim);
  }

  /** A take gives back a slot, so the taker cannot hold the whole capacity afterwards. */
  lemma TakeLeavesRoom(s: State, claim: Claim)
    requires Inv(s) && TakeOf(s, claim).Got?
    ensures Held(Next(s, TakeReady(claim)), claim) < s.capacity
  {
    var n := Next(s, TakeReady(claim));
    assert !s.discarded && n.discarded == s.discarded && n.residents == s.residents - 1;
    StepKeepsInv(s, TakeReady(claim));
    HeldWithinResidents(n, claim);
  }

  /** From the take to the yield, and on if the caller stops there, the stream leaves room. */
  predicate AtYield(phase: Phase) {
    phase.Took? || phase.Yielded? || phase.Handed? || phase.ClosedByCaller?
  }

  ghost predicate Roomy(t: Stream) {
    AtYield(t.phase) ==> Held(t.sched, Me(t)) < t.sched.capacity
  }

  lemma OthersKeepRoom(t: Stream, step: Step)
    requires Inv(t.sched) && Roomy(t) && Enabled(t.sched, step) && WithoutOwner(step, t.owner)
    ensures Roomy(t.(sched := Next(t.sched, step)))
  {
    StepKeepsHeld(t.sched, step, t.owner);
    StepFrame(t.sched, step);
  }

  lemma CollectStaysIn(t: Stream)
    ensures !AtYield(Collect(t).phase)
  {
  }

  lemma OfferStaysIn(t: Stream, starts: bool)
    ensures !AtYield(Offer(t, starts).phase)
  {
  }

  lemma TakeKeepsRoom(t: Stream)
    requires Inv(t.sched)
    ensures Roomy(TryTake(t))
  {
    if TakeOf(t.sched, Me(t)).Got? {
      TakeLeavesRoom(t.sched, Me(t));
      StepFrame(t.sched, TakeReady(Me(t)));
    }
  }

  lemma OnlyTakesLeadToAYield(t: Stream, starts: bool)
    requires !t.phase.Taking? && !t.phase.Took? && !t.phase.Yielded?
    ensures !AtYield(DriveOn(t, starts).phase)
  {
    if t.phase.Offering? {
      OfferStaysIn(t, starts);
    } else if t.phase.Collecting? {
      CollectStaysIn(t);
    }
  }

  lemma YieldingKeepsRoom(t: Stream, starts: bool)
    requires Roomy(t) && (t.phase.Took? || t.phase.Yielded?)
    ensures Roomy(DriveOn(t, starts))
  {
    QuietDrives(t, starts);
    DriveKeepsIdentity(t, starts);
  }

  lemma DriveKeepsRoom(t: Stream, starts: bool)
    requires Inv(t.sched) && Roomy(t)
    ensures Roomy(DriveOn(t, starts))
  {
    if t.phase.Taking? {
      TakeKeepsRoom(t);
    } else if t.phase.Took? || t.phase.Yielded? {
      YieldingKeepsRoom(t, starts);
    } else {
      OnlyTakesLeadToAYield(t, starts);
    }
  }

  lemma MoveKeepsRoom(t: Stream, move: Move)
    requires Inv(t.sched) && Roomy(t) && CanMove(t, move)
    ensures Roomy(MoveOn(t, move))
  {
    match move
    case Elsewhere(step) => OthersKeepRoom(t, step);
    case PoolCloses => OthersKeepRoom(t, CloseIntake);
    case PoolFinishesClosing => OthersKeepRoom(t, ShutdownEnd);
    case PoolDiscards =>
      StepFrame(t.sched, Discard);
    case Drive(starts) => DriveKeepsRoom(t, starts);
    case _ =>
  }

  lemma {:induction false} PlayKeepsRoom(t: Stream, moves: seq<Move>)
    requires Inv(t.sched) && Roomy(t) && LegalMoves(t, moves)
    ensures Inv(Play(t, moves).sched) && Roomy(Play(t, moves))
    decreases |moves|
  {
    if moves != [] {
      MoveKeepsRoom(t, moves[0]);
      MoveKeepsSched(t, moves[0]);
      PlayKeepsRoom(MoveOn(t, moves[0]), moves[1..]);
    }
  }

  /** In every run, a stream that its caller stopped at a yield leaves room: after its release
      the others can go on to admit work whenever the intake is open. */
  lemma StoppingAtAYieldNeverStalls(
      sched: State, owner: nat, width: nat, source: seq<Submission>, moves: seq<Move>)
    requires Inv(sched) && LegalMoves(Start(sched, owner, width, source), moves)
    requires Play(Start(sched, owner, width, source), moves).phase.ClosedByCaller?
    ensures var s := Play(Start(sched, owner, width, source), moves).sched;
            && InFlight(s, OwnedBy(owner)) < s.capacity
            && (CanRecover(Next(s, ReleaseOwned(OwnedBy(owner))), owner) <==> !s.intakeClosed)
  {
    var t0 := Start(sched, owner, width, source);
    PlayKeepsRoom(t0, moves);
    PlayKeepsIdentity(t0, moves);
    OthersGoOnExactlyWhenInFlightWorkLeavesRoom(Play(t0, moves).sched, owner);
  }

  // ---------- leaving from the wait ----------

  /** Some run leads from one stream state to another. */
  ghost predicate Leads(t: Stream, u: Stream) {
    exists moves :: LegalMoves(t, moves) && Play(t, moves) == u
  }

  lemma LeadsNowhere(t: Stream)
    ensures Leads(t, t)
  {
    var moves: seq<Move> := [];
    assert LegalMoves(t, moves) && Play(t, moves) == t;
  }

  lemma LeadsOn(t: Stream, move: Move, u: Stream)
    requires CanMove(t, move) && Leads(MoveOn(t, move), u)
    ensures Leads(t, u)
  {
    var moves :| LegalMoves(MoveOn(t, move), moves) && Play(MoveOn(t, move), moves) == u;
    var longer := [move] + moves;
    assert longer[0] == move && longer[1..] == moves;
    assert LegalMoves(t, longer) && Play(t, longer) == u;
  }

  /** At the top of its loop, running, with nothing to take and nothing exhausted. */
  predicate AtTop(t: Stream) {
    t.phase.Top? && t.pool.PoolRunning? && t.sched.ready == [] && !t.sched.broken && !t.exhausted
  }

  lemma ToOffering(t: Stream, u: Stream)
    requires AtTop(t) && Leads(t.(phase := Offering), u)
    ensures Leads(t, u)
  {
    var taking, checking := t.(phase := Taking), t.(phase := Checking);
    assert MoveOn(checking, Drive(true)) == t.(phase := Offering);
    LeadsOn(checking, Drive(true), u);
    assert TakeOf(t.sched, Me(t)) == Nothing;
    assert MoveOn(taking, Drive(true)) == checking;
    LeadsOn(taking, Drive(true), u);
    assert MoveOn(t, Drive(true)) == taking;
    LeadsOn(t, Drive(true), u);
  }

  lemma ToCollecting(t: Stream, u: Stream)
    requires AtTop(t) && t.carried.None? && Leads(t.(phase := Collecting), u)
    ensures Leads(t, u)
  {
    var offering := t.(phase := Offering);
    assert MoveOn(offering, Drive(true)) == t.(phase := Collecting);
    LeadsOn(offering, Drive(true), u);
    ToOffering(t, u);
  }

  /** With nothing carried and no answer in, the loop reaches its wait, asking for a submission
      when there is room for one. */
  lemma ToWaiting(t: Stream, u: Stream)
    requires AtTop(t) && t.carried.None? && t.feed.pull.NoPull?
    requires Leads(MaybePull(t, Waiting), u)
    ensures Leads(t, u)
  {
    var collecting, starting := t.(phase := Collecting), t.(phase := Starting);
    assert MoveOn(starting, Drive(true)) == MaybePull(t, Waiting);
    LeadsOn(starting, Drive(true), u);
    assert MoveOn(collecting, Drive(true)) == starting;
    LeadsOn(collecting, Drive(true), u);
    ToCollecting(t, u);
  }

  lemma ToCarrying(t: Stream, submission: Submission, u: Stream)
    requires AtTop(t) && t.carried.None? && t.feed.pull == Pulled(Some(submission))
    requires Leads(t.(carried := Some(submission), feed := t.feed.(pull := NoPull)), u)
    ensures Leads(t, u)
  {
    var collecting := t.(phase := Collecting);
    assert MoveOn(collecting, Drive(true)) == t.(carried := Some(submission), feed := t.feed.(pull := NoPull));
    LeadsOn(collecting, Drive(true), u);
    ToCollecting(t, u);
  }

  lemma ToAnswered(t: Stream, u: Stream)
    requires t.phase.Waiting? && t.feed.pull.Gated? && t.feed.permits > 0 && !t.feed.done
    requires t.feed.pulled < |t.feed.source|
    requires Leads(t.(feed := Answer(PassGate(t.feed)), phase := Top), u)
    ensures Leads(t, u)
  {
    var asking := t.(feed := PassGate(t.feed));
    var answered := asking.(feed := Answer(asking.feed));
    assert MoveOn(answered, Drive(true)) == answered.(phase := Top);
    LeadsOn(answered, Drive(true), u);
    assert MoveOn(asking, SourceAnswers) == answered;
    LeadsOn(asking, SourceAnswers, u);
    assert MoveOn(t, GateOpens) == asking;
    LeadsOn(t, GateOpens, u);
  }

  /** The scheduler of one slot with one job of the stream queued. */
  function Occupied(submission: Submission): State {
    Next(Init(1), Admit(submission.job, Owned(0, submission.value), true))
  }

  lemma OccupiedIs(submission: Submission)
    ensures Occupied(submission) == Enqueued(Init(1), submission.job, Owned(0, submission.value)).(workers := 1)
    ensures AdmissionOf(Init(1), submission.job, Owned(0, submission.value), true) == Admitted
  {
  }

  lemma OccupiedHolds(submission: Submission)
    ensures Inv(Occupied(submission))
  {
    AdmitKeeps(Init(1), submission.job, Owned(0, submission.value), true);
  }

  lemma OccupiedFacts(submission: Submission)
    ensures var s := Occupied(submission);
            && s.pending == [Item(0, submission.job, Owned(0, submission.value))]
            && s.ready == [] && !s.broken && !s.intakeClosed && s.residents == 1 && s.capacity == 1
            && s.active == [] && s.lost == []
    ensures AdmissionOf(Init(1), submission.job, Owned(0, submission.value), true) == Admitted
  {
    OccupiedIs(submission);
  }

  function Feeding(source: seq<Submission>, pulled: nat, asked: nat, permits: int, pull: Pull): Feed {
    Feed(source, 1, pulled, asked, permits, 0, false, pull)
  }

  /** The stream with its one job in flight, cancelled in its wait. */
  function Cancelled(submission: Submission): Stream {
    Stream(Occupied(submission), PoolRunning, 0, Feeding([submission], 1, 1, 0, NoPull),
           false, None, 1, Abandoned, [], false, false)
  }

  lemma FromAdmittedToCancelled(submission: Submission)
    ensures Leads(Cancelled(submission).(phase := Top), Cancelled(submission))
  {
    OccupiedFacts(submission);
    var u := Cancelled(submission);
    var waiting := u.(phase := Waiting);
    LeadsNowhere(u);
    assert MoveOn(waiting, WaitCancelled) == u;
    LeadsOn(waiting, WaitCancelled, u);
    assert MaybePull(u.(phase := Top), Waiting) == waiting;
    ToWaiting(u.(phase := Top), u);
  }

  lemma FromCarriedToCancelled(submission: Submission)
    ensures Leads(Stream(Init(1), PoolRunning, 0, Feeding([submission], 1, 1, 0, NoPull),
                         false, Some(submission), 0, Top, [], false, false), Cancelled(submission))
  {
    OccupiedFacts(submission);
    var u := Cancelled(submission);
    var carrying := Stream(Init(1), PoolRunning, 0, Feeding([submission], 1, 1, 0, NoPull),
                           false, Some(submission), 0, Top, [], false, false);
    FromAdmittedToCancelled(submission);
    assert MoveOn(carrying.(phase := Offering), Drive(true)) == u.(phase := Top);
    LeadsOn(carrying.(phase := Offering), Drive(true), u);
    ToOffering(carrying, u);
  }

  lemma FromStartToCancelled(submission: Submission)
    ensures Leads(Start(Init(1), 0, 1, [submission]), Cancelled(submission))
  {
    OccupiedFacts(submission);
    var t, u := Start(Init(1), 0, 1, [submission]), Cancelled(submission);
    var answered := t.(feed := Feeding([submission], 1, 1, 0, Pulled(Some(submission))));
    FromCarriedToCancelled(submission);
    ToCarrying(answered, submission, u);
    var gated := t.(phase := Waiting, feed := Feeding([submission], 0, 0, 1, Gated));
    assert Answer(PassGate(gated.feed)) == answered.feed;
    ToAnswered(gated, u);
    assert MaybePull(t, Waiting) == gated;
    ToWaiting(t, u);
  }

  /** A stream cancelled in its wait can stall the pool for good: one slot, one submission, and a
      run of the stream itself that ends in its wait with the job still queued. */
  lemma CancelledWaitCanStall(submission: Submission)
    ensures var u := Cancelled(submission);
            && Leads(Start(Init(1), 0, 1, [submission]), u)
            && u.phase.Abandoned? && !u.sched.intakeClosed
            && !CanRecover(Next(u.sched, ReleaseOwned(OwnedBy(0))), 0)
  {
    OccupiedFacts(submission);
    OccupiedHolds(submission);
    FromStartToCancelled(submission);
    var s := Occupied(submission);
    assert Select(s.pending, OwnedBy(0)) == s.pending;
    OthersGoOnExactlyWhenInFlightWorkLeavesRoom(s, 0);
  }
}
