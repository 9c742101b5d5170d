/** A healthy map stream can always get to its normal end: from every state of every run in which
    the pool runs and nothing has broken, its own moves, the workers, the gate, the source and
    other drivers taking what is theirs lead to a return, with everything delivered. */
module StreamProgress {
  import opened Basics
  import opened SchedulerModel
  import opened SchedulerProofs
  import opened MapStream
  import opened Orphans
  import opened Departures

  predicate InLoop(phase: Phase) {
    || phase.Top? || phase.Taking? || phase.Took? || phase.Yielded? || phase.Handed?
    || phase.Checking? || phase.Offering? || phase.Collecting? || phase.Starting? || phase.Waiting?
  }

  // ---------- the books of the gate ----------

  /** Each question but an open one was answered with a submission, until the source ends; each
      delivery but one under way gave its permit back. */
  ghost predicate GateBooks(t: Stream) {
    && (!t.feed.done ==> t.feed.asked == t.feed.pulled + (if t.feed.pull.Asking? then 1 else 0))
    && t.feed.released == |t.delivered| - (if t.phase.Took? || t.phase.Yielded? then 1 else 0)
  }

  lemma CollectBooks(t: Stream)
    requires GateBooks(t) && t.phase.Collecting?
    ensures GateBooks(Collect(t))
  {
    assert Collect(t).delivered == t.delivered && Collect(t).feed.released == t.feed.released;
  }

  lemma OfferBooks(t: Stream, starts: bool)
    requires GateBooks(t) && t.phase.Offering?
    ensures GateBooks(Offer(t, starts))
  {
    assert Offer(t, starts).delivered == t.delivered && Offer(t, starts).feed == t.feed;
  }

  lemma TakeBooks(t: Stream)
    requires GateBooks(t) && t.phase.Taking?
    ensures GateBooks(TryTake(t))
  {
  }

  lemma DriveBooks(t: Stream, starts: bool)
    requires GateBooks(t)
    ensures GateBooks(DriveOn(t, starts))
  {
    if t.phase.Taking? {
      TakeBooks(t);
    } else if t.phase.Offering? {
      OfferBooks(t, starts);
    } else if t.phase.Collecting? {
      CollectBooks(t);
    }
  }

  lemma MoveBooks(t: Stream, move: Move)
    requires GateBooks(t) && CanMove(t, move)
    ensures GateBooks(MoveOn(t, move))
  {
    if move.Drive? {
      DriveBooks(t, move.starts);
    }
  }

  // ---------- healthy states ----------

  ghost predicate Kept(t: Stream) {
    Inv(t.sched) && StreamInv(t) && GateInv(t) && GateBooks(t)
  }

  lemma MoveKeeps(t: Stream, move: Move)
    requires Kept(t) && CanMove(t, move)
    ensures Kept(MoveOn(t, move))
  {
    assert Inv(MoveOn(t, move).sched) by { MoveKeepsSched(t, move); }
    assert StreamInv(MoveOn(t, move)) by { MoveKeepsStream(t, move); }
    assert GateInv(MoveOn(t, move)) by { GateStep(t, move); }
    assert GateBooks(MoveOn(t, move)) by { MoveBooks(t, move); }
  }

  lemma {:induction false} PlayKeepsAll(t: Stream, moves: seq<Move>)
    requires Kept(t) && LegalMoves(t, moves)
    ensures Kept(Play(t, moves))
    decreases |moves|
  {
    if moves != [] {
      MoveKeeps(t, moves[0]);
      PlayKeepsAll(MoveOn(t, moves[0]), moves[1..]);
    }
  }

  /** The pool runs, the scheduler takes work, and the stream is in its loop. */
  predicate Running(t: Stream) {
    && t.pool.PoolRunning? && !t.sched.broken && !t.sched.intakeClosed && InLoop(t.phase)
    && t.feed.width >= 1 && t.sched.capacity >= 1
  }

  /** The normal end is within reach, in a pool that still runs. */
  ghost predicate CanReturn(t: Stream) {
    exists u :: Leads(t, u) && u.phase.Returned? && u.pool.PoolRunning?
  }

  lemma ReturnLater(t: Stream, move: Move)
    requires CanMove(t, move) && CanReturn(MoveOn(t, move))
    ensures CanReturn(t)
  {
    var u :| Leads(MoveOn(t, move), u) && u.phase.Returned? && u.pool.PoolRunning?;
    LeadsOn(t, move, u);
  }

  lemma DriveLater(t: Stream)
    requires !t.phase.Gone? && CanReturn(DriveOn(t, true))
    ensures CanReturn(t)
  {
    ReturnLater(t, Drive(true));
  }

  lemma ReturnNow(t: Stream)
    requires t.phase.Returned? && t.pool.PoolRunning?
    ensures CanReturn(t)
  {
    LeadsNowhere(t);
  }

  // ---------- what a drive does to a running stream ----------

  lemma HiringNeverBreaks(s: State, job: Job, context: Context)
    requires !s.broken && !s.intakeClosed
    ensures var n := Next(s, Admit(job, context, true));
            !n.broken && !n.intakeClosed && n.capacity == s.capacity
    ensures AdmissionOf(s, job, context, true) == if s.residents < s.capacity then Admitted else NoRoom
  {
  }

  lemma TakeStaysRunning(t: Stream)
    requires Running(t) && t.phase.Taking?
    ensures Running(TryTake(t))
  {
  }

  lemma OfferStaysRunning(t: Stream)
    requires Running(t) && t.phase.Offering?
    ensures Running(Offer(t, true))
  {
    if t.carried.Some? {
      HiringNeverBreaks(t.sched, t.carried.value.job, Owned(t.owner, t.carried.value.value));
    }
  }

  lemma CollectStaysRunning(t: Stream)
    requires Running(t) && t.phase.Collecting?
    ensures Running(Collect(t))
  {
  }

  lemma DriveStaysRunning(t: Stream)
    requires Running(t)
    ensures Running(DriveOn(t, true)) || DriveOn(t, true).phase.Returned?
  {
    match t.phase
    case Taking => TakeStaysRunning(t);
    case Offering => OfferStaysRunning(t);
    case Collecting => CollectStaysRunning(t);
    case _ =>
  }

  // ---------- the measure ----------

  /** Steps the source's submissions still have to go, at the top of the loop. */
  function Ahead(t: Stream): int {
    5 * (|t.feed.source| - t.feed.pulled)
    + (if t.exhausted then 0
       else if t.carried.Some? then 5
       else match t.feed.pull
         case NoPull => 4
         case Gated => 3
         case Asking => 2
         case Pulled(submission) => if submission.Some? then 6 else 1)
  }

  lemma AheadIsNatural(t: Stream)
    requires Kept(t)
    ensures Ahead(t) >= 0
  {
  }

  /** Less to do, in the order: submissions, work of the workers, buffered completions. */
  predicate Less(u: Stream, t: Stream) {
    || Ahead(u) < Ahead(t)
    || (Ahead(u) == Ahead(t) && Measure(u.sched) < Measure(t.sched))
    || (Ahead(u) == Ahead(t) && Measure(u.sched) == Measure(t.sched) && |u.sched.ready| < |t.sched.ready|)
  }

  /** One way to get on from the top of the loop. */
  ghost predicate GetsOn(t: Stream) {
    CanReturn(t) || exists u :: Onward(t, u)
  }

  ghost predicate Onward(t: Stream, u: Stream) {
    Leads(t, u) && Kept(u) && Running(u) && u.phase.Top? && Less(u, t)
  }

  lemma OneMove(t: Stream, move: Move)
    requires CanMove(t, move) && Kept(t) && Running(MoveOn(t, move)) && MoveOn(t, move).phase.Top?
    requires Less(MoveOn(t, move), t)
    ensures GetsOn(t)
  {
    var u := MoveOn(t, move);
    MoveKeeps(t, move);
    LeadsNowhere(u);
    LeadsOn(t, move, u);
    assert Onward(t, u);
  }

  // ---------- the workers, the other drivers, the gate and the source ----------

  lemma WorkersGetOn(t: Stream)
    requires Kept(t) && Running(t) && t.phase.Top? && (t.sched.pending != [] || t.sched.active != [])
    ensures GetsOn(t)
  {
    var step := if t.sched.active != [] then FinishOk(0) else WorkerTake;
    assert Enabled(t.sched, step);
    assert Measure(Next(t.sched, step)) < Measure(t.sched);
    OneMove(t, Elsewhere(step));
  }

  lemma TakingShortensTheQueue(s: State, i: nat)
    requires i < |s.ready|
    ensures var n := Next(s, TakeReady(TakerOf(s.ready[i].context)));
            && |n.ready| == |s.ready| - 1 && n.pending == s.pending && n.active == s.active
            && n.broken == s.broken && n.intakeClosed == s.intakeClosed && n.capacity == s.capacity
  {
    assert Claims(TakerOf(s.ready[i].context), s.ready[i].context);
  }

  lemma OthersGetOn(t: Stream)
    requires Kept(t) && Running(t) && t.phase.Top?
    requires t.sched.pending == [] && t.sched.active == [] && t.sched.ready != []
    requires Select(t.sched.ready, Me(t)) == []
    ensures GetsOn(t)
  {
    var i := SomeoneElses(t.sched.ready, Me(t));
    var step := TakeReady(TakerOf(t.sched.ready[i].context));
    TakingShortensTheQueue(t.sched, i);
    OneMove(t, Elsewhere(step));
  }

  lemma SourceGetsOn(t: Stream)
    requires Kept(t) && Running(t) && t.phase.Top? && !t.exhausted && t.carried.None?
    requires t.feed.pull.Asking? || (t.feed.pull.Gated? && (t.feed.done || t.feed.permits > 0))
    ensures GetsOn(t)
  {
    OneMove(t, if t.feed.pull.Asking? then SourceAnswers else GateOpens);
  }

  // ---------- the stream's own iterations ----------

  /** Kept so far, the stream can drive on to the top of its loop with less to do than `base`. */
  ghost predicate DrivesOn(t: Stream, base: Stream) {
    Kept(t) ==> exists u :: Leads(t, u) && Kept(u) && Running(u) && u.phase.Top? && Less(u, base)
  }

  lemma DrivenToTop(u: Stream, base: Stream)
    requires Running(u) && u.phase.Top? && Less(u, base)
    ensures DrivesOn(u, base)
  {
    LeadsNowhere(u);
  }

  lemma OneDrive(t: Stream, next: Stream, base: Stream)
    requires !t.phase.Gone? && next == MoveOn(t, Drive(true)) && DrivesOn(next, base)
    ensures DrivesOn(t, base)
  {
    if Kept(t) {
      MoveKeeps(t, Drive(true));
      var u :| Leads(next, u) && Kept(u) && Running(u) && u.phase.Top? && Less(u, base);
      LeadsOn(t, Drive(true), u);
    }
  }

  lemma FromTop(t: Stream, base: Stream)
    requires t.phase.Top? && t.pool.PoolRunning? && DrivesOn(t.(phase := Taking), base)
    ensures DrivesOn(t, base)
  {
    OneDrive(t, t.(phase := Taking), base);
  }

  lemma FromTaking(t: Stream, base: Stream)
    requires t.phase.Taking? && DrivesOn(TryTake(t), base)
    ensures DrivesOn(t, base)
  {
    OneDrive(t, TryTake(t), base);
  }

  lemma FromTook(t: Stream, base: Stream)
    requires t.phase.Took? && DrivesOn(MaybePull(t, Yielded), base)
    ensures DrivesOn(t, base)
  {
    OneDrive(t, MaybePull(t, Yielded), base);
  }

  lemma FromYielded(t: Stream, base: Stream)
    requires t.phase.Yielded? && DrivesOn(t.(feed := GiveBack(t.feed), phase := Handed), base)
    ensures DrivesOn(t, base)
  {
    OneDrive(t, t.(feed := GiveBack(t.feed), phase := Handed), base);
  }

  lemma FromHanded(t: Stream, base: Stream)
    requires t.phase.Handed? && DrivesOn(t.(phase := Top), base)
    ensures DrivesOn(t, base)
  {
    OneDrive(t, t.(phase := Top), base);
  }

  lemma FromChecking(t: Stream, base: Stream)
    requires t.phase.Checking? && (!t.exhausted || t.carried.Some?) && DrivesOn(t.(phase := Offering), base)
    ensures DrivesOn(t, base)
  {
    OneDrive(t, t.(phase := Offering), base);
  }

  lemma FromOffering(t: Stream, base: Stream)
    requires t.phase.Offering? && DrivesOn(Offer(t, true), base)
    ensures DrivesOn(t, base)
  {
    OneDrive(t, Offer(t, true), base);
  }

  lemma FromCollecting(t: Stream, base: Stream)
    requires t.phase.Collecting? && DrivesOn(Collect(t), base)
    ensures DrivesOn(t, base)
  {
    OneDrive(t, Collect(t), base);
  }

  lemma FromStarting(t: Stream, base: Stream)
    requires t.phase.Starting? && DrivesOn(MaybePull(t, Waiting), base)
    ensures DrivesOn(t, base)
  {
    OneDrive(t, MaybePull(t, Waiting), base);
  }

  lemma FromWaiting(t: Stream, base: Stream)
    requires t.phase.Waiting? && DrivesOn(t.(phase := Top), base)
    ensures DrivesOn(t, base)
  {
    OneDrive(t, t.(phase := Top), base);
  }

  lemma DrivenGetsOn(t: Stream)
    requires Kept(t) && DrivesOn(t, t)
    ensures GetsOn(t)
  {
    var u :| Leads(t, u) && Kept(u) && Running(u) && u.phase.Top? && Less(u, t);
    assert Onward(t, u);
  }

  lemma DeliveryGetsOn(t: Stream)
    requires Kept(t) && Running(t) && t.phase.Top? && Select(t.sched.ready, Me(t)) != []
    ensures GetsOn(t)
  {
    TakeServesTheHead(t.sched, Me(t));
    var taking := t.(phase := Taking);
    var took := TryTake(taking);
    var yielded := MaybePull(took, Yielded);
    var handed := yielded.(feed := GiveBack(yielded.feed), phase := Handed);
    TakingDelivers(taking);
    DrivenToTop(handed.(phase := Top), t);
    FromHanded(handed, t);
    FromYielded(yielded, t);
    FromTook(took, t);
    FromTaking(taking, t);
    FromTop(t, t);
    DrivenGetsOn(t);
  }

  lemma TakingDelivers(t: Stream)
    requires Running(t) && t.phase.Taking? && TakeOf(t.sched, Me(t)).Got?
    ensures var u := TryTake(t);
            && u.phase.Took? && Running(u) && Ahead(u) == Ahead(t)
            && Measure(u.sched) == Measure(t.sched) && |u.sched.ready| == |t.sched.ready| - 1
            && u.feed == t.feed && u.exhausted == t.exhausted && u.carried == t.carried
  {
  }

  /** Nothing is queued, running or buffered. */
  predicate Empty(s: State) {
    s.pending == [] && s.active == [] && s.ready == []
  }

  lemma ToChecking(t: Stream, base: Stream)
    requires Running(t) && t.phase.Top? && t.sched.ready == [] && DrivesOn(t.(phase := Checking), base)
    ensures DrivesOn(t, base)
  {
    var taking := t.(phase := Taking);
    assert TakeOf(t.sched, Me(t)) == Nothing;
    assert TryTake(taking) == t.(phase := Checking);
    FromTaking(taking, base);
    FromTop(t, base);
  }

  lemma SubmissionGetsOn(t: Stream)
    requires Kept(t) && Running(t) && t.phase.Top? && Empty(t.sched) && t.carried.Some?
    ensures GetsOn(t)
  {
    var checking, offering := t.(phase := Checking), t.(phase := Offering);
    var u := Offer(offering, true);
    HiringNeverBreaks(t.sched, t.carried.value.job, Owned(t.owner, t.carried.value.value));
    assert t.sched.residents == 0;
    DrivenToTop(u, t);
    FromOffering(offering, t);
    FromChecking(checking, t);
    ToChecking(t, t);
    DrivenGetsOn(t);
  }

  lemma ToItsPull(t: Stream, base: Stream)
    requires Running(t) && t.phase.Top? && t.sched.ready == [] && !t.exhausted && t.carried.None?
    requires DrivesOn(t.(phase := Collecting), base)
    ensures DrivesOn(t, base)
  {
    var checking, offering := t.(phase := Checking), t.(phase := Offering);
    assert Offer(offering, true) == t.(phase := Collecting);
    FromOffering(offering, base);
    FromChecking(checking, base);
    ToChecking(t, base);
  }

  lemma CollectingGetsOn(t: Stream)
    requires Kept(t) && Running(t) && t.phase.Top? && Empty(t.sched)
    requires !t.exhausted && t.carried.None? && t.feed.pull.Pulled?
    ensures GetsOn(t)
  {
    var collecting := t.(phase := Collecting);
    DrivenToTop(Collect(collecting), t);
    FromCollecting(collecting, t);
    ToItsPull(t, t);
    DrivenGetsOn(t);
  }

  lemma PullingGetsOn(t: Stream)
    requires Kept(t) && Running(t) && t.phase.Top? && Empty(t.sched)
    requires !t.exhausted && t.carried.None? && t.feed.pull.NoPull?
    ensures GetsOn(t)
  {
    var collecting, starting := t.(phase := Collecting), t.(phase := Starting);
    var waiting := t.(feed := t.feed.(pull := Gated), phase := Waiting);
    assert t.sched.residents == 0;
    DrivenToTop(waiting.(phase := Top), t);
    FromWaiting(waiting, t);
    assert MaybePull(starting, Waiting) == waiting;
    FromStarting(starting, t);
    assert Collect(collecting) == starting;
    FromCollecting(collecting, t);
    ToItsPull(t, t);
    DrivenGetsOn(t);
  }

  // ---------- an empty scheduler leaves nothing outstanding ----------

  lemma SameSelection(a: seq<Item>, b: seq<Item>, claim: Claim)
    requires multiset(a) == multiset(b)
    ensures |Select(a, claim)| == |Select(b, claim)|
  {
    forall x ensures multiset(Select(a, claim))[x] == multiset(Select(b, claim))[x] {
      SelectCount(a, claim, x);
      SelectCount(b, claim, x);
    }
    assert multiset(Select(a, claim)) == multiset(Select(b, claim));
    assert |multiset(Select(a, claim))| == |multiset(Select(b, claim))|;
  }

  lemma EmptyMeansNothingOutstanding(t: Stream)
    requires Kept(t) && Running(t) && Empty(t.sched)
    ensures t.outstanding == 0
  {
    assert multiset(t.sched.log) == multiset(ItemsOf(t.sched.departed));
    SameSelection(t.sched.log, ItemsOf(t.sched.departed), Me(t));
  }

  /** With nothing outstanding the gate has a permit to give. */
  lemma IdleGateIsOpen(t: Stream)
    requires Kept(t) && Running(t) && t.phase.Top? && Empty(t.sched)
    requires t.carried.None? && t.feed.pull.Gated? && !t.feed.done
    ensures t.feed.permits > 0
  {
    EmptyMeansNothingOutstanding(t);
    assert |SubmissionsOf(Own(t)) + InHand(t)| == t.feed.pulled;
    assert |SubmissionsOf(Own(t))| == |Own(t)| && InHand(t) == [];
  }

  lemma ExhaustedReturns(t: Stream)
    requires Kept(t) && Running(t) && t.phase.Top? && Empty(t.sched) && t.exhausted
    ensures CanReturn(t)
  {
    EmptyMeansNothingOutstanding(t);
    var taking, checking, u := t.(phase := Taking), t.(phase := Checking), t.(phase := Returned);
    ReturnNow(u);
    assert DriveOn(checking, true) == u;
    DriveLater(checking);
    assert TakeOf(t.sched, Me(t)) == Nothing && DriveOn(taking, true) == checking;
    DriveLater(taking);
    assert DriveOn(t, true) == taking;
    DriveLater(t);
  }

  lemma TopGetsOn(t: Stream)
    requires Kept(t) && Running(t) && t.phase.Top?
    ensures GetsOn(t)
  {
    if t.sched.pending != [] || t.sched.active != [] {
      WorkersGetOn(t);
    } else if Select(t.sched.ready, Me(t)) != [] {
      DeliveryGetsOn(t);
    } else if t.sched.ready != [] {
      OthersGetOn(t);
    } else if t.exhausted {
      ExhaustedReturns(t);
    } else if t.carried.Some? {
      SubmissionGetsOn(t);
    } else if t.feed.pull.NoPull? {
      PullingGetsOn(t);
    } else if t.feed.pull.Pulled? {
      CollectingGetsOn(t);
    } else {
      if t.feed.pull.Gated? && !t.feed.done {
        IdleGateIsOpen(t);
      }
      SourceGetsOn(t);
    }
  }

  // ---------- the result ----------

  lemma ReturnThrough(t: Stream, u: Stream)
    requires Leads(t, u) && CanReturn(u)
    ensures CanReturn(t)
  {
    var moves :| LegalMoves(t, moves) && Play(t, moves) == u;
    ReturnAfter(t, moves);
  }

  lemma {:induction false} ReturnAfter(t: Stream, moves: seq<Move>)
    requires LegalMoves(t, moves) && CanReturn(Play(t, moves))
    ensures CanReturn(t)
    decreases |moves|
  {
    if moves != [] {
      ReturnAfter(MoveOn(t, moves[0]), moves[1..]);
      ReturnLater(t, moves[0]);
    }
  }

  lemma {:induction false} TopReturns(t: Stream)
    requires Kept(t) && Running(t) && t.phase.Top?
    ensures CanReturn(t)
    decreases Ahead(t), Measure(t.sched), |t.sched.ready|
  {
    TopGetsOn(t);
    if !CanReturn(t) {
      var u :| Onward(t, u);
      AheadIsNatural(u);
      AheadIsNatural(t);
      TopReturns(u);
      ReturnThrough(t, u);
    }
  }

  /** Drives left to the top of the loop. */
  function ToTop(phase: Phase): nat {
    match phase
    case Taking => 7
    case Took => 3
    case Yielded => 2
    case Checking => 5
    case Offering => 4
    case Collecting => 3
    case Starting => 2
    case Handed => 1
    case Waiting => 1
    case _ => 0
  }

  lemma {:induction false} LoopReturns(t: Stream)
    requires Kept(t) && Running(t)
    ensures CanReturn(t)
    decreases ToTop(t.phase)
  {
    if t.phase.Top? {
      TopReturns(t);
    } else {
      var n := DriveOn(t, true);
      DriveStaysRunning(t);
      MoveKeeps(t, Drive(true));
      if n.phase.Returned? {
        assert n.pool.PoolRunning?;
        ReturnNow(n);
      } else {
        DriveDescends(t);
        LoopReturns(n);
      }
      DriveLater(t);
    }
  }

  lemma DriveDescends(t: Stream)
    requires Running(t) && !t.phase.Top?
    ensures ToTop(DriveOn(t, true).phase) < ToTop(t.phase)
  {
  }

  /** From every state of every run of a stream in which the pool runs and takes work, a normal end
      is within reach; it then has delivered every submission exactly once. */
  lemma AStreamCanAlwaysReturn(
      sched: State, owner: nat, width: nat, source: seq<Submission>, moves: seq<Move>)
    requires FreshOwner(sched, owner) && LegalMoves(Start(sched, owner, width, source), moves)
    requires Running(Play(Start(sched, owner, width, source), moves))
    ensures CanReturn(Play(Start(sched, owner, width, source), moves))
  {
    var t0 := Start(sched, owner, width, source);
    assert SubmissionsOf([]) + [] == [];
    assert Kept(t0);
    PlayKeepsAll(t0, moves);
    LoopReturns(Play(t0, moves));
  }
}
