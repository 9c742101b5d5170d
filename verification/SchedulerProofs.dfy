/** What every run of the scheduler keeps, for every interleaving of drivers,
    worker threads, the deadline watcher and the closer. */
module SchedulerProofs {
  import opened Basics
  import opened SchedulerModel

  // ---------- each step keeps the invariant ----------

  /** Removing `gone` from the live items removes exactly its tickets from the token keys. */
  lemma TokensAfterLeaving(s: State, rest: seq<Item>, gone: seq<Item>)
    requires Inv(s)
    requires multiset(Live(s)) == multiset(rest) + multiset(gone)
    ensures TicketsOf(Live(s)) - TicketsOf(gone) == TicketsOf(rest)
  {
    assert multiset(Live(s)) == multiset(s.pending) + multiset(s.active) + multiset(s.ready);
    TicketsApart(s.log, rest, gone);
    TicketsOfMultiset(Live(s), rest + gone);
    TicketsOfConcat(rest, gone);
  }

  lemma LiveTicketsBelowNext(s: State)
    requires Inv(s)
    ensures forall t :: t in TicketsOf(Live(s)) ==> t < s.nextTicket
  {
    forall x | x in Live(s) ensures x.ticket < s.nextTicket {
      assert x in multiset(Live(s));
      assert multiset(Live(s)) == multiset(s.pending) + multiset(s.active) + multiset(s.ready);
      assert x in multiset(s.log);
      assert x in s.log;
    }
  }

  /** A break loses exactly the queued work and keeps everything else. */
  lemma BreakKeeps(s: State)
    requires Conserved(s) && !s.discarded
    requires s.running == |s.active| && s.residents == |Live(s)| + |s.lost| && s.tokens == TicketsOf(Live(s))
    ensures var b := Break(s);
            && Conserved(b)
            && b.residents == |Live(b)| + |b.lost|
            && b.tokens == TicketsOf(Live(b))
  {
    if !s.broken {
      var b := Break(s);
      var kept := s.active + s.ready;
      assert Live(s) == s.pending + kept;
      assert Live(b) == kept;
      TicketsApart(s.log, s.pending, kept);
      TicketsOfConcat(s.pending, kept);
    }
  }

  lemma EnqueueLives(s: State, job: Job, context: Context)
    ensures var e := Enqueued(s, job, context);
            && TicketsOf(Live(e)) == TicketsOf(Live(s)) + {s.nextTicket}
            && |Live(e)| == |Live(s)| + 1
  {
    var e := Enqueued(s, job, context);
    var item := Item(s.nextTicket, job, context);
    assert multiset(Live(e)) == multiset(Live(s) + [item]);
    TicketsOfMultiset(Live(e), Live(s) + [item]);
    TicketsOfConcat(Live(s), [item]);
    assert TicketsOf([item]) == {item.ticket};
  }

  lemma EnqueueKeeps(s: State, job: Job, context: Context)
    requires Inv(s) && CanAdmit(s)
    ensures var e := Enqueued(s, job, context);
            && Conserved(e) && !e.discarded
            && e.running == |e.active|
            && e.residents == |Live(e)| + |e.lost|
            && e.tokens == TicketsOf(Live(e))
            && TicketsOf(Live(e)) == TicketsOf(Live(s)) + {s.nextTicket}
            && (forall t :: t in TicketsOf(Live(e)) ==> t < e.nextTicket)
  {
    LiveTicketsBelowNext(s);
    EnqueueLives(s, job, context);
  }

  lemma AdmitWithWorkerKeeps(s: State, job: Job, context: Context, workers: nat)
    requires Inv(s) && CanAdmit(s)
    requires s.running + |s.pending| < workers <= s.capacity && s.workers <= workers
    ensures Inv(Enqueued(s, job, context).(workers := workers))
  {
    EnqueueKeeps(s, job, context);
    assert Live(Enqueued(s, job, context).(workers := workers)) == Live(Enqueued(s, job, context));
  }

  lemma AdmitWithoutWorkerKeeps(s: State, job: Job, context: Context)
    requires Inv(s) && CanAdmit(s)
    ensures Inv(Break(Enqueued(s, job, context)))
  {
    var e := Enqueued(s, job, context);
    EnqueueKeeps(s, job, context);
    BreakKeeps(e);
    assert Flagged(Break(e)) by { BreakFlags(s, e); }
  }

  /** What a break from a healthy state does to the flags and tokens. */
  lemma BreakFlags(s: State, e: State)
    requires Flagged(s) && !s.broken && !e.broken
    requires s.nextTicket <= e.nextTicket && e.expired == s.expired && e.aborted == s.aborted
    requires s.cancelled <= e.cancelled && forall t :: t in e.cancelled ==> t < e.nextTicket
    requires forall t :: t in TicketsOf(Live(e)) ==> t < e.nextTicket
    requires e.expired ==> TicketsOf(Live(e)) <= e.cancelled
    requires e.pending != [] || e.lost != []
    ensures Flagged(Break(e))
  {
    TicketsOfConcat(e.pending, e.active + e.ready);
    assert Live(e) == e.pending + (e.active + e.ready);
    assert Live(Break(e)) == e.active + e.ready;
  }

  lemma AdmitKeeps(s: State, job: Job, context: Context, starts: bool)
    requires Inv(s)
    ensures Inv(Next(s, Admit(job, context, starts)))
  {
    if CanAdmit(s) {
      var e := Enqueued(s, job, context);
      // the capacity guard of _ensure_worker never refuses a needed worker
      assert s.running + |s.pending| <= s.residents < s.capacity;
      if e.workers - e.running >= |e.pending| {
        AdmitWithWorkerKeeps(s, job, context, s.workers);
      } else if starts {
        AdmitWithWorkerKeeps(s, job, context, s.workers + 1);
      } else {
        AdmitWithoutWorkerKeeps(s, job, context);
      }
    }
  }

  lemma TakeConserves(s: State, claim: Claim)
    requires Inv(s) && FirstClaimed(s.ready, claim) < |s.ready|
    ensures var n := Next(s, TakeReady(claim));
            var x := s.ready[FirstClaimed(s.ready, claim)];
            && Conserved(n)
            && multiset(Live(s)) == multiset(Live(n)) + multiset([x])
            && |Live(s)| == |Live(n)| + 1
  {
    var i := FirstClaimed(s.ready, claim);
    var x := s.ready[i];
    assert multiset(s.ready) == multiset([x]) + multiset(RemoveAt(s.ready, i)) by { RemoveAtMultiset(s.ready, i); }
    assert ItemsOf(s.departed + [Taken(claim, x)]) == ItemsOf(s.departed) + [x] by {
      ItemsOfConcat(s.departed, [Taken(claim, x)]);
      assert ItemsOf([Taken(claim, x)]) == [x];
    }
    MoveOut(s, Next(s, TakeReady(claim)), [x]);
  }

  /** Completions left the ready queue with their tokens and slots. */
  predicate LeftReady(s: State, n: State, gone: seq<Item>) {
    n == s.(ready := n.ready, departed := n.departed,
            tokens := s.tokens - TicketsOf(gone), residents := s.residents - |gone|)
  }

  lemma LeavingKeeps(s: State, n: State, gone: seq<Item>)
    requires Inv(s) && LeftReady(s, n, gone) && Conserved(n)
    requires multiset(Live(s)) == multiset(Live(n)) + multiset(gone) && |Live(s)| == |Live(n)| + |gone|
    requires s.ready == [] ==> n.ready == [] && gone == []
    ensures Inv(n)
  {
    TokensAfterLeaving(s, Live(n), gone);
  }

  lemma TakeLeaves(s: State, claim: Claim)
    requires FirstClaimed(s.ready, claim) < |s.ready|
    ensures LeftReady(s, Next(s, TakeReady(claim)), [s.ready[FirstClaimed(s.ready, claim)]])
  {
    var x := s.ready[FirstClaimed(s.ready, claim)];
    assert TicketsOf([x]) == {x.ticket};
  }

  lemma TakeKeeps(s: State, claim: Claim)
    requires Inv(s)
    ensures Inv(Next(s, TakeReady(claim)))
  {
    var i := FirstClaimed(s.ready, claim);
    if i < |s.ready| {
      TakeLeaves(s, claim);
      TakeConserves(s, claim);
      assert !s.discarded;
      LeavingKeeps(s, Next(s, TakeReady(claim)), [s.ready[i]]);
    }
  }

  lemma ReleaseConserves(s: State, claim: Claim)
    requires Inv(s) && claim != Anyone
    ensures var n := Next(s, ReleaseOwned(claim));
            && Conserved(n)
            && multiset(Live(s)) == multiset(Live(n)) + multiset(Select(s.ready, claim))
            && |Live(s)| == |Live(n)| + |Select(s.ready, claim)|
  {
    SelectRejectMultiset(s.ready, claim);
    DropItems(s.departed, Select(s.ready, claim));
    MoveOut(s, Next(s, ReleaseOwned(claim)), Select(s.ready, claim));
  }

  /** Moving `gone` from the ready queue to the departures keeps the books. */
  lemma MoveOut(s: State, n: State, gone: seq<Item>)
    requires Conserved(s)
    requires n.nextTicket == s.nextTicket && n.log == s.log && n.pending == s.pending
    requires n.active == s.active && n.lost == s.lost
    requires multiset(s.ready) == multiset(gone) + multiset(n.ready) && |s.ready| == |gone| + |n.ready|
    requires ItemsOf(n.departed) == ItemsOf(s.departed) + gone
    ensures Conserved(n)
    ensures multiset(Live(s)) == multiset(Live(n)) + multiset(gone)
    ensures |Live(s)| == |Live(n)| + |gone|
  {
    assert multiset(Live(s)) == multiset(s.pending) + multiset(s.active) + multiset(s.ready);
    assert multiset(Live(n)) == multiset(n.pending) + multiset(n.active) + multiset(n.ready);
  }

  lemma DropItems(departed: seq<Exit>, items: seq<Item>)
    ensures ItemsOf(departed + DropAll(items)) == ItemsOf(departed) + items
  {
    ItemsOfConcat(departed, DropAll(items));
    assert ItemsOf(DropAll(items)) == items;
  }

  lemma ReleaseLeaves(s: State, claim: Claim)
    requires claim != Anyone
    ensures LeftReady(s, Next(s, ReleaseOwned(claim)), Select(s.ready, claim))
    ensures s.ready == [] ==> Next(s, ReleaseOwned(claim)).ready == [] && Select(s.ready, claim) == []
  {
  }

  lemma ReleaseKeeps(s: State, claim: Claim)
    requires Inv(s) && claim != Anyone
    ensures Inv(Next(s, ReleaseOwned(claim)))
  {
    ReleaseLeaves(s, claim);
    ReleaseConserves(s, claim);
    LeavingKeeps(s, Next(s, ReleaseOwned(claim)), Select(s.ready, claim));
  }

  lemma WorkerTakeKeeps(s: State)
    requires Inv(s) && Enabled(s, WorkerTake)
    ensures Inv(Next(s, WorkerTake))
  {
    assert s.pending == [s.pending[0]] + s.pending[1..];
    Shuffled(s, Next(s, WorkerTake));
  }

  /** Moving live items between the live places keeps the books. */
  lemma Shuffled(s: State, n: State)
    requires Conserved(s)
    requires n.nextTicket == s.nextTicket && n.log == s.log && n.departed == s.departed && n.lost == s.lost
    requires multiset(n.pending) + multiset(n.active) + multiset(n.ready)
             == multiset(s.pending) + multiset(s.active) + multiset(s.ready)
    ensures Conserved(n)
    ensures TicketsOf(Live(n)) == TicketsOf(Live(s)) && |Live(n)| == |Live(s)|
  {
    assert multiset(Live(s)) == multiset(s.pending) + multiset(s.active) + multiset(s.ready);
    assert multiset(Live(n)) == multiset(n.pending) + multiset(n.active) + multiset(n.ready);
    TicketsOfMultiset(Live(n), Live(s));
    assert |multiset(Live(n))| == |multiset(Live(s))|;
  }

  lemma FinishOkKeeps(s: State, index: nat)
    requires Inv(s) && Enabled(s, FinishOk(index))
    ensures Inv(Next(s, FinishOk(index)))
  {
    RemoveAtMultiset(s.active, index);
    Shuffled(s, Next(s, FinishOk(index)));
  }

  /** Moving one item from the workers' hands to the lost keeps the books. */
  lemma LoseOne(s: State, n: State, item: Item)
    requires Conserved(s)
    requires n.nextTicket == s.nextTicket && n.log == s.log && n.departed == s.departed
    requires n.pending == s.pending && n.ready == s.ready && n.lost == s.lost + [item]
    requires multiset(s.active) == multiset(n.active) + multiset{item}
    ensures Conserved(n)
    ensures multiset(Live(s)) == multiset(Live(n)) + multiset([item])
    ensures |Live(s)| == |Live(n)| + 1
  {
    assert multiset(Live(s)) == multiset(s.pending) + multiset(s.active) + multiset(s.ready);
    assert multiset(Live(n)) == multiset(n.pending) + multiset(n.active) + multiset(n.ready);
    assert |multiset(s.active)| == |multiset(n.active)| + 1;
  }

  lemma FailedCounts(s: State, index: nat)
    requires Inv(s) && index < |s.active|
    ensures var f := Failed(s, index);
            && Conserved(f) && !f.discarded
            && f.running == |f.active| && f.residents == |Live(f)| + |f.lost|
            && f.tokens == TicketsOf(Live(f))
            && TicketsOf(Live(f)) <= TicketsOf(Live(s))
  {
    var item := s.active[index];
    var f := Failed(s, index);
    RemoveAtMultiset(s.active, index);
    LoseOne(s, f, item);
    assert TicketsOf([item]) == {item.ticket};
    TokensAfterLeaving(s, Live(f), [item]);
  }

  lemma FinishFailedKeeps(s: State, index: nat)
    requires Inv(s) && Enabled(s, FinishFailed(index))
    ensures Inv(Next(s, FinishFailed(index)))
  {
    var f := Failed(s, index);
    assert Next(s, FinishFailed(index)) == Break(f);
    FailedCounts(s, index);
    BreakKeeps(f);
    LiveTicketsBelowNext(s);
    if !s.broken {
      BreakFlags(s, f);
    }
  }

  lemma DiscardKeeps(s: State)
    requires Inv(s) && Enabled(s, Discard)
    ensures Inv(Next(s, Discard))
  {
    DropItems(s.departed, s.ready);
    assert Live(Next(s, Discard)) == [];
  }

  lemma CancelKeeps(s: State, step: Step)
    requires Inv(s) && (step == CancelAll || step == Expire)
    ensures Inv(Next(s, step))
  {
    LiveTicketsBelowNext(s);
    if s.discarded {
      assert Live(s) == [];
    }
  }

  /** When every started worker has been joined nothing is queued and nothing runs,
      so the `_pending.clear()` of `shutdown` drops nothing. */
  lemma ShutdownDropsNothing(s: State)
    requires Inv(s) && Enabled(s, ShutdownEnd)
    ensures s.pending == [] && s.active == [] && s.running == 0
    ensures Inv(Next(s, ShutdownEnd))
  {
    var n := Next(s, ShutdownEnd);
    assert n.pending == s.pending;
    assert Live(n) == Live(s);
  }

  lemma StepKeepsInv(s: State, step: Step)
    requires Inv(s) && Enabled(s, step)
    ensures Inv(Next(s, step))
  {
    match step
    case Admit(job, context, starts) => AdmitKeeps(s, job, context, starts);
    case TakeReady(claim) => TakeKeeps(s, claim);
    case ReleaseOwned(claim) => ReleaseKeeps(s, claim);
    case WorkerTake => WorkerTakeKeeps(s);
    case FinishOk(index) => FinishOkKeeps(s, index);
    case FinishFailed(index) => FinishFailedKeeps(s, index);
    case ShutdownEnd => ShutdownDropsNothing(s);
    case Discard => DiscardKeeps(s);
    case CancelAll => CancelKeeps(s, step);
    case Expire => CancelKeeps(s, step);
    case CloseIntake => assert Live(Next(s, step)) == Live(s);
    case WorkerExit => assert Live(Next(s, step)) == Live(s);
  }

  lemma {:induction false} RunKeepsInv(s: State, steps: seq<Step>)
    requires Inv(s) && Legal(s, steps)
    ensures Inv(Exec(s, steps))
    decreases |steps|
  {
    if steps != [] {
      StepKeepsInv(s, steps[0]);
      RunKeepsInv(Next(s, steps[0]), steps[1..]);
    }
  }

  /** The ticket law, for every run from an empty scheduler: the admitted items split
      exactly into pending, running, ready, departed and lost; the token keys are the
      live tickets; residents count live and lost work within capacity; work is lost
      exactly when the scheduler is broken; after expiry every live token is cancelled. */
  lemma TicketLaw(capacity: nat, steps: seq<Step>)
    requires Legal(Init(capacity), steps)
    ensures var s := Exec(Init(capacity), steps);
            && multiset(s.log) == multiset(s.pending) + multiset(s.active) + multiset(s.ready)
                                  + multiset(ItemsOf(s.departed)) + multiset(s.lost)
            && (forall k :: 0 <= k < |s.log| ==> multiset(s.log)[s.log[k]] == 1)
            && s.residents <= s.capacity
            && (!s.discarded ==>
                  && s.tokens == TicketsOf(s.pending) + TicketsOf(s.active) + TicketsOf(s.ready)
                  && s.residents == |s.pending| + |s.active| + |s.ready| + |s.lost|)
            && (s.broken <==> s.lost != [])
            && (s.expired ==> TicketsOf(Live(s)) <= s.cancelled)
  {
    RunKeepsInv(Init(capacity), steps);
    var s := Exec(Init(capacity), steps);
    forall k | 0 <= k < |s.log| ensures multiset(s.log)[s.log[k]] == 1 {
      OnceInLog(s.log, k);
    }
    TicketsOfConcat(s.pending, s.active);
    TicketsOfConcat(s.pending + s.active, s.ready);
  }

  /** The staffing law, for every run: never more workers than capacity; while healthy a
      worker for every queued and running item; a worker only leaves once nothing is queued. */
  lemma StaffingLaw(capacity: nat, steps: seq<Step>)
    requires Legal(Init(capacity), steps)
    ensures var s := Exec(Init(capacity), steps);
            && s.running == |s.active|
            && s.workers <= s.capacity
            && s.running + s.exited <= s.workers
            && (!s.broken ==> s.running + |s.pending| <= s.workers)
            && (s.exited > 0 ==> s.pending == [])
  {
    RunKeepsInv(Init(capacity), steps);
  }

  // ---------- cancellation is permanent and reaches later admissions ----------

  lemma StepNeverUncancels(s: State, step: Step)
    requires Enabled(s, step)
    ensures s.cancelled <= Next(s, step).cancelled
  {
    match step
    case Admit(job, context, starts) =>
    case FinishFailed(index) =>
    case _ =>
  }

  /** A ticket admitted after expiry is born cancelled. */
  lemma StepAfterExpiry(s: State, step: Step)
    requires Enabled(s, step) && s.expired
    ensures Next(s, step).expired
    ensures s.nextTicket <= Next(s, step).nextTicket <= s.nextTicket + 1
    ensures s.nextTicket < Next(s, step).nextTicket ==> s.nextTicket in Next(s, step).cancelled
  {
    match step
    case Admit(job, context, starts) =>
    case FinishFailed(index) =>
    case _ =>
  }

  lemma {:induction false} CancelledForGood(s: State, steps: seq<Step>)
    requires s.expired && Legal(s, steps)
    ensures s.cancelled <= Exec(s, steps).cancelled
    ensures forall t :: s.nextTicket <= t < Exec(s, steps).nextTicket ==> t in Exec(s, steps).cancelled
    decreases |steps|
  {
    if steps != [] {
      StepNeverUncancels(s, steps[0]);
      StepAfterExpiry(s, steps[0]);
      CancelledForGood(Next(s, steps[0]), steps[1..]);
    }
  }

  /** Once the deadline watcher has expired the scheduler, every ticket that is live now
      or admitted later in the run stays cancelled. */
  lemma ExpiryReachesEveryLaterTicket(s: State, steps: seq<Step>)
    requires Inv(s) && Legal(Next(s, Expire), steps)
    ensures var e := Exec(Next(s, Expire), steps);
            && s.cancelled <= e.cancelled
            && (!s.discarded ==> TicketsOf(Live(s)) <= e.cancelled)
            && (forall t :: s.nextTicket <= t < e.nextTicket ==> t in e.cancelled)
  {
    CancelledForGood(Next(s, Expire), steps);
  }

  // ---------- what is cancelled, and by what ----------

  lemma {:induction false} CancelledStays(s: State, steps: seq<Step>)
    requires Legal(s, steps)
    ensures s.cancelled <= Exec(s, steps).cancelled
    decreases |steps|
  {
    if steps != [] {
      StepNeverUncancels(s, steps[0]);
      CancelledStays(Next(s, steps[0]), steps[1..]);
    }
  }

  lemma LiveTickets(s: State)
    requires Inv(s) && !s.discarded
    ensures s.tokens == TicketsOf(s.pending) + TicketsOf(s.active) + TicketsOf(s.ready)
  {
    TicketsOfConcat(s.pending, s.active);
    TicketsOfConcat(s.pending + s.active, s.ready);
  }

  /** A cancel-all cancels exactly the queued, running and buffered tickets, for good, and moves
      nothing else. */
  lemma CancelAllReachesExactlyTheLive(s: State, steps: seq<Step>)
    requires Inv(s) && !s.discarded && Legal(Next(s, CancelAll), steps)
    ensures var n := Next(s, CancelAll);
            && n.cancelled == s.cancelled + TicketsOf(s.pending) + TicketsOf(s.active) + TicketsOf(s.ready)
            && n == s.(cancelled := n.cancelled, aborted := n.aborted)
            && n.cancelled <= Exec(n, steps).cancelled
  {
    LiveTickets(s);
    CancelledStays(Next(s, CancelAll), steps);
  }

  /** So does an expiry, which also marks the scheduler expired. */
  lemma ExpireReachesExactlyTheLive(s: State)
    requires Inv(s) && !s.discarded
    ensures var n := Next(s, Expire);
            && n.cancelled == s.cancelled + TicketsOf(s.pending) + TicketsOf(s.active) + TicketsOf(s.ready)
            && n == s.(cancelled := n.cancelled, expired := true)
  {
    LiveTickets(s);
  }

  /** A failed run cancels exactly the queued tickets and loses that work with its own. */
  lemma FailureCancelsExactlyTheQueued(s: State, index: nat)
    requires Inv(s) && index < |s.active|
    ensures var n := Next(s, FinishFailed(index));
            && n.broken && n.intakeClosed && n.pending == []
            && n.cancelled == s.cancelled + TicketsOf(s.pending)
            && n.lost == s.lost + [s.active[index]] + s.pending
            && n.ready == s.ready
  {
    assert s.pending == [] ==> TicketsOf(s.pending) == {};
  }

  /** A worker that cannot be started cancels exactly the queued tickets and the new one. */
  lemma FailedHiringCancelsExactlyTheQueued(s: State, job: Job, context: Context, starts: bool)
    requires Inv(s) && !s.broken && Next(s, Admit(job, context, starts)).broken
    ensures var n := Next(s, Admit(job, context, starts));
            && n.intakeClosed && n.pending == [] && n.active == s.active && n.ready == s.ready
            && n.cancelled == s.cancelled + TicketsOf(s.pending) + {s.nextTicket}
            && n.lost == s.lost + s.pending + [Item(s.nextTicket, job, context)]
  {
    var item := Item(s.nextTicket, job, context);
    TicketsOfConcat(s.pending, [item]);
    assert TicketsOf([item]) == {s.nextTicket};
  }

  predicate Cancels(step: Step) {
    step == CancelAll || step == Expire
  }

  lemma StepCancelsNothingElse(s: State, step: Step)
    requires Enabled(s, step) && !s.expired && !Cancels(step) && !Next(s, step).broken
    ensures Next(s, step).cancelled == s.cancelled && !Next(s, step).expired && !s.broken
  {
    match step
    case Admit(job, context, starts) =>
    case FinishFailed(index) =>
    case _ =>
  }

  lemma StepKeepsBroken(s: State, step: Step)
    requires Enabled(s, step) && s.broken
    ensures Next(s, step).broken
  {
    match step
    case Admit(job, context, starts) =>
    case FinishFailed(index) =>
    case _ =>
  }

  lemma {:induction false} RunKeepsBroken(s: State, steps: seq<Step>)
    requires Legal(s, steps) && s.broken
    ensures Exec(s, steps).broken
    decreases |steps|
  {
    if steps != [] {
      StepKeepsBroken(s, steps[0]);
      RunKeepsBroken(Next(s, steps[0]), steps[1..]);
    }
  }

  /** Nothing but a cancel-all, an expiry or a break cancels: without one, what is admitted to an
      unexpired scheduler, even after a cancel-all, is not cancelled. */
  lemma {:induction false} NothingElseCancels(s: State, steps: seq<Step>)
    requires Legal(s, steps) && !s.expired && !Exec(s, steps).broken
    requires forall step :: step in steps ==> !Cancels(step)
    ensures Exec(s, steps).cancelled == s.cancelled
    decreases |steps|
  {
    if steps != [] {
      var n := Next(s, steps[0]);
      assert steps[0] in steps;
      assert forall step :: step in steps[1..] ==> step in steps;
      if n.broken {
        RunKeepsBroken(n, steps[1..]);
      }
      StepCancelsNothingElse(s, steps[0]);
      NothingElseCancels(n, steps[1..]);
    }
  }

  /** The difference between a cancel-all and an expiry: what is admitted after a cancel-all
      stays uncancelled until the next cause. */
  lemma CancelAllSparesLaterTickets(s: State, steps: seq<Step>, t: nat)
    requires Inv(s) && !s.expired && Legal(Next(s, CancelAll), steps)
    requires !Exec(Next(s, CancelAll), steps).broken && forall step :: step in steps ==> !Cancels(step)
    requires t >= s.nextTicket
    ensures t !in Exec(Next(s, CancelAll), steps).cancelled
  {
    StepKeepsInv(s, CancelAll);
    NothingElseCancels(Next(s, CancelAll), steps);
  }

  // ---------- admission, hiring and the order of starts ----------

  /** What each answer to an admission means. */
  lemma AdmissionMeans(s: State, job: Job, context: Context, starts: bool)
    requires Inv(s)
    ensures var n := Next(s, Admit(job, context, starts));
            var item := Item(s.nextTicket, job, context);
            match AdmissionOf(s, job, context, starts)
            case Admitted =>
              s.residents < s.capacity && n.pending == s.pending + [item] && !n.broken && item.ticket in n.tokens
            case NoRoom => s.residents == s.capacity && !s.intakeClosed && n == s
            case IntakeClosed => n.intakeClosed && (s.intakeClosed ==> n == s) && (!s.intakeClosed ==> item in n.lost)
  {
    if CanAdmit(s) {
      assert !s.broken;
      var e := Enqueued(s, job, context);
      assert e.pending[|s.pending|] == Item(s.nextTicket, job, context);
    }
  }

  /** A worker is started exactly when an admitted job finds too few idle ones. */
  lemma HiresExactlyWhenNeeded(s: State, job: Job, context: Context, starts: bool)
    requires Inv(s) && CanAdmit(s)
    ensures var n := Next(s, Admit(job, context, starts));
            var needed := s.workers < s.running + |s.pending| + 1;
            && n.workers == s.workers + (if needed && starts then 1 else 0)
            && (n.broken <==> needed && !starts)
  {
    CapacityNeverRefusesANeededWorker(s, job, context);
  }

  predicate EndsWith<T(==)>(log: seq<T>, tail: seq<T>) {
    |tail| <= |log| && log[|log| - |tail|..] == tail
  }

  lemma BothGrow<T>(log: seq<T>, tail: seq<T>, x: T)
    requires EndsWith(log, tail)
    ensures EndsWith(log + [x], tail + [x])
  {
  }

  lemma FirstLeaves<T>(log: seq<T>, tail: seq<T>)
    requires EndsWith(log, tail) && tail != []
    ensures EndsWith(log, tail[1..])
  {
    var all := log[|log| - |tail|..];
    assert all[1..] == log[|log| - |tail| + 1..];
  }

  /** The queue is the newest part of the admissions. */
  ghost predicate QueuedLast(s: State) {
    EndsWith(s.log, s.pending)
  }

  lemma AdmitKeepsQueuedLast(s: State, job: Job, context: Context, starts: bool)
    requires QueuedLast(s)
    ensures QueuedLast(Next(s, Admit(job, context, starts)))
  {
    BothGrow(s.log, s.pending, Item(s.nextTicket, job, context));
  }

  lemma OthersKeepQueuedLast(s: State, step: Step)
    requires QueuedLast(s) && Enabled(s, step) && !step.Admit? && !step.WorkerTake?
    ensures QueuedLast(Next(s, step))
  {
    var n := Next(s, step);
    assert n.log == s.log && (n.pending == s.pending || n.pending == []);
  }

  lemma StepKeepsQueuedLast(s: State, step: Step)
    requires QueuedLast(s) && Enabled(s, step)
    ensures QueuedLast(Next(s, step))
  {
    if step.Admit? {
      AdmitKeepsQueuedLast(s, step.job, step.context, step.starts);
    } else if step.WorkerTake? {
      FirstLeaves(s.log, s.pending);
    } else {
      OthersKeepQueuedLast(s, step);
    }
  }

  lemma {:induction false} RunKeepsQueuedLast(s: State, steps: seq<Step>)
    requires QueuedLast(s) && Legal(s, steps)
    ensures QueuedLast(Exec(s, steps))
    decreases |steps|
  {
    if steps != [] {
      StepKeepsQueuedLast(s, steps[0]);
      RunKeepsQueuedLast(Next(s, steps[0]), steps[1..]);
    }
  }

  /** In every run jobs are started in the order of their admission: a worker takes the queued
      item with the lowest ticket. */
  lemma StartsInAdmissionOrder(capacity: nat, steps: seq<Step>)
    requires Legal(Init(capacity), steps) && Enabled(Exec(Init(capacity), steps), WorkerTake)
    ensures var s := Exec(Init(capacity), steps);
            var n := Next(s, WorkerTake);
            && |n.active| == |s.active| + 1 && n.active[..|s.active|] == s.active
            && n.active[|s.active|] in s.pending
            && forall x :: x in n.pending ==> x in s.pending && n.active[|s.active|].ticket < x.ticket
  {
    RunKeepsInv(Init(capacity), steps);
    RunKeepsQueuedLast(Init(capacity), steps);
    var s := Exec(Init(capacity), steps);
    var first := |s.log| - |s.pending|;
    assert s.pending[0] == s.log[first];
    forall x | x in Next(s, WorkerTake).pending ensures x in s.pending && s.pending[0].ticket < x.ticket {
      var k :| 0 <= k < |s.pending[1..]| && s.pending[1..][k] == x;
      assert x == s.pending[k + 1] == s.log[first + k + 1];
    }
  }

  // ---------- staffing and progress ----------

  /** While healthy there is a worker for every queued and running item, and a driver
      that waits always has a worker step ahead of it that lowers the measure. */
  function Measure(s: State): int {
    2 * |s.pending| + |s.active|
  }

  predicate DriverWaits(s: State) {
    s.ready == [] && !s.broken && (s.running != 0 || s.pending != [])
  }

  predicate WorkerStep(step: Step) {
    step.WorkerTake? || step.FinishOk? || step.FinishFailed?
  }

  lemma CapacityNeverRefusesANeededWorker(s: State, job: Job, context: Context)
    requires Inv(s) && CanAdmit(s)
    ensures var e := Enqueued(s, job, context);
            e.workers - e.running < |e.pending| ==> e.workers < e.capacity
  {
    assert s.running + |s.pending| <= s.residents;
  }

  lemma WaitingDriverHasAWorkerStep(s: State)
    requires Inv(s) && DriverWaits(s)
    ensures exists step :: WorkerStep(step) && Enabled(s, step) && Measure(Next(s, step)) < Measure(s)
  {
    if s.pending != [] {
      assert s.exited == 0;
      var step := WorkerTake;
      assert WorkerStep(step) && Enabled(s, step) && Measure(Next(s, step)) < Measure(s);
    } else {
      var step := FinishOk(0);
      assert WorkerStep(step) && Enabled(s, step) && Measure(Next(s, step)) < Measure(s);
    }
  }

  /** Worker steps cannot go on for longer than the measure allows... */
  lemma {:induction false} WorkerRunsAreBounded(s: State, steps: seq<Step>)
    requires Legal(s, steps) && forall step :: step in steps ==> WorkerStep(step)
    ensures |steps| <= Measure(s)
    decreases |steps|
  {
    if steps != [] {
      assert steps[0] in steps;
      assert Measure(Next(s, steps[0])) < Measure(s);
      assert forall step :: step in steps[1..] ==> step in steps;
      WorkerRunsAreBounded(Next(s, steps[0]), steps[1..]);
    }
  }

  /** ...so every maximal run of worker steps wakes a waiting driver. */
  lemma WorkersAlwaysWakeAWaitingDriver(s: State, steps: seq<Step>)
    requires Inv(s) && Legal(s, steps) && forall step :: step in steps ==> WorkerStep(step)
    requires forall step :: WorkerStep(step) ==> !Enabled(Exec(s, steps), step)
    ensures !DriverWaits(Exec(s, steps))
    ensures |steps| <= Measure(s)
  {
    RunKeepsInv(s, steps);
    WorkerRunsAreBounded(s, steps);
    if DriverWaits(Exec(s, steps)) {
      WaitingDriverHasAWorkerStep(Exec(s, steps));
    }
  }

  // ---------- per-owner queues ----------

  lemma SelectSplitsAt(ready: seq<Item>, i: nat, claim: Claim)
    requires i < |ready|
    requires Claims(claim, ready[i].context) ==> forall j :: 0 <= j < i ==> !Claims(claim, ready[j].context)
    ensures Select(ready, claim) == Select([ready[i]], claim) + Select(RemoveAt(ready, i), claim)
  {
    if Claims(claim, ready[i].context) {
      SelectWithoutFirst(ready, i, claim);
    } else {
      SelectWithoutOther(ready, i, claim);
    }
  }

  /** The item at `i` moves from the ready queue to the departures. */
  lemma TakeRoutes(finished: seq<Item>, gone: seq<Item>, ready: seq<Item>, i: nat, claim: Claim)
    requires Select(finished, claim) == Select(gone, claim) + Select(ready, claim)
    requires i < |ready|
    requires Claims(claim, ready[i].context) ==> forall j :: 0 <= j < i ==> !Claims(claim, ready[j].context)
    ensures Select(finished, claim) == Select(gone + [ready[i]], claim) + Select(RemoveAt(ready, i), claim)
  {
    SelectConcat(gone, [ready[i]], claim);
    SelectSplitsAt(ready, i, claim);
    Regroup(Select(gone, claim), Select([ready[i]], claim), Select(RemoveAt(ready, i), claim));
  }

  lemma TakeKeepsRouting(s: State, taker: Claim, claim: Claim)
    requires claim != Anyone && Routed(s, claim)
    ensures Routed(Next(s, TakeReady(taker)), claim)
  {
    var i := FirstClaimed(s.ready, taker);
    if i < |s.ready| {
      ItemsOfConcat(s.departed, [Taken(taker, s.ready[i])]);
      assert ItemsOf([Taken(taker, s.ready[i])]) == [s.ready[i]];
      assert Claims(claim, s.ready[i].context) ==> taker == claim || i == 0;
      TakeRoutes(s.finished, ItemsOf(s.departed), s.ready, i, claim);
    }
  }

  lemma DropKeepsRouting(s: State, n: State, gone: seq<Item>, claim: Claim)
    requires claim != Anyone && Routed(s, claim)
    requires n.finished == s.finished && n.departed == s.departed + DropAll(gone)
    requires Select(s.ready, claim) == Select(gone, claim) + Select(n.ready, claim)
    ensures Routed(n, claim)
  {
    DropItems(s.departed, gone);
    SelectConcat(ItemsOf(s.departed), gone, claim);
  }

  lemma FinishRoutes(finished: seq<Item>, gone: seq<Item>, ready: seq<Item>, x: Item, claim: Claim)
    requires Select(finished, claim) == Select(gone, claim) + Select(ready, claim)
    ensures Select(finished + [x], claim) == Select(gone, claim) + Select(ready + [x], claim)
  {
    SelectConcat(finished, [x], claim);
    SelectConcat(ready, [x], claim);
    Regroup(Select(gone, claim), Select(ready, claim), Select([x], claim));
  }

  predicate SameQueues(s: State, n: State) {
    n.finished == s.finished && n.departed == s.departed && n.ready == s.ready
  }

  lemma BreakLeavesTheQueues(s: State)
    ensures SameQueues(s, Break(s))
  {
  }

  lemma AdmitLeavesTheQueues(s: State, job: Job, context: Context, starts: bool)
    ensures SameQueues(s, Next(s, Admit(job, context, starts)))
  {
    BreakLeavesTheQueues(Enqueued(s, job, context));
  }

  lemma FailureLeavesTheQueues(s: State, index: nat)
    requires index < |s.active|
    ensures SameQueues(s, Next(s, FinishFailed(index)))
  {
    BreakLeavesTheQueues(Failed(s, index));
  }

  /** The other steps touch neither the ready queue nor what leaves or enters it. */
  lemma OthersLeaveTheQueues(s: State, step: Step)
    requires Enabled(s, step)
    requires !step.TakeReady? && !step.ReleaseOwned? && !step.FinishOk? && !step.Discard?
    ensures SameQueues(s, Next(s, step))
  {
    if step.Admit? {
      AdmitLeavesTheQueues(s, step.job, step.context, step.starts);
    } else if step.FinishFailed? {
      FailureLeavesTheQueues(s, step.index);
    }
  }

  lemma FinishKeepsRouting(s: State, index: nat, claim: Claim)
    requires index < |s.active| && Routed(s, claim)
    ensures Routed(Next(s, FinishOk(index)), claim)
  {
    FinishRoutes(s.finished, ItemsOf(s.departed), s.ready, s.active[index], claim);
  }

  lemma ReleaseKeepsRouting(s: State, gone: Claim, claim: Claim)
    requires gone != Anyone && claim != Anyone && Routed(s, claim)
    ensures Routed(Next(s, ReleaseOwned(gone)), claim)
  {
    SelectAfterReject(s.ready, gone, claim);
    DropKeepsRouting(s, Next(s, ReleaseOwned(gone)), Select(s.ready, gone), claim);
  }

  lemma DiscardKeepsRouting(s: State, claim: Claim)
    requires Enabled(s, Discard) && claim != Anyone && Routed(s, claim)
    ensures Routed(Next(s, Discard), claim)
  {
    DropKeepsRouting(s, Next(s, Discard), s.ready, claim);
  }

  /** One step, seen through one owner's queue. */
  lemma StepKeepsRouting(s: State, step: Step, claim: Claim)
    requires Enabled(s, step) && claim != Anyone && Routed(s, claim)
    ensures Routed(Next(s, step), claim)
  {
    if step.TakeReady? {
      TakeKeepsRouting(s, step.claim, claim);
    } else if step.ReleaseOwned? {
      ReleaseKeepsRouting(s, step.claim, claim);
    } else if step.FinishOk? {
      FinishKeepsRouting(s, step.index, claim);
    } else if step.Discard? {
      DiscardKeepsRouting(s, claim);
    } else {
      OthersLeaveTheQueues(s, step);
    }
  }

  lemma {:induction false} RunKeepsRouting(s: State, steps: seq<Step>, claim: Claim)
    requires Legal(s, steps) && claim != Anyone && Routed(s, claim)
    ensures Routed(Exec(s, steps), claim)
    decreases |steps|
  {
    if steps != [] {
      StepKeepsRouting(s, steps[0], claim);
      RunKeepsRouting(Next(s, steps[0]), steps[1..], claim);
    }
  }

  /** For every run and every owner: what the owner finished is, in finish order, what has
      left its queue followed by what is still in it, whatever the other owners do. */
  lemma OwnersHaveIndependentQueues(capacity: nat, steps: seq<Step>, claim: Claim)
    requires Legal(Init(capacity), steps) && claim != Anyone
    ensures var s := Exec(Init(capacity), steps);
            Select(s.finished, claim) == Select(ItemsOf(s.departed), claim) + Select(s.ready, claim)
  {
    RunKeepsRouting(Init(capacity), steps, claim);
  }

  lemma TakeServesTheHead(s: State, claim: Claim)
    ensures var (head, queue) := (TakeOf(s, claim), Select(s.ready, claim));
            && (head.Got? <==> queue != [])
            && (head.Got? ==> queue == [head.item] + Select(Next(s, TakeReady(claim)).ready, claim))
            && (head == RaisedBroken <==> queue == [] && s.broken)
  {
    var i := FirstClaimed(s.ready, claim);
    if i < |s.ready| {
      SelectWithoutFirst(s.ready, i, claim);
    } else {
      NothingClaimed(s.ready, claim);
    }
  }

  /** A take hands over the head of the taker's own queue, or reports nothing only when
      that queue is empty; no other owner's queue changes. */
  lemma TakeServesOwnQueueOnly(s: State, claim: Claim, other: Claim)
    requires claim != Anyone && other != Anyone
    ensures var n := Next(s, TakeReady(claim));
            && (TakeOf(s, claim).Got? <==> Select(s.ready, claim) != [])
            && (TakeOf(s, claim).Got? ==>
                  Select(s.ready, claim) == [TakeOf(s, claim).item] + Select(n.ready, claim))
            && (TakeOf(s, claim) == RaisedBroken <==> Select(s.ready, claim) == [] && s.broken)
            && (other != claim ==> Select(n.ready, other) == Select(s.ready, other))
  {
    TakeServesTheHead(s, claim);
    var i := FirstClaimed(s.ready, claim);
    if i < |s.ready| && other != claim {
      SelectWithoutOther(s.ready, i, other);
    }
  }

  lemma {:induction false} NothingClaimed(items: seq<Item>, claim: Claim)
    requires forall j :: 0 <= j < |items| ==> !Claims(claim, items[j].context)
    ensures Select(items, claim) == []
  {
    if items != [] {
      NothingClaimed(items[1..], claim);
    }
  }

  /** Releasing a departed owner empties its queue and no other. */
  lemma ReleaseEmptiesOwnQueueOnly(s: State, claim: Claim, other: Claim)
    requires claim != Anyone && other != Anyone
    ensures var n := Next(s, ReleaseOwned(claim));
            && Select(n.ready, claim) == []
            && (other != claim ==> Select(n.ready, other) == Select(s.ready, other))
            && n.pending == s.pending && n.active == s.active
  {
    SelectAfterReject(s.ready, claim, claim);
    SelectAfterReject(s.ready, claim, other);
  }

  /** Every completion a driver was handed is one the driver claims. */
  ghost predicate ExitsClaimed(s: State) {
    forall e :: e in s.departed && e.Taken? ==> Claims(e.claim, e.item.context)
  }

  lemma StepExitsClaimed(s: State, step: Step)
    requires Enabled(s, step) && ExitsClaimed(s)
    ensures ExitsClaimed(Next(s, step))
  {
    match step
    case TakeReady(claim) =>
    case ReleaseOwned(claim) =>
    case Discard =>
    case _ => assert Next(s, step).departed == s.departed;
  }

  lemma {:induction false} DriversReceiveOnlyTheirOwn(s: State, steps: seq<Step>)
    requires Legal(s, steps) && ExitsClaimed(s)
    ensures ExitsClaimed(Exec(s, steps))
    decreases |steps|
  {
    if steps != [] {
      StepExitsClaimed(s, steps[0]);
      DriversReceiveOnlyTheirOwn(Next(s, steps[0]), steps[1..]);
    }
  }
}
