/** What a departed stream leaves behind.

    `release_owned` promises that a driver that ended early does not stall the drivers
    that outlive it.  It only looks at the ready queue, so the promise holds exactly when the
    owner's queued, running and lost work does not fill the capacity at that moment. */
module Orphans {
  import opened SchedulerModel
  import opened SchedulerProofs

  /** Resident slots that belong to a claim. */
  function Held(s: State, claim: Claim): nat {
    |Select(s.pending, claim)| + |Select(s.active, claim)| + |Select(s.ready, claim)| + |Select(s.lost, claim)|
  }

  /** Resident slots of a claim that a release does not look at. */
  function InFlight(s: State, claim: Claim): nat {
    |Select(s.pending, claim)| + |Select(s.active, claim)| + |Select(s.lost, claim)|
  }

  /** A step of the parties that remain: it neither submits nor claims for the departed owner. */
  predicate WithoutOwner(step: Step, owner: nat) {
    match step
    case Admit(_, context, _) => !Claims(OwnedBy(owner), context)
    case TakeReady(claim) => claim != Anyone && claim != OwnedBy(owner)
    case ReleaseOwned(claim) => claim != OwnedBy(owner)
    case Discard => false
    case _ => true
  }

  lemma {:induction false} SelectSizeRemove(items: seq<Item>, i: nat, claim: Claim)
    requires i < |items|
    ensures |Select(items, claim)|
            == |Select(RemoveAt(items, i), claim)| + (if Claims(claim, items[i].context) then 1 else 0)
  {
    if i == 0 {
      assert RemoveAt(items, 0) == items[1..];
    } else {
      SelectSizeRemove(items[1..], i - 1, claim);
      assert RemoveAt(items, i)[0] == items[0] && RemoveAt(items, i)[1..] == RemoveAt(items[1..], i - 1);
    }
  }

  lemma BreakKeepsHeld(s: State, claim: Claim)
    ensures Held(Break(s), claim) == Held(s, claim)
  {
    SelectConcat(s.lost, s.pending, claim);
  }

  lemma FinishOkKeepsHeld(s: State, index: nat, claim: Claim)
    requires index < |s.active|
    ensures Held(Next(s, FinishOk(index)), claim) == Held(s, claim)
  {
    SelectSizeRemove(s.active, index, claim);
    SelectConcat(s.ready, [s.active[index]], claim);
  }

  lemma FinishFailedKeepsHeld(s: State, index: nat, claim: Claim)
    requires index < |s.active|
    ensures Held(Next(s, FinishFailed(index)), claim) == Held(s, claim)
  {
    var f := Failed(s, index);
    assert Held(f, claim) == Held(s, claim) by {
      SelectSizeRemove(s.active, index, claim);
      SelectConcat(s.lost, [s.active[index]], claim);
    }
    BreakKeepsHeld(f, claim);
  }

  lemma AdmitKeepsHeld(s: State, job: Job, context: Context, starts: bool, claim: Claim)
    requires !Claims(claim, context)
    ensures Held(Next(s, Admit(job, context, starts)), claim) == Held(s, claim)
  {
    var e := Enqueued(s, job, context);
    SelectConcat(s.pending, [Item(s.nextTicket, job, context)], claim);
    assert Held(e, claim) == Held(s, claim);
    BreakKeepsHeld(e, claim);
  }

  lemma StepKeepsHeld(s: State, step: Step, owner: nat)
    requires Inv(s) && Enabled(s, step) && WithoutOwner(step, owner)
    ensures Held(Next(s, step), OwnedBy(owner)) == Held(s, OwnedBy(owner))
  {
    var claim := OwnedBy(owner);
    match step
    case Admit(job, context, starts) => AdmitKeepsHeld(s, job, context, starts, claim);
    case TakeReady(taker) => TakeServesOwnQueueOnly(s, taker, claim);
    case ReleaseOwned(gone) => SelectAfterReject(s.ready, gone, claim);
    case WorkerTake =>
      assert s.pending == [s.pending[0]] + s.pending[1..];
      SelectConcat([s.pending[0]], s.pending[1..], claim);
      SelectConcat(s.active, [s.pending[0]], claim);
    case FinishOk(index) => FinishOkKeepsHeld(s, index, claim);
    case FinishFailed(index) => FinishFailedKeepsHeld(s, index, claim);
    case ShutdownEnd => ShutdownDropsNothing(s);
    case _ =>
  }

  lemma {:induction false} RunKeepsHeld(s: State, steps: seq<Step>, owner: nat)
    requires Inv(s) && Legal(s, steps) && forall step :: step in steps ==> WithoutOwner(step, owner)
    ensures Held(Exec(s, steps), OwnedBy(owner)) == Held(s, OwnedBy(owner))
    decreases |steps|
  {
    if steps != [] {
      assert steps[0] in steps;
      assert forall step :: step in steps[1..] ==> step in steps;
      StepKeepsHeld(s, steps[0], owner);
      StepKeepsInv(s, steps[0]);
      RunKeepsHeld(Next(s, steps[0]), steps[1..], owner);
    }
  }

  /** After an owner leaves, the slots it holds stay exactly its in-flight and lost work at
      the moment of the release, in every later run of the others: the release frees
      everything if and only if there was none. */
  lemma ReleaseFreesAllExactlyWhenNothingIsInFlight(s: State, steps: seq<Step>, owner: nat)
    requires Inv(s) && Legal(Next(s, ReleaseOwned(OwnedBy(owner))), steps)
    requires forall step :: step in steps ==> WithoutOwner(step, owner)
    ensures var e := Exec(Next(s, ReleaseOwned(OwnedBy(owner))), steps);
            && Held(e, OwnedBy(owner)) == InFlight(s, OwnedBy(owner))
            && (Held(e, OwnedBy(owner)) == 0 <==> InFlight(s, OwnedBy(owner)) == 0)
  {
    var n := Next(s, ReleaseOwned(OwnedBy(owner)));
    SelectAfterReject(s.ready, OwnedBy(owner), OwnedBy(owner));
    StepKeepsInv(s, ReleaseOwned(OwnedBy(owner)));
    RunKeepsHeld(n, steps, owner);
  }

  lemma {:induction false} SelectIsNoLonger(items: seq<Item>, claim: Claim)
    ensures |Select(items, claim)| <= |items|
  {
    if items != [] {
      SelectIsNoLonger(items[1..], claim);
    }
  }

  lemma StepFrame(s: State, step: Step)
    requires Enabled(s, step)
    ensures Next(s, step).capacity == s.capacity
    ensures !step.Discard? ==> Next(s, step).discarded == s.discarded
  {
    match step
    case Admit(job, context, starts) =>
    case FinishFailed(index) =>
    case _ =>
  }

  lemma {:induction false} RunFrame(s: State, steps: seq<Step>, owner: nat)
    requires Legal(s, steps) && forall step :: step in steps ==> WithoutOwner(step, owner)
    ensures Exec(s, steps).capacity == s.capacity && Exec(s, steps).discarded == s.discarded
    decreases |steps|
  {
    if steps != [] {
      assert steps[0] in steps;
      assert forall step :: step in steps[1..] ==> step in steps;
      StepFrame(s, steps[0]);
      RunFrame(Next(s, steps[0]), steps[1..], owner);
    }
  }

  /** A stream whose in-flight work fills the capacity when it leaves stalls every other
      stream for good. */
  lemma DepartedStreamCanStallThePool(s: State, steps: seq<Step>, owner: nat)
    requires Inv(s) && !s.discarded && InFlight(s, OwnedBy(owner)) >= s.capacity
    requires Legal(Next(s, ReleaseOwned(OwnedBy(owner))), steps)
    requires forall step :: step in steps ==> WithoutOwner(step, owner)
    ensures !CanAdmit(Exec(Next(s, ReleaseOwned(OwnedBy(owner))), steps))
  {
    var claim := OwnedBy(owner);
    var n := Next(s, ReleaseOwned(claim));
    ReleaseFreesAllExactlyWhenNothingIsInFlight(s, steps, owner);
    assert Inv(n) by { StepKeepsInv(s, ReleaseOwned(claim)); }
    RunFrame(n, steps, owner);
    var e := Exec(n, steps);
    assert Inv(e) by { RunKeepsInv(n, steps); }
    SelectIsNoLonger(e.pending, claim);
    SelectIsNoLonger(e.active, claim);
    SelectIsNoLonger(e.ready, claim);
    SelectIsNoLonger(e.lost, claim);
  }

  // ---------- when the others can go on ----------

  /** Some run of the remaining parties reaches a state in which work can be admitted. */
  ghost predicate CanRecover(s: State, owner: nat) {
    exists steps ::
      Legal(s, steps) && (forall step :: step in steps ==> WithoutOwner(step, owner)) && CanAdmit(Exec(s, steps))
  }

  lemma RecoverLater(s: State, step: Step, owner: nat)
    requires Enabled(s, step) && WithoutOwner(step, owner) && CanRecover(Next(s, step), owner)
    ensures CanRecover(s, owner)
  {
    var steps :| Legal(Next(s, step), steps) && (forall x :: x in steps ==> WithoutOwner(x, owner))
                 && CanAdmit(Exec(Next(s, step), steps));
    var longer := [step] + steps;
    assert longer[0] == step && longer[1..] == steps;
    assert Legal(s, longer) && Exec(s, longer) == Exec(Next(s, step), steps);
    assert forall x :: x in longer ==> x == step || x in steps;
  }

  lemma RecoverNow(s: State, owner: nat)
    requires CanAdmit(s)
    ensures CanRecover(s, owner)
  {
    var steps: seq<Step> := [];
    assert Legal(s, steps) && Exec(s, steps) == s;
  }

  lemma {:induction false} SomeoneElses(items: seq<Item>, claim: Claim) returns (i: nat)
    requires |Select(items, claim)| < |items|
    ensures i < |items| && !Claims(claim, items[i].context)
  {
    if !Claims(claim, items[0].context) {
      i := 0;
    } else {
      i := SomeoneElses(items[1..], claim);
      i := i + 1;
    }
  }

  /** The claim of the driver that can take an item. */
  function TakerOf(context: Context): Claim {
    if context.Plain? then Unowned else OwnedBy(context.owner)
  }

  lemma TakingMakesRoom(s: State, owner: nat)
    requires Inv(s) && !s.intakeClosed && s.pending == [] && s.active == []
    requires Held(s, OwnedBy(owner)) < s.capacity
    ensures CanRecover(s, owner)
  {
    assert s.residents == |s.ready|;
    if s.residents < s.capacity {
      RecoverNow(s, owner);
    } else {
      var i := SomeoneElses(s.ready, OwnedBy(owner));
      var step := TakeReady(TakerOf(s.ready[i].context));
      var n := Next(s, step);
      assert Claims(step.claim, s.ready[i].context);
      assert n.residents == s.residents - 1 && n.capacity == s.capacity && n.intakeClosed == s.intakeClosed;
      RecoverNow(n, owner);
      RecoverLater(s, step, owner);
    }
  }

  /** Workers finish, then another driver takes what is not the departed owner's. */
  lemma {:induction false} OthersRecover(s: State, owner: nat)
    requires Inv(s) && !s.intakeClosed && Held(s, OwnedBy(owner)) < s.capacity
    ensures CanRecover(s, owner)
    decreases Measure(s)
  {
    if s.active == [] && s.pending == [] {
      TakingMakesRoom(s, owner);
    } else {
      var step := if s.active != [] then FinishOk(0) else WorkerTake;
      assert Inv(Next(s, step)) by { StepKeepsInv(s, step); }
      assert Held(Next(s, step), OwnedBy(owner)) == Held(s, OwnedBy(owner)) by { StepKeepsHeld(s, step, owner); }
      OthersRecover(Next(s, step), owner);
      RecoverLater(s, step, owner);
    }
  }

  lemma StepKeepsClosed(s: State, step: Step)
    requires Enabled(s, step) && s.intakeClosed
    ensures Next(s, step).intakeClosed
  {
    match step
    case Admit(job, context, starts) =>
    case FinishFailed(index) =>
    case _ =>
  }

  lemma {:induction false} RunKeepsClosed(s: State, steps: seq<Step>)
    requires Legal(s, steps) && s.intakeClosed
    ensures Exec(s, steps).intakeClosed
    decreases |steps|
  {
    if steps != [] {
      StepKeepsClosed(s, steps[0]);
      RunKeepsClosed(Next(s, steps[0]), steps[1..]);
    }
  }

  /** The exact condition of the promise: after the release the others can go on to admit work
      if and only if the intake is open and the owner's queued, running and lost work did not
      fill the capacity at that moment. */
  lemma OthersGoOnExactlyWhenInFlightWorkLeavesRoom(s: State, owner: nat)
    requires Inv(s)
    ensures CanRecover(Next(s, ReleaseOwned(OwnedBy(owner))), owner)
            <==> !s.intakeClosed && InFlight(s, OwnedBy(owner)) < s.capacity
  {
    var n := Next(s, ReleaseOwned(OwnedBy(owner)));
    assert Inv(n) by { StepKeepsInv(s, ReleaseOwned(OwnedBy(owner))); }
    if !s.intakeClosed && InFlight(s, OwnedBy(owner)) < s.capacity {
      SelectAfterReject(s.ready, OwnedBy(owner), OwnedBy(owner));
      OthersRecover(n, owner);
    } else {
      forall steps | Legal(n, steps) && (forall step :: step in steps ==> WithoutOwner(step, owner))
        ensures !CanAdmit(Exec(n, steps))
      {
        if s.intakeClosed {
          RunKeepsClosed(n, steps);
        } else {
          DepartedStreamCanStallThePool(s, steps, owner);
        }
      }
    }
  }

  /** Such a state is two steps away: one slot, one submission, one worker. */
  lemma StallIsReachable(job: Job, value: Value)
    ensures var steps := [Admit(job, Owned(0, value), true), WorkerTake];
            && Legal(Init(1), steps)
            && InFlight(Exec(Init(1), steps), OwnedBy(0)) >= Exec(Init(1), steps).capacity
            && !Exec(Init(1), steps).discarded
  {
    var steps := [Admit(job, Owned(0, value), true), WorkerTake];
    var item := Item(0, job, Owned(0, value));
    var s1 := Next(Init(1), steps[0]);
    assert s1.pending == [item] && s1.workers == 1;
    assert steps[1..] == [WorkerTake];
    var s2 := Next(s1, WorkerTake);
    assert [WorkerTake][1..] == [];
    assert Legal(s2, []);
    assert Legal(s1, [WorkerTake]);
    assert Exec(s1, [WorkerTake]) == Exec(s2, []) == s2;
    assert s2.active == [item];
    assert Select([item], OwnedBy(0)) == [item];
  }
}
