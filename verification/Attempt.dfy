/** How a supervised child ends up reported: the output pump, the waiting loop and the
    choice of outcome, over every interleaving. */
module Attempt {
  import opened Basics
  import opened Framing
  import opened Retention
  import opened Automaton

  datatype Axis = WallTime | PayloadOutput

  datatype Stop = StopAxis(axis: Axis) | StopCancelled

  /** `budget` is absent for unlimited output; `failing` is the overflow policy that stops. */
  datatype Limits = Limits(budget: Option<Budget>, failing: bool)

  datatype Waiter = Waiting | Ended(stop: Option<Stop>)

  /** `flag` is the overflow event the pump raises. */
  datatype State = State(limits: Limits, out: Bytes, err: Bytes, flag: bool, waiter: Waiter)

  /** What the waiting loop sees at one of its polls. */
  datatype Look = Look(exited: bool, transportFailed: bool, cancelled: bool, expired: bool)

  datatype Step = Offer(fromStderr: bool, chunk: Bytes) | Raise | Poll(look: Look)

  function Init(limits: Limits): State {
    State(limits, [], [], false, Waiting)
  }

  predicate Overflowed(s: State) {
    s.limits.budget.Some? && |s.out| + |s.err| > s.limits.budget.value.max
  }

  predicate Enabled(s: State, step: Step) {
    match step
    case Offer(_, _) => true
    case Raise => Overflowed(s)
    case Poll(_) => s.waiter == Waiting
  }

  /** One round of the waiting loop, in its order of precedence. */
  function Decide(limits: Limits, flag: bool, look: Look): Waiter {
    if look.exited || look.transportFailed then Ended(None)
    else if limits.budget.Some? && limits.failing && flag then Ended(Some(StopAxis(PayloadOutput)))
    else if look.cancelled then Ended(Some(StopCancelled))
    else if look.expired then Ended(Some(StopAxis(WallTime)))
    else Waiting
  }

  /** Where a waiting loop is after the given rounds, each with the overflow event as it then
      was and what else the loop saw. */
  function Awaited(limits: Limits, flags: seq<bool>, looks: seq<Look>): Waiter
    requires |flags| == |looks|
  {
    if looks == [] then Waiting
    else
      var waiter := Decide(limits, flags[0], looks[0]);
      if waiter.Ended? then waiter else Awaited(limits, flags[1..], looks[1..])
  }

  lemma {:induction false} AwaitedFrom(limits: Limits, flags: seq<bool>, looks: seq<Look>, rounds: nat)
    requires |flags| == |looks| && rounds <= |looks|
    requires forall j :: 0 <= j < rounds ==> Decide(limits, flags[j], looks[j]) == Waiting
    ensures Awaited(limits, flags, looks) == Awaited(limits, flags[rounds..], looks[rounds..])
  {
    if rounds > 0 {
      AwaitedFrom(limits, flags[1..], looks[1..], rounds - 1);
      assert flags[1..][rounds - 1..] == flags[rounds..] && looks[1..][rounds - 1..] == looks[rounds..];
    }
  }

  /** The loop goes on through every round before this one and ends in it. */
  predicate FirstToDecide(limits: Limits, flags: seq<bool>, looks: seq<Look>, r: nat)
    requires |flags| == |looks|
  {
    && r < |looks| && Decide(limits, flags[r], looks[r]).Ended?
    && forall j :: 0 <= j < r ==> Decide(limits, flags[j], looks[j]) == Waiting
  }

  /** The waiting loop over what it sees, round by round: it ends in the first round with a reason
      to end, for the first reason in its order, or goes on through all of them. */
  method AwaitChild(limits: Limits, flags: seq<bool>, looks: seq<Look>) returns (waiter: Waiter)
    requires |flags| == |looks|
    ensures waiter == Awaited(limits, flags, looks)
    ensures if waiter == Waiting then forall j :: 0 <= j < |looks| ==> Decide(limits, flags[j], looks[j]) == Waiting
            else exists r: nat :: FirstToDecide(limits, flags, looks, r) && waiter == Decide(limits, flags[r], looks[r])
  {
    for round := 0 to |looks|
      invariant forall j :: 0 <= j < round ==> Decide(limits, flags[j], looks[j]) == Waiting
    {
      AwaitedFrom(limits, flags, looks, round);
      var look := looks[round];
      assert Decide(limits, flags[round], looks[round]).Ended? ==> FirstToDecide(limits, flags, looks, round);
      if look.exited { return Ended(None); }
      if look.transportFailed { return Ended(None); }
      if limits.budget.Some? && limits.failing && flags[round] {
        return Ended(Some(StopAxis(PayloadOutput)));
      }
      if look.cancelled { return Ended(Some(StopCancelled)); }
      if look.expired { return Ended(Some(StopAxis(WallTime))); }
    }
    AwaitedFrom(limits, flags, looks, |looks|);
    waiter := Waiting;
  }

  function Next(s: State, step: Step): State
    requires Enabled(s, step)
  {
    match step
    case Offer(fromStderr, chunk) =>
      if fromStderr then s.(err := s.err + chunk) else s.(out := s.out + chunk)
    case Raise => s.(flag := true)
    case Poll(look) => s.(waiter := Decide(s.limits, s.flag, look))
  }

  ghost predicate Legal(s: State, steps: seq<Step>)
    decreases |steps|
  {
    steps != [] ==> Enabled(s, steps[0]) && Legal(Next(s, steps[0]), steps[1..])
  }

  ghost function Exec(s: State, steps: seq<Step>): State
    requires Legal(s, steps)
    decreases |steps|
  {
    if steps == [] then s else Exec(Next(s, steps[0]), steps[1..])
  }

  /** What the waiting loop looked at in a run: the overflow event and the rest, per round. */
  ghost function FlagsSeen(s: State, steps: seq<Step>): seq<bool>
    requires Legal(s, steps)
    decreases |steps|
  {
    if steps == [] then []
    else (if steps[0].Poll? then [s.flag] else []) + FlagsSeen(Next(s, steps[0]), steps[1..])
  }

  ghost function LooksSeen(s: State, steps: seq<Step>): (looks: seq<Look>)
    requires Legal(s, steps)
    ensures |looks| == |FlagsSeen(s, steps)|
    decreases |steps|
  {
    if steps == [] then []
    else (if steps[0].Poll? then [steps[0].look] else []) + LooksSeen(Next(s, steps[0]), steps[1..])
  }

  lemma {:induction false} EndedSeesNothing(s: State, steps: seq<Step>)
    requires Legal(s, steps) && s.waiter.Ended?
    ensures LooksSeen(s, steps) == [] && Exec(s, steps).waiter == s.waiter
    decreases |steps|
  {
    if steps != [] {
      EndedSeesNothing(Next(s, steps[0]), steps[1..]);
    }
  }

  lemma {:induction false} PollsAwait(s: State, steps: seq<Step>)
    requires Legal(s, steps) && s.waiter == Waiting
    ensures Exec(s, steps).waiter == Awaited(s.limits, FlagsSeen(s, steps), LooksSeen(s, steps))
    decreases |steps|
  {
    if steps != [] {
      var n := Next(s, steps[0]);
      if n.waiter == Waiting {
        PollsAwait(n, steps[1..]);
      } else {
        EndedSeesNothing(n, steps[1..]);
      }
      if steps[0].Poll? {
        assert FlagsSeen(s, steps)[1..] == FlagsSeen(n, steps[1..]);
        assert LooksSeen(s, steps)[1..] == LooksSeen(n, steps[1..]);
      } else {
        assert FlagsSeen(s, steps) == FlagsSeen(n, steps[1..]);
        assert LooksSeen(s, steps) == LooksSeen(n, steps[1..]);
      }
    }
  }

  /** The polls of a run are an execution of the waiting loop over what they saw, with the
      overflow event as the pump had left it. */
  lemma PollsAreTheWaitingLoop(limits: Limits, steps: seq<Step>)
    requires Legal(Init(limits), steps)
    ensures Exec(Init(limits), steps).waiter
         == Awaited(limits, FlagsSeen(Init(limits), steps), LooksSeen(Init(limits), steps))
  {
    PollsAwait(Init(limits), steps);
  }

  /** The protocol's failure and how many outputs it had accepted by then. */
  datatype ProtocolFailure = ProtocolFailure(code: Code, accepted: nat)

  datatype Outcome =
    | BudgetExceeded(axis: Axis) | Cancelled | ProtocolFailed(failure: ProtocolFailure)
    | Exited(code: int) | Signaled(number: int)

  predicate ByExitStatus(o: Outcome) {
    o.Exited? || o.Signaled?
  }

  /** The reported outcome, in the code's order of precedence. */
  function OutcomeOf(overflowed: bool, stop: Option<Stop>, protocol: Option<ProtocolFailure>, returncode: int): Outcome
  {
    if overflowed then BudgetExceeded(PayloadOutput)
    else if stop == Some(StopAxis(WallTime)) then BudgetExceeded(WallTime)
    else if stop == Some(StopCancelled) then Cancelled
    else if protocol.Some? then ProtocolFailed(protocol.value)
    else if returncode < 0 then Signaled(-returncode)
    else Exited(returncode)
  }

  predicate Inv(s: State) {
    && (s.flag ==> Overflowed(s))
    && (s.waiter == Ended(Some(StopAxis(PayloadOutput))) ==> s.flag && s.limits.failing)
  }

  lemma {:induction false} RunKeeps(s: State, steps: seq<Step>)
    requires Inv(s) && Legal(s, steps)
    ensures Inv(Exec(s, steps)) && Exec(s, steps).limits == s.limits
    ensures Overflowed(s) ==> Overflowed(Exec(s, steps))
    decreases |steps|
  {
    if steps != [] {
      RunKeeps(Next(s, steps[0]), steps[1..]);
    }
  }

  lemma StopsAre(w: Waiter)
    requires w.Ended?
    ensures || w == Ended(None) || w == Ended(Some(StopCancelled))
            || w == Ended(Some(StopAxis(PayloadOutput))) || w == Ended(Some(StopAxis(WallTime)))
  {
    if w.stop.Some? && w.stop.value.StopAxis? {
      assert w.stop.value.axis == PayloadOutput || w.stop.value.axis == WallTime;
    }
  }

  /** A child the waiting loop stopped is reported as over budget or cancelled, never by its
      exit status or its protocol, whatever arrives after the stop. */
  lemma StoppedChildIsReportedAsStopped(
      limits: Limits, steps: seq<Step>, protocol: Option<ProtocolFailure>, returncode: int)
    requires Legal(Init(limits), steps)
    requires Exec(Init(limits), steps).waiter.Ended? && Exec(Init(limits), steps).waiter.stop.Some?
    ensures var s := Exec(Init(limits), steps);
            var o := OutcomeOf(Overflowed(s), s.waiter.stop, protocol, returncode);
            && (o.BudgetExceeded? || o.Cancelled?)
            && (s.waiter.stop.value == StopAxis(PayloadOutput) ==> limits.failing && o == BudgetExceeded(PayloadOutput))
            && (o == Cancelled ==> s.waiter.stop.value == StopCancelled)
  {
    RunKeeps(Init(limits), steps);
    StopsAre(Exec(Init(limits), steps).waiter);
  }

  /** The exit status is reported exactly when the loop stopped nothing, the output stayed
      within its total and the protocol did not fail. */
  lemma ExitStatusReportedExactlyWhen(
      limits: Limits, steps: seq<Step>, protocol: Option<ProtocolFailure>, returncode: int)
    requires Legal(Init(limits), steps) && Exec(Init(limits), steps).waiter.Ended?
    ensures var s := Exec(Init(limits), steps);
            var o := OutcomeOf(Overflowed(s), s.waiter.stop, protocol, returncode);
            && (ByExitStatus(o) <==> s.waiter.stop.None? && !Overflowed(s) && protocol.None?)
            && (o.Exited? ==> o.code == returncode >= 0)
            && (o.Signaled? ==> -o.number == returncode < 0)
  {
    RunKeeps(Init(limits), steps);
    StopsAre(Exec(Init(limits), steps).waiter);
  }

  lemma LastStays<T>(a: seq<T>, b: seq<T>)
    requires b != []
    ensures (a + b)[|a + b| - 1] == b[|b| - 1]
  {
  }

  /** The waiter is where the last of the polls put it. */
  ghost predicate DecidedLast(limits: Limits, flags: seq<bool>, looks: seq<Look>, waiter: Waiter) {
    |flags| == |looks| > 0 && waiter == Decide(limits, flags[|flags| - 1], looks[|looks| - 1])
  }

  lemma MorePollsBefore(
      limits: Limits, flag: seq<bool>, look: seq<Look>, flags: seq<bool>, looks: seq<Look>, waiter: Waiter)
    requires |flag| == |look| && DecidedLast(limits, flags, looks, waiter)
    ensures DecidedLast(limits, flag + flags, look + looks, waiter)
  {
    LastStays(flag, flags);
    LastStays(look, looks);
  }

  lemma {:induction false} EndedAfterAPoll(s: State, steps: seq<Step>)
    requires Legal(s, steps) && s.waiter == Waiting && Exec(s, steps).waiter.Ended?
    ensures DecidedLast(s.limits, FlagsSeen(s, steps), LooksSeen(s, steps), Exec(s, steps).waiter)
    decreases |steps|
  {
    var n := Next(s, steps[0]);
    var flag, look := if steps[0].Poll? then [s.flag] else [], if steps[0].Poll? then [steps[0].look] else [];
    if n.waiter == Waiting {
      EndedAfterAPoll(n, steps[1..]);
      MorePollsBefore(s.limits, flag, look, FlagsSeen(n, steps[1..]), LooksSeen(n, steps[1..]), Exec(s, steps).waiter);
    } else {
      EndedSeesNothing(n, steps[1..]);
      assert LooksSeen(s, steps) == look && FlagsSeen(s, steps) == flag;
    }
  }

  /** A flag that a poll saw was raised for an overflow, which does not revert. */
  lemma {:induction false} SeenFlagMeansOverflow(s: State, steps: seq<Step>)
    requires Inv(s) && Legal(s, steps)
    ensures true in FlagsSeen(s, steps) ==> Overflowed(Exec(s, steps))
    decreases |steps|
  {
    if steps != [] {
      SeenFlagMeansOverflow(Next(s, steps[0]), steps[1..]);
      RunKeeps(Next(s, steps[0]), steps[1..]);
    }
  }

  /** The look of the poll that ended the waiting. */
  ghost function LastLook(limits: Limits, steps: seq<Step>): Look
    requires Legal(Init(limits), steps) && Exec(Init(limits), steps).waiter.Ended?
  {
    EndedAfterAPoll(Init(limits), steps);
    LooksSeen(Init(limits), steps)[|LooksSeen(Init(limits), steps)| - 1]
  }

  /** Every outcome, exactly when it is reported: from the bytes produced, what the deciding poll
      saw, the protocol's result and the return code. */
  lemma OutcomeExactly(limits: Limits, steps: seq<Step>, protocol: Option<ProtocolFailure>, returncode: int)
    requires Legal(Init(limits), steps) && Exec(Init(limits), steps).waiter.Ended?
    ensures var s := Exec(Init(limits), steps);
            var o := OutcomeOf(Overflowed(s), s.waiter.stop, protocol, returncode);
            var look := LastLook(limits, steps);
            var over := limits.budget.Some? && |s.out| + |s.err| > limits.budget.value.max;
            var running := !look.exited && !look.transportFailed;
            var stopped := running && (look.cancelled || look.expired);
            var free := !over && !stopped && protocol.None?;
            && (o == BudgetExceeded(PayloadOutput) <==> over)
            && (o == Cancelled <==> !over && running && look.cancelled)
            && (o == BudgetExceeded(WallTime) <==> !over && running && !look.cancelled && look.expired)
            && (forall f :: o == ProtocolFailed(f) <==> !over && !stopped && protocol == Some(f))
            && (forall c :: o == Exited(c) <==> free && returncode >= 0 && c == returncode)
            && (forall n :: o == Signaled(n) <==> free && returncode < 0 && n == -returncode)
  {
    EndedAfterAPoll(Init(limits), steps);
    RunKeeps(Init(limits), steps);
    SeenFlagMeansOverflow(Init(limits), steps);
    StopsAre(Exec(Init(limits), steps).waiter);
  }

  /** A poll's reasons to end the wait: the child is gone or its transports failed, it was
      cancelled, its time is up, or the overflow was raised under the policy that stops for it. */
  predicate Reason(limits: Limits, flag: bool, look: Look) {
    look.exited || look.transportFailed || look.cancelled || look.expired || MustStop(limits, flag)
  }

  predicate MustStop(limits: Limits, flag: bool) {
    limits.budget.Some? && limits.failing && flag
  }

  ghost predicate SomeReason(limits: Limits, flags: seq<bool>, looks: seq<Look>)
    requires |flags| == |looks|
  {
    exists k :: 0 <= k < |looks| && Reason(limits, flags[k], looks[k])
  }

  lemma {:induction false} AwaitsAReason(limits: Limits, flags: seq<bool>, looks: seq<Look>)
    requires |flags| == |looks|
    ensures Awaited(limits, flags, looks).Ended? <==> SomeReason(limits, flags, looks)
  {
    if looks != [] {
      AwaitsAReason(limits, flags[1..], looks[1..]);
      assert forall k :: 1 <= k < |looks| ==> flags[k] == flags[1..][k - 1] && looks[k] == looks[1..][k - 1];
      if SomeReason(limits, flags, looks) {
        var k :| 0 <= k < |looks| && Reason(limits, flags[k], looks[k]);
        assert k > 0 ==> Reason(limits, flags[1..][k - 1], looks[1..][k - 1]);
      }
    }
  }

  /** In every run the wait has ended exactly when some poll saw a reason; the child is then left
      alone exactly when the last poll found it gone or its transports failed, and stopped for its
      output exactly when that poll found it running over its output under the policy that stops. */
  lemma WaitEndsExactlyForAReason(limits: Limits, steps: seq<Step>)
    requires Legal(Init(limits), steps)
    ensures Exec(Init(limits), steps).waiter.Ended?
            <==> SomeReason(limits, FlagsSeen(Init(limits), steps), LooksSeen(Init(limits), steps))
    ensures var (w, flags) := (Exec(Init(limits), steps).waiter, FlagsSeen(Init(limits), steps));
            w.Ended? ==>
              && |flags| > 0
              && var (look, flag) := (LastLook(limits, steps), flags[|flags| - 1]);
                 var gone := look.exited || look.transportFailed;
                 && (w.stop == None <==> gone)
                 && (w.stop == Some(StopAxis(PayloadOutput)) <==> !gone && MustStop(limits, flag))
  {
    PollsAreTheWaitingLoop(limits, steps);
    AwaitsAReason(limits, FlagsSeen(Init(limits), steps), LooksSeen(Init(limits), steps));
    if Exec(Init(limits), steps).waiter.Ended? {
      EndedAfterAPoll(Init(limits), steps);
    }
  }

  /** The bytes the payload wrote to one of its streams in a run. */
  ghost function Written(s: State, steps: seq<Step>, fromStderr: bool): Bytes
    requires Legal(s, steps)
    decreases |steps|
  {
    if steps == [] then []
    else
      (if steps[0].Offer? && steps[0].fromStderr == fromStderr then steps[0].chunk else [])
      + Written(Next(s, steps[0]), steps[1..], fromStderr)
  }

  /** In every run each stream is what was written to it, in order, however it was cut. */
  lemma {:induction false} StreamsAreWhatWasWritten(s: State, steps: seq<Step>)
    requires Legal(s, steps)
    ensures Exec(s, steps).out == s.out + Written(s, steps, false)
    ensures Exec(s, steps).err == s.err + Written(s, steps, true)
    decreases |steps|
  {
    if steps != [] {
      StreamsAreWhatWasWritten(Next(s, steps[0]), steps[1..]);
    }
  }

  /** In every run under a consistent budget: what is kept fits, and overflow means loss. */
  lemma RunsStayWithinTheBudget(limits: Limits, steps: seq<Step>)
    requires Legal(Init(limits), steps)
    requires limits.budget.Some? && Consistent(limits.budget.value)
    ensures var s := Exec(Init(limits), steps);
            var b := limits.budget.value;
            && Retained(b.stdout, s.out) + Retained(b.stderr, s.err) <= b.max
            && (s.flag || Overflowed(s) ==> Dropped(b.stdout, s.out) + Dropped(b.stderr, s.err) > 0)
  {
    RunKeeps(Init(limits), steps);
    var s := Exec(Init(limits), steps);
    OverflowMeansDropping(limits.budget.value, s.out, s.err);
  }
}
