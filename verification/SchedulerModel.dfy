/** The shared execution scheduler as a transition system.

    Every `with self._condition` block of scheduler.py is one atomic step.  The
    state holds the scheduler's own fields, what lives outside the object (the
    jobs in the hands of worker threads, the cancellation flags of the token
    objects) and a history: the admission log, the finish order, the departures
    from the ready queue and the work a break lost. */
module SchedulerModel {
  import opened Basics

  type Job(!new, ==)
  type Value(!new, ==)

  /** A caller context; a map stream tags its submissions with its own identity. */
  datatype Context = Plain(value: Value) | Owned(owner: nat, value: Value)

  /** The `owned_by` argument of a driver: absent, `_unowned`, or one owner's `owns`. */
  datatype Claim = Anyone | Unowned | OwnedBy(owner: nat)

  datatype Item = Item(ticket: nat, job: Job, context: Context)

  /** How a completion left the ready queue. */
  datatype Exit = Taken(claim: Claim, item: Item) | Dropped(item: Item)

  datatype Admission = Admitted | IntakeClosed | NoRoom

  datatype Take = Got(item: Item) | Nothing | RaisedBroken

  datatype State = State(
    capacity: nat,
    pending: seq<Item>, ready: seq<Item>, tokens: set<nat>,
    workers: nat, nextTicket: nat, residents: int, running: int,
    intakeClosed: bool, expired: bool, broken: bool,
    active: seq<Item>, exited: nat, cancelled: set<nat>,
    log: seq<Item>, finished: seq<Item>, departed: seq<Exit>, lost: seq<Item>,
    aborted: bool, shutDown: bool, discarded: bool)

  datatype Step =
    | Admit(job: Job, context: Context, starts: bool)
    | CloseIntake
    | CancelAll
    | Expire
    | TakeReady(claim: Claim)
    | ReleaseOwned(claim: Claim)
    | WorkerTake
    | WorkerExit
    | FinishOk(index: nat)
    | FinishFailed(index: nat)
    | ShutdownEnd
    | Discard

  // ---------- sequences of items ----------

  predicate Claims(claim: Claim, context: Context) {
    match claim
    case Anyone => true
    case Unowned => context.Plain?
    case OwnedBy(owner) => context.Owned? && context.owner == owner
  }

  function RemoveAt<T>(s: seq<T>, i: nat): seq<T>
    requires i < |s|
  {
    s[..i] + s[i + 1..]
  }

  function TicketsOf(items: seq<Item>): set<nat> {
    set x | x in items :: x.ticket
  }

  function ItemsOf(exits: seq<Exit>): seq<Item> {
    seq(|exits|, i requires 0 <= i < |exits| => exits[i].item)
  }

  function DropAll(items: seq<Item>): seq<Exit> {
    seq(|items|, i requires 0 <= i < |items| => Dropped(items[i]))
  }

  /** The items a claim recognizes, in order. */
  function Select(items: seq<Item>, claim: Claim): seq<Item> {
    if items == [] then []
    else (if Claims(claim, items[0].context) then [items[0]] else []) + Select(items[1..], claim)
  }

  /** The items a claim does not recognize, in order. */
  function Reject(items: seq<Item>, claim: Claim): seq<Item> {
    if items == [] then []
    else (if Claims(claim, items[0].context) then [] else [items[0]]) + Reject(items[1..], claim)
  }

  /** Position of the oldest item the claim recognizes, or the length when there is none. */
  function FirstClaimed(items: seq<Item>, claim: Claim): (i: nat)
    ensures i <= |items|
    ensures i < |items| ==> Claims(claim, items[i].context)
    ensures forall j :: 0 <= j < i ==> !Claims(claim, items[j].context)
  {
    if items == [] || Claims(claim, items[0].context) then 0
    else 1 + FirstClaimed(items[1..], claim)
  }

  // ---------- the steps ----------

  function Init(capacity: nat): State {
    State(capacity, [], [], {}, 0, 0, 0, 0, false, false, false,
          [], 0, {}, [], [], [], [], false, false, false)
  }

  function Break(s: State): State {
    if s.broken then s
    else s.(broken := true, intakeClosed := true,
            cancelled := s.cancelled + TicketsOf(s.pending),
            tokens := s.tokens - TicketsOf(s.pending),
            lost := s.lost + s.pending,
            pending := [])
  }

  function EnsureWorker(s: State, starts: bool): State {
    if s.workers - s.running >= |s.pending| || s.workers >= s.capacity then s
    else if starts then s.(workers := s.workers + 1)
    else Break(s)
  }

  /** The executor raised: the running item is lost, its resident slot is not given back. */
  function Failed(s: State, index: nat): State
    requires index < |s.active|
  {
    s.(running := s.running - 1, active := RemoveAt(s.active, index),
       tokens := s.tokens - {s.active[index].ticket}, lost := s.lost + [s.active[index]])
  }

  function Enqueued(s: State, job: Job, context: Context): State {
    var item := Item(s.nextTicket, job, context);
    s.(nextTicket := s.nextTicket + 1,
       tokens := s.tokens + {item.ticket},
       cancelled := if s.expired then s.cancelled + {item.ticket} else s.cancelled,
       pending := s.pending + [item],
       residents := s.residents + 1,
       log := s.log + [item])
  }

  function AdmissionOf(s: State, job: Job, context: Context, starts: bool): Admission {
    if s.intakeClosed then IntakeClosed
    else if s.residents >= s.capacity then NoRoom
    else if EnsureWorker(Enqueued(s, job, context), starts).broken then IntakeClosed
    else Admitted
  }

  function TakeOf(s: State, claim: Claim): Take {
    var i := FirstClaimed(s.ready, claim);
    if i < |s.ready| then Got(s.ready[i])
    else if s.broken then RaisedBroken
    else Nothing
  }

  predicate CanAdmit(s: State) {
    s.residents < s.capacity && !s.intakeClosed
  }

  /** A worker thread sits in `_take_admitted`. */
  predicate HasIdleWorker(s: State) {
    s.running + s.exited < s.workers
  }

  predicate Enabled(s: State, step: Step) {
    match step
    case WorkerTake => HasIdleWorker(s) && !s.broken && s.pending != []
    case WorkerExit => HasIdleWorker(s) && (s.broken || (s.intakeClosed && s.pending == []))
    case FinishOk(index) => index < |s.active|
    case FinishFailed(index) => index < |s.active|
    case ReleaseOwned(claim) => claim != Anyone
    case ShutdownEnd => s.intakeClosed && s.exited == s.workers
    case Discard => s.shutDown
    case _ => true
  }

  function Next(s: State, step: Step): State
    requires Enabled(s, step)
  {
    match step
    case Admit(job, context, starts) =>
      if s.intakeClosed || s.residents >= s.capacity then s
      else EnsureWorker(Enqueued(s, job, context), starts)
    case CloseIntake => s.(intakeClosed := true)
    case CancelAll => s.(cancelled := s.cancelled + s.tokens, aborted := true)
    case Expire => s.(cancelled := s.cancelled + s.tokens, expired := true)
    case TakeReady(claim) =>
      var i := FirstClaimed(s.ready, claim);
      if i == |s.ready| then s
      else s.(ready := RemoveAt(s.ready, i),
              tokens := s.tokens - {s.ready[i].ticket},
              residents := s.residents - 1,
              departed := s.departed + [Taken(claim, s.ready[i])])
    case ReleaseOwned(claim) =>
      var owned := Select(s.ready, claim);
      s.(ready := Reject(s.ready, claim),
         tokens := s.tokens - TicketsOf(owned),
         residents := s.residents - |owned|,
         departed := s.departed + DropAll(owned))
    case WorkerTake =>
      s.(running := s.running + 1, active := s.active + [s.pending[0]], pending := s.pending[1..])
    case WorkerExit => s.(exited := s.exited + 1)
    case FinishOk(index) =>
      s.(running := s.running - 1, active := RemoveAt(s.active, index),
         ready := s.ready + [s.active[index]], finished := s.finished + [s.active[index]])
    case FinishFailed(index) => Break(Failed(s, index))
    case ShutdownEnd => s.(workers := 0, exited := 0, pending := [], shutDown := true)
    case Discard =>
      s.(ready := [], tokens := {}, residents := 0,
         departed := s.departed + DropAll(s.ready), discarded := true)
  }

  ghost predicate Legal(s: State, steps: seq<Step>)
    decreases |steps|
  {
    steps != [] ==> Enabled(s, steps[0]) && Legal(Next(s, steps[0]), steps[1..])
  }

  ghost function Exec(s: State, steps: seq<Step>): State
    requires Legal(s, steps)
    decreases |steps|
  {
    if steps == [] then s else Exec(Next(s, steps[0]), steps[1..])
  }

  // ---------- the invariant ----------

  /** Every admitted item is in exactly one place, unchanged: tickets are log positions,
      so the log has no repeats and neither has the multiset on the right. */
  ghost predicate Conserved(s: State) {
    && s.nextTicket == |s.log|
    && (forall k :: 0 <= k < |s.log| ==> s.log[k].ticket == k)
    && multiset(s.log) ==
       multiset(s.pending) + multiset(s.active) + multiset(s.ready)
       + multiset(ItemsOf(s.departed)) + multiset(s.lost)
  }

  function Live(s: State): seq<Item> {
    s.pending + s.active + s.ready
  }

  ghost predicate Counted(s: State) {
    && s.running == |s.active|
    && (if s.discarded then s.residents == 0 && s.tokens == {} && s.ready == []
        else s.residents == |Live(s)| + |s.lost| && s.tokens == TicketsOf(Live(s)))
    && s.residents <= s.capacity
  }

  ghost predicate Staffed(s: State) {
    && s.workers <= s.capacity
    && s.running + s.exited <= s.workers
    && (!s.broken ==> s.running + |s.pending| <= s.workers)
    && (s.exited > 0 ==> s.intakeClosed && s.pending == [])
    && (s.shutDown ==> s.intakeClosed && s.workers == 0 && s.pending == [] && s.active == [])
    && (s.discarded ==> s.shutDown)
  }

  ghost predicate Flagged(s: State) {
    && (s.broken <==> s.lost != [])
    && (s.broken ==> s.intakeClosed && s.pending == [])
    && (s.expired ==> TicketsOf(Live(s)) <= s.cancelled)
    && (s.cancelled != {} ==> s.expired || s.aborted || s.broken)
    && (forall t :: t in s.cancelled ==> t < s.nextTicket)
  }

  /** The shared ready deque is a merge of independent per-owner FIFO queues. */
  ghost predicate Routed(s: State, claim: Claim) {
    Select(s.finished, claim) == Select(ItemsOf(s.departed), claim) + Select(s.ready, claim)
  }

  ghost predicate Inv(s: State) {
    Conserved(s) && Counted(s) && Staffed(s) && Flagged(s)
  }

  // ---------- lemmas about item sequences ----------

  lemma RemoveAtMultiset<T>(s: seq<T>, i: nat)
    requires i < |s|
    ensures multiset(s) == multiset(RemoveAt(s, i)) + multiset{s[i]}
  {
    assert s == s[..i] + [s[i]] + s[i + 1..];
  }

  lemma TicketsOfConcat(a: seq<Item>, b: seq<Item>)
    ensures TicketsOf(a + b) == TicketsOf(a) + TicketsOf(b)
  {
    assert forall x :: x in a + b <==> x in a || x in b;
  }

  lemma TicketsOfMultiset(a: seq<Item>, b: seq<Item>)
    requires multiset(a) == multiset(b)
    ensures TicketsOf(a) == TicketsOf(b)
  {
    assert forall x :: x in a <==> x in multiset(a);
    assert forall x :: x in b <==> x in multiset(b);
  }

  /** Items of one log at distinct places have distinct tickets. */
  lemma TicketsApart(log: seq<Item>, a: seq<Item>, b: seq<Item>)
    requires forall k :: 0 <= k < |log| ==> log[k].ticket == k
    requires multiset(a) + multiset(b) <= multiset(log)
    ensures TicketsOf(a) !! TicketsOf(b)
  {
    forall x, y | x in a && y in b ensures x.ticket != y.ticket {
      assert x in multiset(a) && y in multiset(b);
      assert x in multiset(log) && y in multiset(log);
      assert x in log && y in log;
      if x.ticket == y.ticket {
        assert x == y;
        assert multiset(log)[x] >= 2;
        OnceInLog(log, x.ticket);
      }
    }
  }

  lemma OnceInLog(log: seq<Item>, k: nat)
    requires forall i :: 0 <= i < |log| ==> log[i].ticket == i
    requires k < |log|
    ensures multiset(log)[log[k]] == 1
  {
    RemoveAtMultiset(log, k);
    var rest := RemoveAt(log, k);
    assert log[k] !in rest;
  }

  lemma ItemsOfConcat(a: seq<Exit>, b: seq<Exit>)
    ensures ItemsOf(a + b) == ItemsOf(a) + ItemsOf(b)
  {
  }

  lemma {:induction false} SelectConcat(a: seq<Item>, b: seq<Item>, claim: Claim)
    ensures Select(a + b, claim) == Select(a, claim) + Select(b, claim)
  {
    if a == [] {
      assert a + b == b;
    } else {
      assert (a + b)[0] == a[0] && (a + b)[1..] == a[1..] + b;
      SelectConcat(a[1..], b, claim);
      Regroup(if Claims(claim, a[0].context) then [a[0]] else [], Select(a[1..], claim), Select(b, claim));
    }
  }

  lemma {:induction false} SelectRejectMultiset(items: seq<Item>, claim: Claim)
    ensures multiset(items) == multiset(Select(items, claim)) + multiset(Reject(items, claim))
    ensures |items| == |Select(items, claim)| + |Reject(items, claim)|
  {
    if items != [] {
      assert items == [items[0]] + items[1..];
      SelectRejectMultiset(items[1..], claim);
    }
  }

  /** Taking the oldest item of a claim takes the head of that claim's queue. */
  lemma {:induction false} SelectWithoutFirst(items: seq<Item>, i: nat, claim: Claim)
    requires i < |items| && Claims(claim, items[i].context)
    requires forall j :: 0 <= j < i ==> !Claims(claim, items[j].context)
    ensures Select(items, claim) == [items[i]] + Select(RemoveAt(items, i), claim)
  {
    if i == 0 {
      assert RemoveAt(items, 0) == items[1..];
    } else {
      SelectWithoutFirst(items[1..], i - 1, claim);
      assert RemoveAt(items, i)[1..] == RemoveAt(items[1..], i - 1);
    }
  }

  /** Removing an item of another owner leaves a claim's queue alone. */
  lemma {:induction false} SelectWithoutOther(items: seq<Item>, i: nat, claim: Claim)
    requires i < |items| && !Claims(claim, items[i].context)
    ensures Select(RemoveAt(items, i), claim) == Select(items, claim)
  {
    if i == 0 {
      assert RemoveAt(items, 0) == items[1..];
    } else {
      SelectWithoutOther(items[1..], i - 1, claim);
      assert RemoveAt(items, i)[1..] == RemoveAt(items[1..], i - 1);
    }
  }

  lemma {:induction false} SelectAfterReject(items: seq<Item>, gone: Claim, claim: Claim)
    requires gone != Anyone && claim != Anyone
    ensures Select(Reject(items, gone), claim) == if claim == gone then [] else Select(items, claim)
    ensures Select(Select(items, gone), claim) == if claim == gone then Select(items, claim) else []
  {
    if items != [] {
      SelectAfterReject(items[1..], gone, claim);
      SelectConcat(if Claims(gone, items[0].context) then [] else [items[0]], Reject(items[1..], gone), claim);
      SelectConcat(if Claims(gone, items[0].context) then [items[0]] else [], Select(items[1..], gone), claim);
    }
  }
}
