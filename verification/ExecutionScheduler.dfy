/** The scheduler object: every method body follows one critical section of
    scheduler.py and is proved to perform exactly one step of the model. */
module ExecutionScheduler {
  import opened Basics
  import opened SchedulerModel

  class Scheduler {
    const capacity: nat
    var pending: seq<Item>
    var ready: seq<Item>
    var tokens: set<nat>        // keys of the token dictionary
    var cancelled: set<nat>     // tickets whose token object has been cancelled
    var workers: nat
    var nextTicket: nat
    var residents: int
    var running: int
    var intakeClosed: bool
    var expired: bool
    var broken: bool

    /** Everything the object does not hold itself: the items in the worker threads' hands,
        the departed workers and the history.  Only those components of it are used. */
    ghost var world: State

    ghost function View(): State
      reads this
    {
      world.(capacity := capacity, pending := pending, ready := ready, tokens := tokens,
             workers := workers, nextTicket := nextTicket, residents := residents, running := running,
             intakeClosed := intakeClosed, expired := expired, broken := broken, cancelled := cancelled)
    }

    constructor (capacity: nat)
      requires capacity >= 1
      ensures View() == Init(capacity)
    {
      this.capacity := capacity;
      pending, ready, tokens, cancelled := [], [], {}, {};
      workers, nextTicket, residents, running := 0, 0, 0, 0;
      intakeClosed, expired, broken := false, false, false;
      world := Init(capacity);
    }

    /** A capacity below one is refused, as by the ValueError of the source. */
    static method Open(capacity: int) returns (scheduler: Scheduler?)
      ensures scheduler == null <==> capacity < 1
      ensures scheduler != null ==> fresh(scheduler) && scheduler.View() == Init(capacity)
    {
      if capacity < 1 {
        return null;
      }
      scheduler := new Scheduler(capacity);
    }

    /** `starts` says whether the operating system lets a needed worker thread start. */
    method TryAdmit(job: Job, context: Context, starts: bool) returns (result: Admission)
      modifies this
      ensures View() == Next(old(View()), Admit(job, context, starts))
      ensures result == AdmissionOf(old(View()), job, context, starts)
    {
      if intakeClosed {
        return IntakeClosed;
      }
      if residents >= capacity {
        return NoRoom;
      }
      Enqueue(job, context);
      HireIfNeeded(starts);
      if broken {
        return IntakeClosed;
      }
      return Admitted;
    }

    method Enqueue(job: Job, context: Context)
      modifies this
      ensures View() == Enqueued(old(View()), job, context)
    {
      var ticket := nextTicket;
      nextTicket := nextTicket + 1;
      if expired {
        cancelled := cancelled + {ticket};
      }
      tokens := tokens + {ticket};
      pending := pending + [Item(ticket, job, context)];
      residents := residents + 1;
      world := world.(log := world.log + [Item(ticket, job, context)]);
    }

    method HireIfNeeded(starts: bool)
      modifies this
      ensures View() == EnsureWorker(old(View()), starts)
    {
      var idle := workers - running;
      if idle >= |pending| || workers >= capacity {
        return;
      }
      if starts {
        workers := workers + 1;
      } else {
        BreakDown();
      }
    }

    method BreakDown()
      modifies this
      ensures View() == Break(old(View()))
      ensures broken && (!old(broken) ==> cancelled == old(cancelled) + TicketsOf(old(pending)) && pending == [])
    {
      if broken {
        return;
      }
      broken := true;
      intakeClosed := true;
      CancelQueued();
      world := world.(lost := world.lost + pending);
      pending := [];
    }

    method CancelQueued()
      modifies this`cancelled, this`tokens
      ensures cancelled == old(cancelled) + TicketsOf(pending)
      ensures tokens == old(tokens) - TicketsOf(pending)
    {
      for i := 0 to |pending|
        invariant cancelled == old(cancelled) + TicketsOf(pending[..i])
        invariant tokens == old(tokens) - TicketsOf(pending[..i])
      {
        TicketsOfNext(pending, i);
        cancelled := cancelled + {pending[i].ticket};
        tokens := tokens - {pending[i].ticket};
      }
      assert pending[..|pending|] == pending;
    }

    method StopIntake()
      modifies this
      ensures View() == Next(old(View()), CloseIntake)
    {
      intakeClosed := true;
    }

    method CancelEveryToken()
      modifies this`cancelled
      ensures cancelled == old(cancelled) + tokens
    {
      var rest := tokens;
      while rest != {}
        invariant rest <= tokens
        invariant cancelled == old(cancelled) + (tokens - rest)
        decreases |rest|
      {
        var t :| t in rest;
        cancelled := cancelled + {t};
        rest := rest - {t};
      }
    }

    method CancelAllWork()
      modifies this
      ensures View() == Next(old(View()), CancelAll)
      ensures cancelled == old(cancelled) + old(tokens)
    {
      CancelEveryToken();
      world := world.(aborted := true);
    }

    method ExpireWork()
      modifies this
      ensures View() == Next(old(View()), Expire)
      ensures expired && cancelled == old(cancelled) + old(tokens)
    {
      expired := true;
      CancelEveryToken();
    }

    /** The scan of `_take_ready_owned`; without a claim it takes the front. */
    method TakeCompletionNowait(claim: Claim) returns (result: Take)
      modifies this
      ensures View() == Next(old(View()), TakeReady(claim))
      ensures result == TakeOf(old(View()), claim)
    {
      var position := 0;
      while position < |ready| && !Claims(claim, ready[position].context)
        invariant position <= |ready|
        invariant forall j :: 0 <= j < position ==> !Claims(claim, ready[j].context)
      {
        position := position + 1;
      }
      FirstIs(ready, position, claim);
      if position == |ready| {
        return if broken then RaisedBroken else Nothing;
      }
      var completion := HandOver(position, claim);
      return Got(completion);
    }

    method HandOver(position: nat, claim: Claim) returns (completion: Item)
      requires position < |ready|
      modifies this
      ensures completion == old(ready[position])
      ensures var s := old(View());
              View() == s.(ready := RemoveAt(s.ready, position), tokens := s.tokens - {completion.ticket},
                           residents := s.residents - 1, departed := s.departed + [Taken(claim, completion)])
    {
      completion := ready[position];
      ready := ready[..position] + ready[position + 1..];
      tokens := tokens - {completion.ticket};
      residents := residents - 1;
      world := world.(departed := world.departed + [Taken(claim, completion)]);
    }

    method Release(claim: Claim)
      requires claim != Anyone
      modifies this
      ensures View() == Next(old(View()), ReleaseOwned(claim))
    {
      var kept := Unload(claim);
      world := world.(departed := world.departed + DropAll(Select(ready, claim)));
      ready := kept;
    }

    method Unload(claim: Claim) returns (kept: seq<Item>)
      modifies this`tokens, this`residents
      ensures kept == Reject(ready, claim)
      ensures tokens == old(tokens) - TicketsOf(Select(ready, claim))
      ensures residents == old(residents) - |Select(ready, claim)|
    {
      kept := [];
      for i := 0 to |ready|
        invariant tokens == old(tokens) - TicketsOf(Select(ready[..i], claim))
        invariant residents == old(residents) - |Select(ready[..i], claim)|
        invariant kept == Reject(ready[..i], claim)
      {
        SplitNext(ready, i, claim);
        if Claims(claim, ready[i].context) {
          tokens := tokens - {ready[i].ticket};
          residents := residents - 1;
        } else {
          kept := kept + [ready[i]];
        }
      }
      assert ready[..|ready|] == ready;
    }

    /** The critical section of `_take_admitted` once its wait is over: a queued item to
        run, or nothing for a worker that must leave. */
    method TakeAdmitted() returns (taken: bool, admitted: seq<Item>)
      requires HasIdleWorker(View())
      requires pending != [] || intakeClosed || broken
      modifies this
      ensures taken <==> !old(broken) && old(pending) != []
      ensures taken ==> View() == Next(old(View()), WorkerTake) && admitted == [old(pending)[0]]
      ensures !taken ==> View() == Next(old(View()), WorkerExit) && admitted == []
    {
      if broken || pending == [] {
        world := world.(exited := world.exited + 1);
        return false, [];
      }
      running := running + 1;
      world := world.(active := world.active + [pending[0]]);
      admitted := [pending[0]];
      taken := true;
      pending := pending[1..];
    }

    /** `_finish`; the ghost index names the worker whose item this is. */
    method FinishWork(item: Item, ok: bool, ghost index: nat)
      requires index < |world.active| && world.active[index] == item
      modifies this
      ensures View() == Next(old(View()), if ok then FinishOk(index) else FinishFailed(index))
    {
      if ok {
        running := running - 1;
        ready := ready + [item];
        world := world.(active := RemoveAt(world.active, index), finished := world.finished + [item]);
      } else {
        DropRunning(item, index);
        BreakDown();
      }
    }

    method DropRunning(item: Item, ghost index: nat)
      requires index < |world.active| && world.active[index] == item
      modifies this
      ensures View() == Failed(old(View()), index)
    {
      running := running - 1;
      tokens := tokens - {item.ticket};
      world := world.(active := RemoveAt(world.active, index), lost := world.lost + [item]);
    }

    /** The second critical section of `shutdown`, after every worker has been joined. */
    method FinishShutdown(preserveCompletions: bool)
      requires Enabled(View(), ShutdownEnd)
      modifies this
      ensures var down := Next(old(View()), ShutdownEnd);
              View() == if preserveCompletions then down else Next(down, SchedulerModel.Discard)
      ensures ready == if preserveCompletions then old(ready) else []
    {
      workers := 0;
      pending := [];
      world := world.(exited := 0, shutDown := true);
      if !preserveCompletions {
        DiscardCompletions();
      }
    }

    method DiscardCompletions()
      requires world.shutDown
      modifies this
      ensures View() == Next(old(View()), SchedulerModel.Discard)
    {
      world := world.(departed := world.departed + DropAll(ready), discarded := true);
      ready := [];
      tokens := {};
      residents := 0;
    }
  }

  lemma {:induction false} FirstIs(items: seq<Item>, i: nat, claim: Claim)
    requires i <= |items| && (i < |items| ==> Claims(claim, items[i].context))
    requires forall j :: 0 <= j < i ==> !Claims(claim, items[j].context)
    ensures FirstClaimed(items, claim) == i
  {
    if i > 0 {
      FirstIs(items[1..], i - 1, claim);
    }
  }

  lemma TicketsOfNext(items: seq<Item>, i: nat)
    requires i < |items|
    ensures TicketsOf(items[..i + 1]) == TicketsOf(items[..i]) + {items[i].ticket}
  {
    assert items[..i + 1] == items[..i] + [items[i]];
    TicketsOfConcat(items[..i], [items[i]]);
    assert TicketsOf([items[i]]) == {items[i].ticket};
  }

  lemma SplitNext(items: seq<Item>, i: nat, claim: Claim)
    requires i < |items|
    ensures var owned := Claims(claim, items[i].context);
            && |Select(items[..i + 1], claim)| == |Select(items[..i], claim)| + (if owned then 1 else 0)
            && Reject(items[..i + 1], claim) == Reject(items[..i], claim) + (if owned then [] else [items[i]])
            && TicketsOf(Select(items[..i + 1], claim))
               == TicketsOf(Select(items[..i], claim)) + (if owned then {items[i].ticket} else {})
  {
    assert items[..i + 1] == items[..i] + [items[i]];
    SelectConcat(items[..i], [items[i]], claim);
    RejectConcat(items[..i], [items[i]], claim);
    TicketsOfConcat(Select(items[..i], claim), Select([items[i]], claim));
    assert TicketsOf([items[i]]) == {items[i].ticket};
  }

  lemma {:induction false} RejectConcat(a: seq<Item>, b: seq<Item>, claim: Claim)
    ensures Reject(a + b, claim) == Reject(a, claim) + Reject(b, claim)
  {
    if a == [] {
      assert a + b == b;
    } else {
      assert (a + b)[0] == a[0] && (a + b)[1..] == a[1..] + b;
      RejectConcat(a[1..], b, claim);
      Regroup(if Claims(claim, a[0].context) then [] else [a[0]], Reject(a[1..], claim), Reject(b, claim));
    }
  }
}
