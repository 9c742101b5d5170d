/** What becomes of a worker when its lease ends, over every interleaving: a discarded one is
    never used again, a released one goes back to the queue while the set is open. */
module WorkerFates {
  import opened Basics
  import opened WorkerSet

  // ---------- two more facts of every run ----------

  /** A closing thread past its snapshot finds the snapshot taken. */
  ghost predicate Snapped(s: Pool) {
    forall i :: 0 <= i < |s.threads| && PastSnapshot(s.threads[i]) ==> s.shared.snapped
  }

  predicate PastSnapshot(pc: Pc) {
    pc.CloseKilling? || pc.Draining? || pc.Refilling?
  }

  /** A registered worker is queued or in some thread's hands. */
  ghost predicate LiveInSlots(s: Pool) {
    forall w: Worker :: w in s.shared.live ==> Some(w) in Slots(s)
  }

  ghost predicate Known(s: Pool) {
    Inv(s) && Snapped(s) && LiveInSlots(s)
  }

  lemma ActSnaps(h: Shared, i: nat, pc: Pc, c: Choice)
    requires CanAct(h, pc, c) && (PastSnapshot(pc) ==> h.snapped)
    ensures var o := Act(h, i, pc, c);
            (h.snapped ==> o.shared.snapped) && (PastSnapshot(o.pc) ==> o.shared.snapped)
  {
  }

  lemma StepSnaps(s: Pool, m: Move)
    requires Snapped(s) && Enabled(s, m)
    ensures Snapped(Next(s, m))
  {
    ActSnaps(s.shared, m.thread, s.threads[m.thread], m.choice);
  }

  lemma ActRegisters(h: Shared, i: nat, pc: Pc, c: Choice, w: Worker)
    requires CanAct(h, pc, c) && w in Act(h, i, pc, c).shared.live
    ensures w in h.live || (pc.Enrolling? && pc.worker == w)
    ensures pc.Enrolling? ==> ChangeOf(h, pc, c) == Same
  {
  }

  /** What a step empties is not registered. */
  lemma ReplacedIsNotLive(s: Pool, m: Move, w: Worker)
    requires Inv(s) && Snapped(s) && Enabled(s, m)
    requires var change := ChangeOf(s.shared, s.threads[m.thread], m.choice);
             change.Replace? && change.before == Some(w)
    ensures w !in s.shared.live
  {
    var pc := s.threads[m.thread];
    if pc.Rejecting? || pc.Killing? {
      assert w in Owes(pc);
    }
  }

  lemma HandInSlots(s: Pool, i: nat, slot: Option<Worker>)
    requires i < |s.threads| && slot in Hand(s.threads[i])
    ensures slot in Slots(s)
  {
    SumMember(Hands(s.threads), i);
    assert Hands(s.threads)[i] == InHand(s.threads[i]);
  }

  lemma StepKeepsLiveInSlots(s: Pool, m: Move)
    requires Known(s) && Enabled(s, m)
    ensures LiveInSlots(Next(s, m))
  {
    var n := Next(s, m);
    StepBalances(s, m);
    forall w: Worker | w in n.shared.live ensures Some(w) in Slots(n) {
      ActRegisters(s.shared, m.thread, s.threads[m.thread], m.choice, w);
      if w !in s.shared.live {
        HandInSlots(s, m.thread, Some(w));
      } else if ChangeOf(s.shared, s.threads[m.thread], m.choice).Replace? {
        var change := ChangeOf(s.shared, s.threads[m.thread], m.choice);
        if change.before == Some(w) {
          ReplacedIsNotLive(s, m, w);
        }
        assert (Slots(s) + multiset{change.after})[Some(w)] == (Slots(n) + multiset{change.before})[Some(w)];
      }
    }
  }

  lemma StepKnown(s: Pool, m: Move)
    requires Known(s) && Enabled(s, m)
    ensures Known(Next(s, m))
  {
    StepKeeps(s, m);
    StepSnaps(s, m);
    StepKeepsLiveInSlots(s, m);
  }

  lemma {:induction false} RunKnown(s: Pool, moves: seq<Move>)
    requires Known(s) && Legal(s, moves)
    ensures Known(Exec(s, moves))
    decreases |moves|
  {
    if moves != [] {
      StepKnown(s, moves[0]);
      RunKnown(Next(s, moves[0]), moves[1..]);
    }
  }

  lemma InitKnown(width: nat, threads: nat)
    ensures Known(Init(width, threads))
  {
    InitHolds(width, threads);
  }

  // ---------- what a thread puts back ----------

  /** When thread `i` next becomes idle it does so by appending the given slot to the queue. */
  ghost predicate PutsBack(s: Pool, moves: seq<Move>, i: nat, slot: Option<Worker>)
    requires Legal(s, moves) && i < |s.threads|
    decreases |moves|
  {
    moves != [] &&
      var n := Next(s, moves[0]);
      if n.threads[i] == Idle then moves[0].thread == i && n.shared.slots == s.shared.slots + [slot]
      else PutsBack(n, moves[1..], i, slot)
  }

  predicate Undoing(pc: Pc) {
    pc.Retiring? || pc.Killing? || pc.Freeing?
  }

  /** A thread that retires a worker, or could not spawn one, puts back an empty slot. */
  lemma {:induction false} UndoingPutsBackEmpty(s: Pool, i: nat, moves: seq<Move>)
    requires i < |s.threads| && Undoing(s.threads[i]) && Legal(s, moves)
    ensures Undoing(Exec(s, moves).threads[i]) || PutsBack(s, moves, i, None)
    decreases |moves|
  {
    if moves != [] {
      var n := Next(s, moves[0]);
      if n.threads[i] != Idle {
        UndoingPutsBackEmpty(n, i, moves[1..]);
      }
    }
  }

  // ---------- a discarded worker ----------

  /** `w` is in the hands of the thread that retires it, or nowhere. */
  ghost predicate Doomed(s: Pool, i: nat, w: Worker) {
    && i < |s.threads| && w < s.shared.spawned
    && (s.threads[i] == Retiring(w) || s.threads[i] == Killing(w) || Slots(s)[Some(w)] == 0)
  }

  lemma NowhereStaysNowhere(s: Pool, m: Move, w: Worker)
    requires Enabled(s, m) && w < s.shared.spawned && Slots(s)[Some(w)] == 0
    ensures w < Next(s, m).shared.spawned && Slots(Next(s, m))[Some(w)] == 0
  {
    StepBalances(s, m);
    var n := Next(s, m);
    match ChangeOf(s.shared, s.threads[m.thread], m.choice)
    case Same =>
    case Replace(before, after) =>
      assert (Slots(s) + multiset{after})[Some(w)] == (Slots(n) + multiset{before})[Some(w)];
  }

  lemma RetiringEmpties(s: Pool, i: nat, w: Worker, c: Choice)
    requires Known(s) && i < |s.threads| && Enabled(s, Move(i, c))
    requires s.threads[i] == Retiring(w) || s.threads[i] == Killing(w)
    ensures Doomed(Next(s, Move(i, c)), i, w)
  {
    var m := Move(i, c);
    var n := Next(s, m);
    HandInSlots(s, i, Some(w));
    StepBalances(s, m);
    if n.threads[i] != Killing(w) {
      assert ChangeOf(s.shared, s.threads[i], c) == Replace(Some(w), None);
      assert (Slots(s) + multiset{None})[Some(w)] == (Slots(n) + multiset{Some(w)})[Some(w)];
    }
  }

  lemma StepDooms(s: Pool, m: Move, i: nat, w: Worker)
    requires Known(s) && Enabled(s, m) && Doomed(s, i, w)
    ensures Doomed(Next(s, m), i, w)
  {
    if Slots(s)[Some(w)] == 0 {
      NowhereStaysNowhere(s, m, w);
    } else if m.thread == i {
      RetiringEmpties(s, i, w, m.choice);
    } else {
      StepBalances(s, m);
    }
  }

  lemma {:induction false} RunDooms(s: Pool, moves: seq<Move>, i: nat, w: Worker)
    requires Known(s) && Legal(s, moves) && Doomed(s, i, w)
    ensures Known(Exec(s, moves)) && Doomed(Exec(s, moves), i, w)
    decreases |moves|
  {
    if moves != [] {
      StepDooms(s, moves[0], i, w);
      StepKnown(s, moves[0]);
      RunDooms(Next(s, moves[0]), moves[1..], i, w);
    }
  }

  /** About to be terminated by a close. */
  ghost predicate Condemned(s: Pool, w: Worker) {
    exists j :: 0 <= j < |s.threads| && s.threads[j].CloseKilling? && w in s.threads[j].condemned
  }

  /** A worker that is nowhere has been terminated, or a close is about to. */
  lemma NowhereIsTerminated(s: Pool, w: Worker)
    requires Known(s) && w < s.shared.spawned && Slots(s)[Some(w)] == 0
    ensures w !in s.shared.live && (w in s.shared.terminated || Condemned(s, w))
  {
    if w !in s.shared.terminated {
      assert Owed(s.threads, w);
      var j :| 0 <= j < |s.threads| && w in Owes(s.threads[j]);
      if !s.threads[j].CloseKilling? {
        assert Some(w) in Hand(s.threads[j]);
        HandInSlots(s, j, Some(w));
      }
    }
  }

  lemma NowhereIsNobodys(s: Pool, i: nat, w: Worker)
    requires Known(s) && Doomed(s, i, w)
    ensures Some(w) !in s.shared.slots
    ensures forall j :: 0 <= j < |s.threads| && j != i ==> Some(w) !in Hand(s.threads[j])
  {
    if Slots(s)[Some(w)] == 0 {
      forall j | 0 <= j < |s.threads| ensures Some(w) !in Hand(s.threads[j]) {
        if Some(w) in Hand(s.threads[j]) { HandInSlots(s, j, Some(w)); }
      }
    } else {
      HeldOnce(s, i, w);
    }
  }

  /** Once a thread discards the lease of a worker, in every run: no other thread ever holds it
      and it is never queued again; when the thread has let go of it, it is terminated, or a close
      is about to terminate it; and the thread next becomes idle by putting back an empty slot. */
  lemma DiscardedForGood(width: nat, threads: nat, before: seq<Move>, i: nat, w: Worker, after: seq<Move>)
    requires Legal(Init(width, threads), before)
    requires var s := Exec(Init(width, threads), before);
             i < |s.threads| && s.threads[i] == Leased(w) && Legal(Next(s, Move(i, Discard)), after)
    ensures var d := Next(Exec(Init(width, threads), before), Move(i, Discard));
            var e := Exec(d, after);
            && Some(w) !in e.shared.slots
            && (forall j :: 0 <= j < |e.threads| && j != i ==> Some(w) !in Hand(e.threads[j]))
            && (e.threads[i] == Retiring(w) || e.threads[i] == Killing(w)
                || (w !in e.shared.live && (w in e.shared.terminated || Condemned(e, w))))
            && (Undoing(e.threads[i]) || PutsBack(d, after, i, None))
  {
    var s := Exec(Init(width, threads), before);
    InitKnown(width, threads);
    RunKnown(Init(width, threads), before);
    var d := Next(s, Move(i, Discard));
    StepKnown(s, Move(i, Discard));
    HeldOnce(s, i, w);
    RunDooms(d, after, i, w);
    var e := Exec(d, after);
    NowhereIsNobodys(e, i, w);
    if Slots(e)[Some(w)] == 0 {
      NowhereIsTerminated(e, w);
    }
    UndoingPutsBackEmpty(d, i, after);
  }

  // ---------- a released worker ----------

  predicate GivingBack(pc: Pc, w: Worker) {
    pc == Releasing(w) || pc == Returning(w)
  }

  lemma {:induction false} OpenStays(s: Pool, moves: seq<Move>)
    requires Legal(s, moves) && !Exec(s, moves).shared.closed
    ensures !s.shared.closed
    decreases |moves|
  {
    if moves != [] {
      OpenStays(Next(s, moves[0]), moves[1..]);
      ActShuts(s.shared, moves[0].thread, s.threads[moves[0].thread], moves[0].choice);
    }
  }

  lemma {:induction false} GivingBackPutsBackTheWorker(s: Pool, i: nat, w: Worker, moves: seq<Move>)
    requires Inv(s) && i < |s.threads| && GivingBack(s.threads[i], w) && Legal(s, moves)
    requires !Exec(s, moves).shared.closed
    ensures var e := Exec(s, moves);
            || (GivingBack(e.threads[i], w) && w in e.shared.live && w !in e.shared.terminated)
            || PutsBack(s, moves, i, Some(w))
    decreases |moves|
  {
    OpenStays(s, moves);
    assert Tended(s.shared, s.threads[i]);
    if moves != [] {
      var n := Next(s, moves[0]);
      StepKeeps(s, moves[0]);
      if n.threads[i] != Idle {
        GivingBackPutsBackTheWorker(n, i, w, moves[1..]);
      }
    }
  }

  lemma ReleaseGivesBack(s: Pool, i: nat, w: Worker, after: seq<Move>)
    requires Inv(s) && i < |s.threads| && s.threads[i] == Leased(w) && Legal(Next(s, Move(i, Proceed)), after)
    requires !Exec(Next(s, Move(i, Proceed)), after).shared.closed
    ensures var r := Next(s, Move(i, Proceed));
            var e := Exec(r, after);
            || (GivingBack(e.threads[i], w) && w in e.shared.live && w !in e.shared.terminated)
            || PutsBack(r, after, i, Some(w))
  {
    StepKeeps(s, Move(i, Proceed));
    GivingBackPutsBackTheWorker(Next(s, Move(i, Proceed)), i, w, after);
  }

  /** A lease that ends without a discard, in every run in which the set stays open: the worker
      goes back to the queue, registered and not terminated until then. */
  lemma ReleasedAlive(width: nat, threads: nat, before: seq<Move>, i: nat, w: Worker, after: seq<Move>)
    requires Legal(Init(width, threads), before)
    requires var s := Exec(Init(width, threads), before);
             && i < |s.threads| && s.threads[i] == Leased(w) && Legal(Next(s, Move(i, Proceed)), after)
             && !Exec(Next(s, Move(i, Proceed)), after).shared.closed
    ensures var r := Next(Exec(Init(width, threads), before), Move(i, Proceed));
            var e := Exec(r, after);
            || (GivingBack(e.threads[i], w) && w in e.shared.live && w !in e.shared.terminated)
            || PutsBack(r, after, i, Some(w))
  {
    InitHolds(width, threads);
    RunKeeps(Init(width, threads), before);
    ReleaseGivesBack(Exec(Init(width, threads), before), i, w, after);
  }

  // ---------- after the closed flag ----------

  lemma ClosedStays(s: Pool, m: Move)
    requires s.shared.closed && Enabled(s, m)
    ensures Next(s, m).shared.closed
  {
    ActShuts(s.shared, m.thread, s.threads[m.thread], m.choice);
  }

  /** A lease released after the flag is retired: the thread puts back an empty slot. */
  lemma {:induction false} ReleasedAfterCloseIsRetired(s: Pool, i: nat, moves: seq<Move>)
    requires s.shared.closed && i < |s.threads| && s.threads[i].Releasing? && Legal(s, moves)
    ensures var pc := Exec(s, moves).threads[i];
            pc.Releasing? || Undoing(pc) || PutsBack(s, moves, i, None)
    decreases |moves|
  {
    if moves != [] {
      var n := Next(s, moves[0]);
      ClosedStays(s, moves[0]);
      if n.threads[i].Releasing? {
        ReleasedAfterCloseIsRetired(n, i, moves[1..]);
      } else {
        UndoingPutsBackEmpty(n, i, moves[1..]);
      }
    }
  }

  predicate Outside(pc: Pc) {
    pc.Idle? || pc.Entering? || pc.CloseEntering?
  }

  /** A thread that comes after the flag, for a lease or for another close, gets and does nothing. */
  lemma {:induction false} LatecomersGetNothing(s: Pool, i: nat, moves: seq<Move>)
    requires s.shared.closed && i < |s.threads| && Outside(s.threads[i]) && Legal(s, moves)
    ensures Outside(Exec(s, moves).threads[i])
    decreases |moves|
  {
    if moves != [] {
      ClosedStays(s, moves[0]);
      LatecomersGetNothing(Next(s, moves[0]), i, moves[1..]);
    }
  }

  lemma OutsiderTouchesNothing(s: Pool, m: Move)
    requires s.shared.closed && Enabled(s, m) && Outside(s.threads[m.thread])
    ensures Next(s, m).shared == s.shared
  {
  }

  /** A worker that a drain takes from the queue has been terminated when the drain lets go of it. */
  lemma {:induction false} DrainedIsTerminated(s: Pool, i: nat, w: Worker, moves: seq<Move>)
    requires i < |s.threads| && (s.threads[i].Draining? || s.threads[i].Refilling?) && Legal(s, moves)
    requires Some(w) in s.threads[i].taken
    ensures var e := Exec(s, moves);
            || w in e.shared.terminated
            || ((e.threads[i].Draining? || e.threads[i].Refilling?) && Some(w) in e.threads[i].taken)
    decreases |moves|
  {
    if moves != [] {
      var n := Next(s, moves[0]);
      if w in n.shared.terminated {
        TerminatedStays(n, moves[1..], w);
      } else {
        if moves[0].thread == i && s.threads[i].Refilling? {
          assert s.threads[i].taken == [s.threads[i].taken[0]] + s.threads[i].taken[1..];
        }
        DrainedIsTerminated(n, i, w, moves[1..]);
      }
    }
  }

  lemma {:induction false} TerminatedStays(s: Pool, moves: seq<Move>, w: Worker)
    requires Legal(s, moves) && w in s.shared.terminated
    ensures w in Exec(s, moves).shared.terminated
    decreases |moves|
  {
    if moves != [] {
      assert w in Next(s, moves[0]).shared.terminated by {
        ActTerminates(s.shared, moves[0].thread, s.threads[moves[0].thread], moves[0].choice);
      }
      TerminatedStays(Next(s, moves[0]), moves[1..], w);
    }
  }

  lemma ActTerminates(h: Shared, i: nat, pc: Pc, c: Choice)
    requires CanAct(h, pc, c)
    ensures h.terminated <= Act(h, i, pc, c).shared.terminated
  {
  }

  /** A job that gives up waiting, or whose worker could not be spawned, costs no worker: giving
      up touches nothing, a failed spawn puts its slot back empty. */
  lemma GivingUpCostsNothing(s: Pool, i: nat, moves: seq<Move>)
    requires i < |s.threads|
    ensures s.threads[i].AwaitingSlot? ==>
              var n := Next(s, Move(i, GiveUp));
              n.threads[i] == Idle && n.shared == s.shared
    ensures s.threads[i].GotEmpty? && Legal(Next(s, Move(i, SpawnFails)), moves) ==>
              var n := Next(s, Move(i, SpawnFails));
              && n.shared == s.shared
              && (Undoing(Exec(n, moves).threads[i]) || PutsBack(n, moves, i, None))
  {
    if s.threads[i].GotEmpty? && Legal(Next(s, Move(i, SpawnFails)), moves) {
      UndoingPutsBackEmpty(Next(s, Move(i, SpawnFails)), i, moves);
    }
  }

  // ---------- the queue of slots ----------

  /** The slot that a step of a thread appends to the queue, if any. */
  function Arriving(pc: Pc): seq<Option<Worker>> {
    if pc.Returning? then [Some(pc.worker)]
    else if pc.Rejected? || pc.Freeing? || (pc.Refilling? && pc.taken != []) then [None]
    else []
  }

  /** The slot that a thread has just taken into its hands, if any. */
  function Leaving(before: Pc, after: Pc): seq<Option<Worker>> {
    if before.AwaitingSlot? || (before.Draining? && after.Draining?) then LastOf(Hand(after)) else []
  }

  function LastOf(slots: seq<Option<Worker>>): seq<Option<Worker>> {
    if slots == [] then [] else [slots[|slots| - 1]]
  }

  lemma ActQueues(h: Shared, i: nat, pc: Pc, c: Choice)
    requires CanAct(h, pc, c)
    ensures var o := Act(h, i, pc, c);
            h.slots + Arriving(pc) == Leaving(pc, o.pc) + o.shared.slots
  {
    if Takes(h, pc, c) {
      assert h.slots == [h.slots[0]] + h.slots[1..];
    }
  }

  ghost function Arrivals(s: Pool, moves: seq<Move>): seq<Option<Worker>>
    requires Legal(s, moves)
    decreases |moves|
  {
    if moves == [] then []
    else Arriving(s.threads[moves[0].thread]) + Arrivals(Next(s, moves[0]), moves[1..])
  }

  ghost function Departures(s: Pool, moves: seq<Move>): seq<Option<Worker>>
    requires Legal(s, moves)
    decreases |moves|
  {
    if moves == [] then []
    else
      var n := Next(s, moves[0]);
      Leaving(s.threads[moves[0].thread], n.threads[moves[0].thread]) + Departures(n, moves[1..])
  }

  /** In every run slots leave the queue in the order in which they came: what was in it, followed
      by what was put back, is what was taken, followed by what is in it. */
  lemma {:induction false} SlotsAreServedInOrder(s: Pool, moves: seq<Move>)
    requires Legal(s, moves)
    ensures s.shared.slots + Arrivals(s, moves) == Departures(s, moves) + Exec(s, moves).shared.slots
    decreases |moves|
  {
    if moves != [] {
      var n := Next(s, moves[0]);
      var pc := s.threads[moves[0].thread];
      var (arriving, leaving) := (Arriving(pc), Leaving(pc, n.threads[moves[0].thread]));
      ActQueues(s.shared, moves[0].thread, pc, moves[0].choice);
      SlotsAreServedInOrder(n, moves[1..]);
      Regroup(s.shared.slots, arriving, Arrivals(n, moves[1..]));
      Regroup(leaving, n.shared.slots, Arrivals(n, moves[1..]));
      Regroup(leaving, Departures(n, moves[1..]), Exec(s, moves).shared.slots);
    }
  }

  // ---------- a lease for the asking ----------

  /** A run of the thread's own moves, without a stop or a failed spawn, brings it there. */
  ghost predicate Reaches(s: Pool, i: nat, pc: Pc) {
    exists moves :: OwnRun(s, i, pc, moves)
  }

  predicate Willing(c: Choice) {
    c == Job || c == Close || c == Proceed
  }

  ghost predicate OwnRun(s: Pool, i: nat, pc: Pc, moves: seq<Move>) {
    && i < |s.threads| && Legal(s, moves) && Exec(s, moves).threads[i] == pc
    && forall m :: m in moves ==> m.thread == i && Willing(m.choice)
  }

  lemma ReachesNow(s: Pool, i: nat)
    requires i < |s.threads|
    ensures Reaches(s, i, s.threads[i])
  {
    assert OwnRun(s, i, s.threads[i], []);
  }

  lemma ReachesLater(s: Pool, i: nat, c: Choice, pc: Pc)
    requires Enabled(s, Move(i, c)) && Willing(c) && Reaches(Next(s, Move(i, c)), i, pc)
    ensures Reaches(s, i, pc)
  {
    var moves :| OwnRun(Next(s, Move(i, c)), i, pc, moves);
    var all := [Move(i, c)] + moves;
    assert all[1..] == moves;
    assert OwnRun(s, i, pc, all);
  }

  lemma EmptySlotGetsAFreshWorker(s: Pool, i: nat)
    requires i < |s.threads| && s.threads[i] == GotEmpty && !s.shared.closed && s.shared.lock == None
    ensures Reaches(s, i, Leased(s.shared.spawned))
  {
    var w := s.shared.spawned;
    var a := Next(s, Move(i, Proceed));
    var b := Next(a, Move(i, Proceed));
    var c := Next(b, Move(i, Proceed));
    var d := Next(c, Move(i, Proceed));
    assert d.threads[i] == Leased(w);
    ReachesNow(d, i);
    ReachesLater(c, i, Proceed, Leased(w));
    ReachesLater(b, i, Proceed, Leased(w));
    ReachesLater(a, i, Proceed, Leased(w));
    ReachesLater(s, i, Proceed, Leased(w));
  }

  lemma AwaitedSlotGetsItsWorker(s: Pool, i: nat)
    requires i < |s.threads| && s.threads[i] == AwaitingSlot
    requires !s.shared.closed && s.shared.lock == None && s.shared.slots != []
    ensures Reaches(s, i, Leased(WorkerFor(s.shared)))
  {
    var a := Next(s, Move(i, Proceed));
    if s.shared.slots[0].Some? {
      var b := Next(a, Move(i, Proceed));
      ReachesNow(b, i);
      ReachesLater(a, i, Proceed, Leased(WorkerFor(s.shared)));
    } else {
      EmptySlotGetsAFreshWorker(a, i);
    }
    ReachesLater(s, i, Proceed, Leased(WorkerFor(s.shared)));
  }

  /** The worker a job gets: that of the oldest slot, or the next one to be spawned. */
  function WorkerFor(h: Shared): Worker
    requires h.slots != []
  {
    if h.slots[0].Some? then h.slots[0].value else h.spawned
  }

  /** In an open set with a free slot and a free lock a job gets the worker of the oldest slot, or
      a fresh one when that slot is empty, by its own moves. */
  lemma AJobGetsAWorker(s: Pool, i: nat)
    requires i < |s.threads| && s.threads[i] == Idle
    requires !s.shared.closed && s.shared.lock == None && s.shared.slots != []
    ensures Enabled(s, Move(i, Job)) && Reaches(Next(s, Move(i, Job)), i, Leased(WorkerFor(s.shared)))
  {
    var a := Next(s, Move(i, Job));
    var b := Next(a, Move(i, Proceed));
    AwaitedSlotGetsItsWorker(b, i);
    ReachesLater(a, i, Proceed, Leased(WorkerFor(s.shared)));
  }

  /** A close that finds the set open sets the flag by its own moves. */
  lemma ACloseSetsTheFlag(s: Pool, i: nat)
    requires i < |s.threads| && s.threads[i] == Idle && !s.shared.closed
    ensures Enabled(s, Move(i, Close))
    ensures Reaches(Next(s, Move(i, Close)), i, CloseSnapshot)
  {
    var a := Next(s, Move(i, Close));
    var b := Next(a, Move(i, Proceed));
    var c := Next(b, Move(i, Proceed));
    ReachesNow(c, i);
    ReachesLater(b, i, Proceed, CloseSnapshot);
    ReachesLater(a, i, Proceed, CloseSnapshot);
  }
}
