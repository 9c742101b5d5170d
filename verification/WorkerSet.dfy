/** The fixed-width set of worker processes: job threads leasing, spawning, registering,
    releasing and retiring, and closing threads, under every interleaving.

    The slot queue and the closed flag are accessed without the lock; only registration,
    retirement and the closing snapshot hold it. */
module WorkerSet {
  import opened Basics

  type Worker = nat

  /** Where a thread is; a worker argument is the one in its hands. */
  datatype Pc =
    | Idle
    | Entering | AwaitingSlot
    | GotWorker(worker: Worker) | GotEmpty
    | Spawned(worker: Worker)
    | Registering(worker: Worker) | Enrolling(worker: Worker) | Rejecting(worker: Worker) | Rejected
    | Leased(worker: Worker)
    | Releasing(worker: Worker) | Returning(worker: Worker)
    | Retiring(worker: Worker) | Killing(worker: Worker) | Freeing
    | CloseEntering | CloseSetting | CloseSnapshot
    | CloseKilling(condemned: set<Worker>)
    | Draining(taken: seq<Option<Worker>>) | Refilling(taken: seq<Option<Worker>>)

  /** What a thread may choose where the code leaves a choice to its caller or the system. */
  datatype Choice = Job | Close | Proceed | GiveUp | SpawnFails | Discard | Kill(worker: Worker)

  /** What the threads share. */
  datatype Shared = Shared(
    slots: seq<Option<Worker>>, live: set<Worker>, closed: bool, lock: Option<nat>,
    spawned: nat, terminated: set<Worker>, snapped: bool)

  datatype Pool = Pool(width: nat, shared: Shared, threads: seq<Pc>)

  datatype Outcome = Outcome(shared: Shared, pc: Pc)

  function Init(width: nat, threads: nat): Pool {
    Pool(width, Shared(seq(width, _ => None), {}, false, None, 0, {}, false), seq(threads, _ => Idle))
  }

  predicate CanAct(h: Shared, pc: Pc, c: Choice) {
    match pc
    case Idle => c == Job || c == Close
    case AwaitingSlot => c == GiveUp || (c == Proceed && h.slots != [])
    case GotEmpty => c == Proceed || c == SpawnFails
    case Leased(_) => c == Proceed || c == Discard
    case Spawned(_) => c == Proceed && h.lock == None
    case Retiring(_) => c == Proceed && h.lock == None
    case CloseSnapshot => c == Proceed && h.lock == None
    case CloseKilling(condemned) => if condemned == {} then c == Proceed else c.Kill? && c.worker in condemned
    case _ => c == Proceed
  }

  /** One atomic step of thread `i`. */
  function Act(h: Shared, i: nat, pc: Pc, c: Choice): Outcome
    requires CanAct(h, pc, c)
  {
    match pc
    case Idle => Outcome(h, if c == Job then Entering else CloseEntering)
    case Entering => Outcome(h, if h.closed then Idle else AwaitingSlot)
    case AwaitingSlot =>
      if c == GiveUp then Outcome(h, Idle)
      else Outcome(h.(slots := h.slots[1..]),
                   if h.slots[0].Some? then GotWorker(h.slots[0].value) else GotEmpty)
    case GotWorker(w) => Outcome(h, if h.closed then Retiring(w) else Leased(w))
    case GotEmpty =>
      if c == SpawnFails then Outcome(h, Freeing)
      else Outcome(h.(spawned := h.spawned + 1), Spawned(h.spawned))
    case Spawned(w) => Outcome(h.(lock := Some(i)), Registering(w))
    case Registering(w) => Outcome(h, if h.closed then Rejecting(w) else Enrolling(w))
    case Enrolling(w) => Outcome(h.(live := h.live + {w}, lock := None), Leased(w))
    case Rejecting(w) => Outcome(h.(terminated := h.terminated + {w}), Rejected)
    case Rejected => Outcome(h.(slots := h.slots + [None], lock := None), Idle)
    case Leased(w) => Outcome(h, if c == Discard then Retiring(w) else Releasing(w))
    case Releasing(w) => Outcome(h, if h.closed then Retiring(w) else Returning(w))
    case Returning(w) => Outcome(h.(slots := h.slots + [Some(w)]), Idle)
    case Retiring(w) => Outcome(h.(live := h.live - {w}), if w in h.live then Killing(w) else Freeing)
    case Killing(w) => Outcome(h.(terminated := h.terminated + {w}), Freeing)
    case Freeing => Outcome(h.(slots := h.slots + [None]), Idle)
    case CloseEntering => Outcome(h, if h.closed then Idle else CloseSetting)
    case CloseSetting => Outcome(h.(closed := true), CloseSnapshot)
    case CloseSnapshot => Outcome(h.(live := {}, snapped := true), CloseKilling(h.live))
    case CloseKilling(condemned) =>
      if condemned == {} then Outcome(h, Draining([]))
      else Outcome(h.(terminated := h.terminated + {c.worker}), CloseKilling(condemned - {c.worker}))
    case Draining(taken) =>
      if h.slots == [] then Outcome(h, Refilling(taken))
      else Outcome(h.(slots := h.slots[1..]), Draining(taken + [h.slots[0]]))
    case Refilling(taken) =>
      if taken == [] then Outcome(h, Idle)
      else Outcome(h.(slots := h.slots + [None],
                      terminated := if taken[0].Some? then h.terminated + {taken[0].value} else h.terminated),
                   Refilling(taken[1..]))
  }

  datatype Move = Move(thread: nat, choice: Choice)

  predicate Enabled(s: Pool, m: Move) {
    m.thread < |s.threads| && CanAct(s.shared, s.threads[m.thread], m.choice)
  }

  function Next(s: Pool, m: Move): Pool
    requires Enabled(s, m)
  {
    var o := Act(s.shared, m.thread, s.threads[m.thread], m.choice);
    Pool(s.width, o.shared, s.threads[m.thread := o.pc])
  }

  ghost predicate Legal(s: Pool, moves: seq<Move>)
    decreases |moves|
  {
    moves != [] ==> Enabled(s, moves[0]) && Legal(Next(s, moves[0]), moves[1..])
  }

  ghost function Exec(s: Pool, moves: seq<Move>): (e: Pool)
    requires Legal(s, moves)
    ensures |e.threads| == |s.threads|
    decreases |moves|
  {
    if moves == [] then s else Exec(Next(s, moves[0]), moves[1..])
  }

  // ---------- slots in hand ----------

  predicate HoldsWorker(pc: Pc) {
    pc.GotWorker? || pc.Spawned? || pc.Registering? || pc.Enrolling? || pc.Rejecting?
    || pc.Leased? || pc.Releasing? || pc.Returning? || pc.Retiring? || pc.Killing?
  }

  /** The slots a thread has taken from the queue and must give back. */
  function Hand(pc: Pc): seq<Option<Worker>> {
    if HoldsWorker(pc) then [Some(pc.worker)]
    else if pc.GotEmpty? || pc.Rejected? || pc.Freeing? then [None]
    else if pc.Draining? || pc.Refilling? then pc.taken
    else []
  }

  function InHand(pc: Pc): multiset<Option<Worker>> {
    multiset(Hand(pc))
  }

  function Sum<T>(parts: seq<multiset<T>>): multiset<T> {
    if parts == [] then multiset{} else parts[0] + Sum(parts[1..])
  }

  function Hands(threads: seq<Pc>): seq<multiset<Option<Worker>>> {
    seq(|threads|, i requires 0 <= i < |threads| => InHand(threads[i]))
  }

  function Slots(s: Pool): multiset<Option<Worker>> {
    multiset(s.shared.slots) + Sum(Hands(s.threads))
  }

  lemma {:induction false} SumUpdate<T>(parts: seq<multiset<T>>, i: nat, part: multiset<T>)
    requires i < |parts|
    ensures Sum(parts[i := part]) + parts[i] == Sum(parts) + part
  {
    var changed := parts[i := part];
    assert Sum(parts) == parts[0] + Sum(parts[1..]);
    assert Sum(changed) == changed[0] + Sum(changed[1..]);
    if i == 0 {
      assert changed[1..] == parts[1..];
    } else {
      assert changed[1..] == parts[1..][i - 1 := part];
      SumUpdate(parts[1..], i - 1, part);
      Shift(parts[0], Sum(changed[1..]), parts[i], Sum(parts[1..]), part);
    }
  }

  lemma Shift<T>(p: multiset<T>, a: multiset<T>, x: multiset<T>, b: multiset<T>, y: multiset<T>)
    requires a + x == b + y
    ensures p + a + x == p + b + y
  {
    assert p + a + x == p + (a + x);
    assert p + b + y == p + (b + y);
  }

  lemma {:induction false} SumMember<T>(parts: seq<multiset<T>>, i: nat)
    requires i < |parts|
    ensures parts[i] <= Sum(parts)
  {
    assert Sum(parts) == parts[0] + Sum(parts[1..]);
    if i > 0 {
      SumMember(parts[1..], i - 1);
      assert parts[1..][i - 1] == parts[i];
    }
  }

  lemma {:induction false} SumApart<T>(parts: seq<multiset<T>>, i: nat, j: nat)
    requires i < j < |parts|
    ensures parts[i] + parts[j] <= Sum(parts)
  {
    assert Sum(parts) == parts[0] + Sum(parts[1..]);
    if i == 0 {
      SumMember(parts[1..], j - 1);
      assert parts[1..][j - 1] == parts[j];
    } else {
      SumApart(parts[1..], i - 1, j - 1);
      assert parts[1..][i - 1] == parts[i] && parts[1..][j - 1] == parts[j];
    }
  }

  lemma {:induction false} SumEmpty<T>(parts: seq<multiset<T>>)
    requires forall i :: 0 <= i < |parts| ==> parts[i] == multiset{}
    ensures Sum(parts) == multiset{}
  {
    if parts != [] {
      SumEmpty(parts[1..]);
    }
  }

  // ---------- conservation ----------

  /** Queued, held and draining slots make up the width; no worker is in two places. */
  ghost predicate Counted(s: Pool) {
    && |Slots(s)| == s.width
    && (forall w: Worker :: Slots(s)[Some(w)] <= 1)
    && (forall w: Worker :: Some(w) in Slots(s) ==> w < s.shared.spawned)
  }

  /** A step either moves slots around or replaces the content of one. */
  datatype Change = Same | Replace(before: Option<Worker>, after: Option<Worker>)

  function ChangeOf(h: Shared, pc: Pc, c: Choice): Change {
    match pc
    case GotEmpty => if c == Proceed then Replace(None, Some(h.spawned)) else Same
    case Rejecting(w) => Replace(Some(w), None)
    case Killing(w) => Replace(Some(w), None)
    case Retiring(w) => if w in h.live then Same else Replace(Some(w), None)
    case Refilling(taken) => if taken == [] then Same else Replace(taken[0], None)
    case _ => Same
  }

  lemma TakeFirst(slots: seq<Option<Worker>>)
    requires slots != []
    ensures multiset(slots) == multiset{slots[0]} + multiset(slots[1..])
  {
    assert slots == [slots[0]] + slots[1..];
  }

  predicate Takes(h: Shared, pc: Pc, c: Choice) {
    h.slots != [] && ((pc.AwaitingSlot? && c == Proceed) || pc.Draining?)
  }

  predicate Puts(pc: Pc) {
    pc.Rejected? || pc.Freeing? || pc.Returning? || (pc.Refilling? && pc.taken != [])
  }

  lemma OthersKeepTheirHand(h: Shared, i: nat, pc: Pc, c: Choice)
    requires CanAct(h, pc, c) && !Takes(h, pc, c) && !Puts(pc) && ChangeOf(h, pc, c) == Same
    ensures Hand(Act(h, i, pc, c).pc) == Hand(pc)
  {
  }

  lemma TakingMovesASlot(h: Shared, i: nat, pc: Pc, c: Choice)
    requires CanAct(h, pc, c) && Takes(h, pc, c)
    ensures var o := Act(h, i, pc, c);
            && o.shared.slots == h.slots[1..]
            && Hand(o.pc) == Hand(pc) + [h.slots[0]]
  {
  }

  function PutBack(pc: Pc): Option<Worker> {
    if pc.Returning? then Some(pc.worker) else None
  }

  lemma PuttingMovesASlot(h: Shared, i: nat, pc: Pc, c: Choice)
    requires CanAct(h, pc, c) && Puts(pc) && !pc.Refilling?
    ensures var o := Act(h, i, pc, c);
            && o.shared.slots == h.slots + [PutBack(pc)]
            && Hand(o.pc) == [] && Hand(pc) == [PutBack(pc)]
  {
  }

  lemma OthersLeaveTheQueue(h: Shared, i: nat, pc: Pc, c: Choice)
    requires CanAct(h, pc, c) && !Takes(h, pc, c) && !Puts(pc)
    ensures Act(h, i, pc, c).shared.slots == h.slots
  {
  }

  lemma OnlySpawningCounts(h: Shared, i: nat, pc: Pc, c: Choice)
    requires CanAct(h, pc, c)
    ensures Act(h, i, pc, c).shared.spawned == h.spawned + if pc.GotEmpty? && c == Proceed then 1 else 0
  {
  }

  lemma EndsOfAQueue(slots: seq<Option<Worker>>, slot: Option<Worker>)
    ensures multiset(slots + [slot]) == multiset(slots) + multiset{slot}
  {
  }

  lemma TakeBalance(slots: seq<Option<Worker>>, hand: seq<Option<Worker>>)
    requires slots != []
    ensures multiset(slots) + multiset(hand) == multiset(slots[1..]) + multiset(hand + [slots[0]])
  {
    TakeFirst(slots);
    EndsOfAQueue(hand, slots[0]);
  }

  lemma PutBalance(slots: seq<Option<Worker>>, slot: Option<Worker>)
    ensures multiset(slots) + multiset([slot]) == multiset(slots + [slot]) + multiset([])
  {
    EndsOfAQueue(slots, slot);
  }

  /** Balance of a step that moves slots. */
  lemma ActExchanges(h: Shared, i: nat, pc: Pc, c: Choice)
    requires CanAct(h, pc, c) && ChangeOf(h, pc, c) == Same
    ensures var o := Act(h, i, pc, c);
            && multiset(h.slots) + InHand(pc) == multiset(o.shared.slots) + InHand(o.pc)
            && o.shared.spawned == h.spawned
  {
    if Takes(h, pc, c) {
      TakingMovesASlot(h, i, pc, c);
      TakeBalance(h.slots, Hand(pc));
    } else if Puts(pc) {
      PuttingMovesASlot(h, i, pc, c);
      PutBalance(h.slots, PutBack(pc));
    } else {
      OthersKeepTheirHand(h, i, pc, c);
    }
  }

  lemma RefillBalance(slots: seq<Option<Worker>>, taken: seq<Option<Worker>>)
    requires taken != []
    ensures multiset(slots) + multiset(taken) + multiset{None}
         == multiset(slots + [None]) + multiset(taken[1..]) + multiset{taken[0]}
  {
    TakeFirst(taken);
    EndsOfAQueue(slots, None);
  }

  lemma HandReplaced(h: Shared, i: nat, pc: Pc, c: Choice)
    requires CanAct(h, pc, c) && ChangeOf(h, pc, c).Replace? && !pc.Refilling?
    ensures Hand(pc) == [ChangeOf(h, pc, c).before]
    ensures Hand(Act(h, i, pc, c).pc) == [ChangeOf(h, pc, c).after]
    ensures pc.GotEmpty? || ChangeOf(h, pc, c).after == None
  {
  }

  /** Steps that change what is in a slot: the drain of a close empties one, the others change the one in hand. */
  ghost predicate Replaces(h: Shared, i: nat, pc: Pc, c: Choice, before: Option<Worker>, after: Option<Worker>)
    requires CanAct(h, pc, c)
  {
    var o := Act(h, i, pc, c);
    && before in InHand(pc)
    && multiset(h.slots) + InHand(pc) + multiset{after}
       == multiset(o.shared.slots) + InHand(o.pc) + multiset{before}
  }

  lemma RefillReplaces(h: Shared, i: nat, pc: Pc, c: Choice)
    requires CanAct(h, pc, c) && ChangeOf(h, pc, c).Replace? && pc.Refilling?
    ensures Replaces(h, i, pc, c, ChangeOf(h, pc, c).before, ChangeOf(h, pc, c).after)
    ensures ChangeOf(h, pc, c).after == None
  {
    RefillBalance(h.slots, pc.taken);
    assert pc.taken[0] in multiset(pc.taken);
  }

  lemma HandReplaces(h: Shared, i: nat, pc: Pc, c: Choice)
    requires CanAct(h, pc, c) && ChangeOf(h, pc, c).Replace? && !pc.Refilling?
    ensures Replaces(h, i, pc, c, ChangeOf(h, pc, c).before, ChangeOf(h, pc, c).after)
  {
    OthersLeaveTheQueue(h, i, pc, c);
    HandReplaced(h, i, pc, c);
  }

  lemma ActReplaces(h: Shared, i: nat, pc: Pc, c: Choice)
    requires CanAct(h, pc, c) && ChangeOf(h, pc, c).Replace?
    ensures var o := Act(h, i, pc, c);
            var (before, after) := (ChangeOf(h, pc, c).before, ChangeOf(h, pc, c).after);
            && Replaces(h, i, pc, c, before, after)
            && h.spawned <= o.shared.spawned
            && (after == None || (after == Some(h.spawned) && o.shared.spawned == h.spawned + 1))
  {
    OnlySpawningCounts(h, i, pc, c);
    if pc.Refilling? {
      RefillReplaces(h, i, pc, c);
    } else {
      HandReplaced(h, i, pc, c);
      HandReplaces(h, i, pc, c);
    }
  }

  lemma Swap<T>(s: multiset<T>, n: multiset<T>, a: multiset<T>, b: multiset<T>, h: multiset<T>, k: multiset<T>)
    requires b + h == a + k && s + h == n + k
    ensures s + a == n + b
  {
    forall x ensures (s + a)[x] == (n + b)[x] {
      assert (b + h)[x] == (a + k)[x] && (s + h)[x] == (n + k)[x];
    }
  }

  lemma SwapOne<T>(s: multiset<T>, n: multiset<T>, a: multiset<T>, b: multiset<T>, h: multiset<T>, k: multiset<T>,
                   before: T, after: T)
    requires b + h == a + k && s + h + multiset{after} == n + k + multiset{before}
    ensures s + a + multiset{after} == n + b + multiset{before}
  {
    forall x ensures (s + a + multiset{after})[x] == (n + b + multiset{before})[x] {
      assert (b + h)[x] == (a + k)[x];
      assert (s + h + multiset{after})[x] == (n + k + multiset{before})[x];
    }
  }

  lemma Replaced<T>(s: multiset<T>, n: multiset<T>, before: T, after: T)
    requires s + multiset{after} == n + multiset{before} && before in s
    ensures n == s - multiset{before} + multiset{after} && |n| == |s|
  {
    forall x ensures n[x] == (s - multiset{before} + multiset{after})[x] {
      assert (s + multiset{after})[x] == (n + multiset{before})[x];
    }
  }

  /** A step moves the slots around or replaces the content of one. */
  lemma StepBalances(s: Pool, m: Move)
    requires Enabled(s, m)
    ensures var n := Next(s, m);
            match ChangeOf(s.shared, s.threads[m.thread], m.choice)
            case Same => Slots(n) == Slots(s) && n.shared.spawned == s.shared.spawned
            case Replace(before, after) =>
              && Slots(s) + multiset{after} == Slots(n) + multiset{before} && before in Slots(s)
              && s.shared.spawned <= n.shared.spawned
              && (after == None || (after == Some(s.shared.spawned) && n.shared.spawned == s.shared.spawned + 1))
  {
    var n := Next(s, m);
    var pc := s.threads[m.thread];
    var h, k := InHand(pc), InHand(n.threads[m.thread]);
    var a, b := Sum(Hands(s.threads)), Sum(Hands(n.threads));
    assert b + h == a + k by {
      assert Hands(n.threads) == Hands(s.threads)[m.thread := k];
      SumUpdate(Hands(s.threads), m.thread, k);
    }
    match ChangeOf(s.shared, pc, m.choice)
    case Same =>
      ActExchanges(s.shared, m.thread, pc, m.choice);
      Swap(multiset(s.shared.slots), multiset(n.shared.slots), a, b, h, k);
    case Replace(before, after) =>
      ActReplaces(s.shared, m.thread, pc, m.choice);
      SwapOne(multiset(s.shared.slots), multiset(n.shared.slots), a, b, h, k, before, after);
      SumMember(Hands(s.threads), m.thread);
      assert Hands(s.threads)[m.thread] == h;
  }

  lemma StepCounts(s: Pool, m: Move)
    requires Counted(s) && Enabled(s, m)
    ensures Counted(Next(s, m))
  {
    StepBalances(s, m);
    match ChangeOf(s.shared, s.threads[m.thread], m.choice)
    case Same =>
    case Replace(before, after) => Replaced(Slots(s), Slots(Next(s, m)), before, after);
  }

  // ---------- workers ----------

  predicate UnderLock(pc: Pc) {
    pc.Registering? || pc.Enrolling? || pc.Rejecting? || pc.Rejected?
  }

  /** The lock is held exactly by the thread that is in a critical section. */
  ghost predicate Locked(s: Pool) {
    && (forall i :: 0 <= i < |s.threads| && UnderLock(s.threads[i]) ==> s.shared.lock == Some(i))
    && (s.shared.lock.Some? ==> s.shared.lock.value < |s.threads| && UnderLock(s.threads[s.shared.lock.value]))
  }

  /** Workers this thread alone is about to register or terminate. */
  function Owes(pc: Pc): set<Worker> {
    if pc.Spawned? || pc.Registering? || pc.Enrolling? || pc.Rejecting? || pc.Killing? then {pc.worker}
    else if pc.CloseKilling? then pc.condemned
    else {}
  }

  ghost predicate Owed(threads: seq<Pc>, w: Worker) {
    exists i :: 0 <= i < |threads| && w in Owes(threads[i])
  }

  /** Every spawned worker is terminated, registered, or owed by a thread. */
  ghost predicate Accounted(s: Pool) {
    forall w: Worker :: w < s.shared.spawned ==> w in s.shared.terminated || w in s.shared.live || Owed(s.threads, w)
  }

  lemma ActAccounts(h: Shared, i: nat, pc: Pc, c: Choice, w: Worker)
    requires CanAct(h, pc, c)
    ensures var o := Act(h, i, pc, c);
            w < o.shared.spawned ==>
              || w in o.shared.terminated + o.shared.live + Owes(o.pc)
              || (w < h.spawned && w !in h.terminated + h.live + Owes(pc))
  {
  }

  lemma StepAccounts(s: Pool, m: Move)
    requires Accounted(s) && Enabled(s, m)
    ensures Accounted(Next(s, m))
  {
    var n := Next(s, m);
    forall w: Worker | w < n.shared.spawned
      ensures w in n.shared.terminated || w in n.shared.live || Owed(n.threads, w)
    {
      ActAccounts(s.shared, m.thread, s.threads[m.thread], m.choice, w);
      if w in Owes(n.threads[m.thread]) {
        assert Owed(n.threads, w);
      } else if w < s.shared.spawned && w !in s.shared.terminated && w !in s.shared.live {
        var j :| 0 <= j < |s.threads| && w in Owes(s.threads[j]);
        assert j != m.thread ==> w in Owes(n.threads[j]);
      }
    }
  }

  /** A worker is owed by at most one thread, and not by one while it is registered. */
  ghost predicate Sole(s: Pool) {
    && (forall i, j :: 0 <= i < j < |s.threads| ==> Owes(s.threads[i]) !! Owes(s.threads[j]))
    && (forall i :: 0 <= i < |s.threads| ==> Owes(s.threads[i]) !! s.shared.live)
    && (forall i, w: Worker :: 0 <= i < |s.threads| && w in Owes(s.threads[i]) ==> w < s.shared.spawned)
    && (forall w: Worker :: w in s.shared.live ==> w < s.shared.spawned)
  }

  /** What a step adds to a thread's debts it takes from the registry, or has just spawned; what it
      adds to the registry it takes from the thread's debts. */
  lemma ActOwes(h: Shared, i: nat, pc: Pc, c: Choice)
    requires CanAct(h, pc, c)
    ensures var o := Act(h, i, pc, c);
            && Owes(o.pc) <= Owes(pc) + h.live + (if o.shared.spawned > h.spawned then {h.spawned} else {})
            && o.shared.live <= h.live + Owes(pc)
            && (Owes(pc) !! h.live && h.spawned !in h.live ==> Owes(o.pc) !! o.shared.live)
            && o.shared.spawned >= h.spawned
  {
  }

  lemma StepSole(s: Pool, m: Move)
    requires Sole(s) && Enabled(s, m)
    ensures Sole(Next(s, m))
  {
    var n := Next(s, m);
    ActOwes(s.shared, m.thread, s.threads[m.thread], m.choice);
    forall i | 0 <= i < |n.threads| && i != m.thread
      ensures Owes(n.threads[i]) !! Owes(n.threads[m.thread]) && Owes(n.threads[i]) !! n.shared.live
    {
      assert n.threads[i] == s.threads[i];
      assert Owes(s.threads[i]) !! Owes(s.threads[m.thread]);
    }
  }

  /** Once the closing snapshot was taken, nothing is registered any more. */
  ghost predicate Shut(s: Pool) {
    && (s.shared.snapped ==> s.shared.closed && s.shared.live == {})
    && (s.shared.snapped ==> forall i :: 0 <= i < |s.threads| ==> !s.threads[i].Enrolling?)
    && (forall i :: 0 <= i < |s.threads| && s.threads[i].CloseSnapshot? ==> s.shared.closed)
    && (s.shared.closed ==> s.shared.snapped || exists i :: 0 <= i < |s.threads| && s.threads[i].CloseSnapshot?)
  }

  lemma ActShuts(h: Shared, i: nat, pc: Pc, c: Choice)
    requires CanAct(h, pc, c)
    ensures var o := Act(h, i, pc, c);
            && (h.closed ==> o.shared.closed)
            && (h.snapped ==> o.shared.snapped)
            && (o.pc.Enrolling? ==> !h.closed)
            && (o.shared.snapped && !h.snapped ==>
                  pc.CloseSnapshot? && h.lock == None && o.shared.live == {} && o.pc.CloseKilling?)
            && (h.snapped && h.live == {} && !pc.Enrolling? ==> o.shared.live == {})
            && (o.shared.closed && !h.closed ==> o.pc.CloseSnapshot?)
            && (o.pc.CloseSnapshot? ==> o.shared.closed)
            && (pc.CloseSnapshot? ==> o.shared.snapped)
            && (UnderLock(o.pc) ==>
                  (UnderLock(pc) && o.shared.lock == h.lock) || (h.lock == None && o.shared.lock == Some(i)))
            && (!UnderLock(pc) && !UnderLock(o.pc) ==> o.shared.lock == h.lock)
  {
  }

  lemma ActLocks(h: Shared, i: nat, pc: Pc, c: Choice)
    requires CanAct(h, pc, c) && (UnderLock(pc) ==> h.lock == Some(i))
    ensures var o := Act(h, i, pc, c);
            if UnderLock(o.pc) then o.shared.lock == Some(i) && (UnderLock(pc) || h.lock == None)
            else o.shared.lock == if UnderLock(pc) then None else h.lock
  {
  }

  lemma StepLocks(s: Pool, m: Move)
    requires Locked(s) && Enabled(s, m)
    ensures Locked(Next(s, m))
  {
    ActLocks(s.shared, m.thread, s.threads[m.thread], m.choice);
  }

  lemma StepShuts(s: Pool, m: Move)
    requires Locked(s) && Shut(s) && Enabled(s, m)
    ensures Shut(Next(s, m))
  {
    var n := Next(s, m);
    ActShuts(s.shared, m.thread, s.threads[m.thread], m.choice);
    forall i | n.shared.snapped && 0 <= i < |n.threads| ensures !n.threads[i].Enrolling? {
      assert i != m.thread ==> n.threads[i] == s.threads[i];
      assert UnderLock(s.threads[i]) ==> s.shared.lock == Some(i);
    }
    if n.shared.closed && !n.shared.snapped {
      if !s.shared.closed {
        assert n.threads[m.thread].CloseSnapshot?;
      } else {
        var i :| 0 <= i < |s.threads| && s.threads[i].CloseSnapshot?;
        assert n.threads[i].CloseSnapshot?;
      }
    }
  }

  predicate Serving(pc: Pc) {
    pc.GotWorker? || pc.Leased? || pc.Releasing? || pc.Returning?
  }

  predicate Owing(pc: Pc) {
    pc.Spawned? || pc.Registering? || pc.Enrolling? || pc.Killing?
  }

  predicate Closer(pc: Pc) {
    pc.CloseSnapshot? || pc.CloseKilling? || pc.Draining? || pc.Refilling? || pc.Rejecting? || pc.Rejected?
  }

  /** While the set is open: a worker being served is registered, one that a thread still owes
      is not, and neither has been terminated. */
  predicate Tended(h: Shared, pc: Pc) {
    && !Closer(pc)
    && (Serving(pc) ==> pc.worker in h.live)
    && (Owing(pc) ==> pc.worker !in h.live && pc.worker !in h.terminated)
  }

  ghost predicate Registered(h: Shared) {
    && (forall w: Worker :: w in h.live ==> w !in h.terminated)
    && (forall w: Worker :: w in h.live || w in h.terminated ==> w < h.spawned)
    && (forall w: Worker :: Some(w) in h.slots ==> w in h.live)
  }

  /** While the set is open, every worker a job can get or has is registered and running. */
  ghost predicate Usable(s: Pool) {
    !s.shared.closed ==>
      && Registered(s.shared)
      && forall i :: 0 <= i < |s.threads| ==> Tended(s.shared, s.threads[i])
  }

  /** A worker in one thread's hands is in no other's and not in the queue. */
  lemma HeldOnce(s: Pool, i: nat, w: Worker)
    requires Counted(s) && i < |s.threads| && Some(w) in Hand(s.threads[i])
    ensures Some(w) !in s.shared.slots
    ensures forall j :: 0 <= j < |s.threads| && j != i ==> Some(w) !in Hand(s.threads[j])
    ensures w < s.shared.spawned
  {
    var hands := Hands(s.threads);
    SumMember(hands, i);
    assert hands[i] == InHand(s.threads[i]);
    assert Slots(s)[Some(w)] >= multiset(s.shared.slots)[Some(w)] + 1;
    assert Some(w) in Slots(s);
    forall j | 0 <= j < |s.threads| && j != i ensures Some(w) !in Hand(s.threads[j]) {
      SumApart(hands, if i < j then i else j, if i < j then j else i);
      assert hands[j] == InHand(s.threads[j]);
      assert Slots(s)[Some(w)] >= InHand(s.threads[i])[Some(w)] + InHand(s.threads[j])[Some(w)];
    }
  }

  /** How a step of an open set changes the registry. */
  lemma RegistryMoves(h: Shared, i: nat, pc: Pc, c: Choice)
    requires CanAct(h, pc, c) && !Closer(pc)
    ensures var o := Act(h, i, pc, c);
            && o.shared.live == (if pc.Enrolling? then h.live + {pc.worker}
                                 else if pc.Retiring? then h.live - {pc.worker} else h.live)
            && o.shared.terminated == (if pc.Killing? then h.terminated + {pc.worker} else h.terminated)
  {
  }

  lemma SharedStaysRegistered(h: Shared, i: nat, pc: Pc, c: Choice)
    requires CanAct(h, pc, c) && Registered(h) && Tended(h, pc)
    requires HoldsWorker(pc) ==> Some(pc.worker) !in h.slots && pc.worker < h.spawned
    ensures Registered(Act(h, i, pc, c).shared)
  {
    RegistryMoves(h, i, pc, c);
    var o := Act(h, i, pc, c).shared;
    forall w: Worker | Some(w) in o.slots ensures w in o.live {
      assert Some(w) in h.slots || (pc.Returning? && w == pc.worker);
    }
  }

  lemma ThreadStaysTended(h: Shared, i: nat, pc: Pc, c: Choice)
    requires CanAct(h, pc, c) && !Act(h, i, pc, c).shared.closed && Registered(h) && Tended(h, pc)
    ensures Tended(Act(h, i, pc, c).shared, Act(h, i, pc, c).pc)
  {
    RegistryMoves(h, i, pc, c);
    if pc.AwaitingSlot? && c == Proceed {
      assert h.slots[0] in h.slots;
    }
  }

  lemma OthersStayTended(h: Shared, i: nat, pc: Pc, c: Choice, other: Pc)
    requires CanAct(h, pc, c) && !Closer(pc) && Tended(h, other)
    requires HoldsWorker(pc) && HoldsWorker(other) ==> other.worker != pc.worker
    ensures Tended(Act(h, i, pc, c).shared, other)
  {
    RegistryMoves(h, i, pc, c);
  }

  lemma StepUses(s: Pool, m: Move)
    requires Counted(s) && Usable(s) && Enabled(s, m)
    ensures Usable(Next(s, m))
  {
    var n := Next(s, m);
    var pc := s.threads[m.thread];
    if !n.shared.closed {
      assert !s.shared.closed by { ActShuts(s.shared, m.thread, pc, m.choice); }
      if HoldsWorker(pc) {
        HeldOnce(s, m.thread, pc.worker);
      }
      SharedStaysRegistered(s.shared, m.thread, pc, m.choice);
      ThreadStaysTended(s.shared, m.thread, pc, m.choice);
      forall i | 0 <= i < |n.threads| ensures Tended(n.shared, n.threads[i]) {
        if i != m.thread {
          OthersStayTended(s.shared, m.thread, pc, m.choice, s.threads[i]);
        }
      }
    }
  }

  // ---------- the results ----------

  ghost predicate Inv(s: Pool) {
    Counted(s) && Locked(s) && Accounted(s) && Sole(s) && Shut(s) && Usable(s)
  }

  lemma IdleHandsAreEmpty(threads: seq<Pc>)
    requires forall i :: 0 <= i < |threads| ==> threads[i] == Idle
    ensures Sum(Hands(threads)) == multiset{}
  {
    forall i | 0 <= i < |threads| ensures Hands(threads)[i] == multiset{} {
      assert Hand(threads[i]) == [];
    }
    SumEmpty(Hands(threads));
  }

  lemma InitCounts(width: nat, threads: nat)
    ensures Counted(Init(width, threads))
  {
    var s := Init(width, threads);
    IdleHandsAreEmpty(s.threads);
    assert Slots(s) == multiset(s.shared.slots);
    AllEmpty(s.shared.slots);
  }

  lemma InitUsable(width: nat, threads: nat)
    ensures Usable(Init(width, threads))
  {
    AllEmpty(Init(width, threads).shared.slots);
  }

  lemma InitHolds(width: nat, threads: nat)
    ensures Inv(Init(width, threads))
  {
    InitCounts(width, threads);
    InitUsable(width, threads);
  }

  lemma AllEmpty(slots: seq<Option<Worker>>)
    requires forall i :: 0 <= i < |slots| ==> slots[i] == None
    ensures |multiset(slots)| == |slots|
    ensures forall w: Worker :: Some(w) !in slots
    ensures forall w: Worker :: multiset(slots)[Some(w)] == 0
  {
    forall w: Worker ensures multiset(slots)[Some(w)] == 0 {
      assert Some(w) !in slots;
    }
  }

  lemma StepKeeps(s: Pool, m: Move)
    requires Inv(s) && Enabled(s, m)
    ensures Inv(Next(s, m))
  {
    StepCounts(s, m);
    StepLocks(s, m);
    StepAccounts(s, m);
    StepSole(s, m);
    StepShuts(s, m);
    StepUses(s, m);
  }

  lemma {:induction false} RunKeeps(s: Pool, moves: seq<Move>)
    requires Inv(s) && Legal(s, moves)
    ensures Inv(Exec(s, moves)) && Exec(s, moves).width == s.width
    decreases |moves|
  {
    if moves != [] {
      StepKeeps(s, moves[0]);
      RunKeeps(Next(s, moves[0]), moves[1..]);
    }
  }

  /** In every run: the queued slots and the slots in threads' hands make up the width, no
      worker is held by two jobs or both held and queued, and every spawned worker is
      terminated, registered live, or owed by one thread about to register or terminate it. */
  lemma SlotLaw(width: nat, threads: nat, moves: seq<Move>)
    requires Legal(Init(width, threads), moves)
    ensures var s := Exec(Init(width, threads), moves);
            && |s.shared.slots| + |Sum(Hands(s.threads))| == width
            && (forall i, j, w: Worker :: 0 <= i < j < |s.threads| && Some(w) in Hand(s.threads[i]) ==>
                  Some(w) !in Hand(s.threads[j]))
            && (forall i, w: Worker :: 0 <= i < |s.threads| && Some(w) in Hand(s.threads[i]) ==>
                  Some(w) !in s.shared.slots)
            && (forall w: Worker :: w < s.shared.spawned ==>
                  w in s.shared.terminated || w in s.shared.live || Owed(s.threads, w))
            && (forall i, j :: 0 <= i < j < |s.threads| ==> Owes(s.threads[i]) !! Owes(s.threads[j]))
            && (forall i :: 0 <= i < |s.threads| ==> Owes(s.threads[i]) !! s.shared.live)
  {
    InitHolds(width, threads);
    RunKeeps(Init(width, threads), moves);
    var s := Exec(Init(width, threads), moves);
    forall i, w: Worker | 0 <= i < |s.threads| && Some(w) in Hand(s.threads[i])
      ensures Some(w) !in s.shared.slots
      ensures forall j :: 0 <= j < |s.threads| && j != i ==> Some(w) !in Hand(s.threads[j])
    {
      HeldOnce(s, i, w);
    }
  }

  /** After a close, once every thread has returned, no worker survives and the queue is
      whole again. */
  lemma NothingSurvivesClose(width: nat, threads: nat, moves: seq<Move>)
    requires Legal(Init(width, threads), moves)
    requires var s := Exec(Init(width, threads), moves);
             s.shared.closed && forall i :: 0 <= i < |s.threads| ==> s.threads[i] == Idle
    ensures var s := Exec(Init(width, threads), moves);
            && (forall w: Worker :: w < s.shared.spawned ==> w in s.shared.terminated)
            && s.shared.live == {} && |s.shared.slots| == width
  {
    InitHolds(width, threads);
    RunKeeps(Init(width, threads), moves);
    var s := Exec(Init(width, threads), moves);
    IdleHandsAreEmpty(s.threads);
    assert Slots(s) == multiset(s.shared.slots);
    forall w: Worker | w < s.shared.spawned ensures w in s.shared.terminated {
      assert !Owed(s.threads, w);
    }
  }

  /** Until the set is closed, a worker that is leased or queued is registered and has not
      been terminated. */
  lemma OpenSetServesLiveWorkers(width: nat, threads: nat, moves: seq<Move>)
    requires Legal(Init(width, threads), moves)
    requires !Exec(Init(width, threads), moves).shared.closed
    ensures var s := Exec(Init(width, threads), moves);
            && (forall w: Worker :: Some(w) in s.shared.slots ==> w in s.shared.live && w !in s.shared.terminated)
            && (forall i :: 0 <= i < |s.threads| && s.threads[i].Leased? ==>
                  s.threads[i].worker in s.shared.live && s.threads[i].worker !in s.shared.terminated)
  {
    InitHolds(width, threads);
    RunKeeps(Init(width, threads), moves);
    var s := Exec(Init(width, threads), moves);
    forall i | 0 <= i < |s.threads| && s.threads[i].Leased?
      ensures s.threads[i].worker in s.shared.live && s.threads[i].worker !in s.shared.terminated
    {
      assert Tended(s.shared, s.threads[i]);
    }
  }

  /** Once the closing snapshot is taken no lease is granted. Between the flag and the snapshot
      a thread that already passed its check under the lock still gets one, and the snapshot
      then terminates its worker. */
  lemma NoLeaseAfterClose(s: Pool, m: Move)
    requires Inv(s) && s.shared.snapped && Enabled(s, m)
    ensures s.threads[m.thread].Leased? || !Next(s, m).threads[m.thread].Leased?
  {
    ActShuts(s.shared, m.thread, s.threads[m.thread], m.choice);
  }

  // ---------- progress ----------

  predicate WaitsForASlot(s: Pool, pc: Pc) {
    pc.AwaitingSlot? && s.shared.slots == []
  }

  predicate WaitsForTheLock(pc: Pc) {
    pc.Spawned? || pc.Retiring? || pc.CloseSnapshot?
  }

  /** A thread that is not waiting for a slot can move, or the thread that holds the lock it
      waits for can. */
  lemma SomeMove(s: Pool, i: nat) returns (m: Move)
    requires Locked(s) && i < |s.threads| && s.threads[i] != Idle && !WaitsForASlot(s, s.threads[i])
    ensures Enabled(s, m) && m.choice != GiveUp && !m.choice.SpawnFails?
    ensures m.thread == i || (WaitsForTheLock(s.threads[i]) && s.shared.lock == Some(m.thread))
  {
    var pc := s.threads[i];
    if WaitsForTheLock(pc) && s.shared.lock.Some? {
      m := Move(s.shared.lock.value, Proceed);
    } else if pc.CloseKilling? && pc.condemned != {} {
      var w :| w in pc.condemned;
      m := Move(i, Kill(w));
    } else {
      m := Move(i, Proceed);
    }
  }

  predicate InClose(pc: Pc) {
    pc.CloseEntering? || pc.CloseSetting? || pc.CloseSnapshot? || pc.CloseKilling? || pc.Draining? || pc.Refilling?
  }

  /** Steps until the holder of the lock lets it go. */
  function HoldersWork(pc: Pc): nat {
    if pc.Registering? then 3 else if pc.Rejecting? then 2 else if UnderLock(pc) then 1 else 0
  }

  function CloseStage(pc: Pc): nat {
    match pc
    case CloseEntering => 6
    case CloseSetting => 5
    case CloseSnapshot => 4
    case CloseKilling(_) => 3
    case Draining(_) => 2
    case Refilling(_) => 1
    case _ => 0
  }

  /** What is left of a closing thread's stage. */
  function CloseWork(s: Pool, pc: Pc): nat {
    match pc
    case CloseSnapshot =>
      if s.shared.lock.Some? && s.shared.lock.value < |s.threads|
      then HoldersWork(s.threads[s.shared.lock.value]) else 0
    case CloseKilling(condemned) => |condemned|
    case Draining(_) => |s.shared.slots|
    case Refilling(taken) => |taken|
    case _ => 0
  }

  predicate Below(stage: nat, work: nat, stage': nat, work': nat) {
    stage' < stage || (stage' == stage && work' < work)
  }

  lemma HolderAdvances(h: Shared, i: nat, pc: Pc)
    requires UnderLock(pc) && h.lock == Some(i)
    ensures CanAct(h, pc, Proceed)
    ensures var o := Act(h, i, pc, Proceed);
            if UnderLock(o.pc) then o.shared.lock == h.lock && HoldersWork(o.pc) < HoldersWork(pc)
            else o.shared.lock == None
  {
  }

  lemma SnapshotGetsCloser(s: Pool, i: nat)
    requires Locked(s) && i < |s.threads| && s.threads[i].CloseSnapshot? && s.shared.lock.Some?
    ensures var m := Move(s.shared.lock.value, Proceed);
            && Enabled(s, m) && Next(s, m).threads[i] == s.threads[i]
            && CloseWork(Next(s, m), s.threads[i]) < CloseWork(s, s.threads[i])
  {
    HolderAdvances(s.shared, s.shared.lock.value, s.threads[s.shared.lock.value]);
  }

  /** A closing thread whose lock is free goes on, or ends. */
  lemma CloserAdvances(s: Pool, i: nat) returns (m: Move)
    requires i < |s.threads| && InClose(s.threads[i])
    requires s.threads[i].CloseSnapshot? ==> s.shared.lock == None
    ensures Enabled(s, m) && m.thread == i
    ensures var pc := Next(s, m).threads[i];
            pc == Idle || (InClose(pc) && Below(CloseStage(s.threads[i]), CloseWork(s, s.threads[i]),
                                                CloseStage(pc), CloseWork(Next(s, m), pc)))
  {
    var pc := s.threads[i];
    if pc.CloseKilling? && pc.condemned != {} {
      var w :| w in pc.condemned;
      m := Move(i, Kill(w));
      assert |pc.condemned - {w}| < |pc.condemned|;
    } else {
      m := Move(i, Proceed);
    }
  }

  /** Only thread `i` moves, and whoever holds the lock. */
  ghost predicate OnlyOrHolder(s: Pool, moves: seq<Move>, i: nat)
    requires Legal(s, moves)
    decreases |moves|
  {
    moves != [] ==>
      && (moves[0].thread == i || s.shared.lock == Some(moves[0].thread))
      && OnlyOrHolder(Next(s, moves[0]), moves[1..], i)
  }

  /** Thread `i` ends, while every job that runs on a worker goes on running. */
  ghost predicate Outlasts(s: Pool, n: Pool, i: nat) {
    && i < |n.threads| == |s.threads| && n.threads[i] == Idle
    && forall j :: 0 <= j < |s.threads| && j != i && s.threads[j].Leased? ==> n.threads[j] == s.threads[j]
  }

  ghost predicate CanReachIdle(s: Pool, i: nat) {
    exists moves :: Legal(s, moves) && OnlyOrHolder(s, moves, i) && Outlasts(s, Exec(s, moves), i)
  }

  lemma ReachLater(s: Pool, m: Move, i: nat)
    requires Locked(s) && Enabled(s, m) && (m.thread == i || s.shared.lock == Some(m.thread))
    requires CanReachIdle(Next(s, m), i)
    ensures CanReachIdle(s, i)
  {
    var n := Next(s, m);
    var moves :| Legal(n, moves) && OnlyOrHolder(n, moves, i) && Outlasts(n, Exec(n, moves), i);
    var longer := [m] + moves;
    assert longer[0] == m && longer[1..] == moves;
    assert Legal(s, longer) && Exec(s, longer) == Exec(n, moves);
    assert OnlyOrHolder(s, longer, i);
    assert forall j :: 0 <= j < |s.threads| && j != i && s.threads[j].Leased? ==> n.threads[j] == s.threads[j];
  }

  lemma ReachNow(s: Pool, i: nat)
    requires i < |s.threads| && s.threads[i] == Idle
    ensures CanReachIdle(s, i)
  {
    var moves: seq<Move> := [];
    assert Legal(s, moves) && OnlyOrHolder(s, moves, i) && Exec(s, moves) == s;
  }

  /** A closing thread always gets to its end by its own moves and those of a thread in its
      critical section, while every running job goes on: none has to end first. */
  lemma {:induction false} CloserReachesIdle(s: Pool, i: nat)
    requires Locked(s) && i < |s.threads| && InClose(s.threads[i])
    ensures CanReachIdle(s, i)
    decreases CloseStage(s.threads[i]), CloseWork(s, s.threads[i])
  {
    var m: Move;
    if s.threads[i].CloseSnapshot? && s.shared.lock.Some? {
      m := Move(s.shared.lock.value, Proceed);
      SnapshotGetsCloser(s, i);
    } else {
      m := CloserAdvances(s, i);
    }
    StepLocks(s, m);
    if Next(s, m).threads[i] == Idle {
      ReachNow(Next(s, m), i);
    } else {
      CloserReachesIdle(Next(s, m), i);
    }
    ReachLater(s, m, i);
  }

  /** In every reachable state: a thread that is neither idle nor waiting for a slot, or the
      holder of the lock it waits for, can move; and a closing thread can get to its end. */
  lemma NobodyIsStuck(width: nat, threads: nat, moves: seq<Move>, i: nat)
    requires Legal(Init(width, threads), moves) && i < |Exec(Init(width, threads), moves).threads|
    ensures var s := Exec(Init(width, threads), moves);
            && (s.threads[i] != Idle && !WaitsForASlot(s, s.threads[i]) ==>
                  exists m :: Enabled(s, m) && m.choice != GiveUp && !m.choice.SpawnFails?
                    && (m.thread == i || (WaitsForTheLock(s.threads[i]) && s.shared.lock == Some(m.thread))))
            && (InClose(s.threads[i]) ==> CanReachIdle(s, i))
  {
    InitHolds(width, threads);
    RunKeeps(Init(width, threads), moves);
    var s := Exec(Init(width, threads), moves);
    if s.threads[i] != Idle && !WaitsForASlot(s, s.threads[i]) {
      var m := SomeMove(s, i);
    }
    if InClose(s.threads[i]) {
      CloserReachesIdle(s, i);
    }
  }
}
