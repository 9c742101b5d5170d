/** The child's descriptor remapping: stage every source above the target range, close the
    sources, then place each staged copy on its target. */
module Descriptors {
  import opened Basics

  /** An open file and whether the number survives an exec. */
  datatype Entry = Entry(file: nat, inheritable: bool)

  type Table = map<nat, Entry>

  datatype Pair = Pair(source: nat, target: nat)

  const HighestTarget: nat := 3

  function Sources(pairs: seq<Pair>): set<nat> {
    set i | 0 <= i < |pairs| :: pairs[i].source
  }

  function Targets(pairs: seq<Pair>): set<nat> {
    set i | 0 <= i < |pairs| :: pairs[i].target
  }

  predicate SourcesDistinct(pairs: seq<Pair>) {
    forall i, j :: 0 <= i < j < |pairs| ==> pairs[i].source != pairs[j].source
  }

  predicate TargetsDistinct(pairs: seq<Pair>) {
    forall i, j :: 0 <= i < j < |pairs| ==> pairs[i].target != pairs[j].target
  }

  /** The lowest number at or above `from` that is free, up to `limit`. */
  function LowestFree(t: Table, from: nat, limit: nat): (k: nat)
    requires from <= limit
    ensures from <= k <= limit
    ensures forall fd :: from <= fd < k ==> fd in t
    ensures k < limit ==> k !in t
    decreases limit - from
  {
    if from == limit || from !in t then from else LowestFree(t, from + 1, limit)
  }

  /** Free numbers above the target range. */
  function FreeHigh(t: Table, limit: nat): set<nat> {
    set fd | HighestTarget < fd < limit && fd !in t
  }

  // ---------- what remapping means ----------

  /** Every target is on its source's file and inheritable; descriptors that are neither are
      as before; besides them only low, non-inheritable leftovers are open. */
  ghost predicate Remapped(before: Table, pairs: seq<Pair>, after: Table)
    requires Sources(pairs) <= before.Keys
  {
    && (forall i :: 0 <= i < |pairs| ==>
          pairs[i].target in after && after[pairs[i].target] == Entry(before[pairs[i].source].file, true))
    && (forall fd :: fd in before && fd !in Sources(pairs) && fd !in Targets(pairs) ==>
          fd in after && after[fd] == before[fd])
    && (forall fd :: fd in after && fd !in Targets(pairs) ==>
          if fd in before then fd !in Sources(pairs) && after[fd] == before[fd]
          else fd <= HighestTarget && !after[fd].inheritable)
  }

  /** What a program started by exec finds open. */
  function AfterExec(t: Table): map<nat, nat> {
    map fd | fd in t && t[fd].inheritable :: t[fd].file
  }

  /** When only the sources were inheritable, the payload gets the targets and nothing else,
      so no second copy of a pipe end survives. */
  lemma PayloadGetsExactlyTheTargets(before: Table, pairs: seq<Pair>, after: Table)
    requires Sources(pairs) <= before.Keys && Remapped(before, pairs, after)
    requires forall fd :: fd in before && before[fd].inheritable ==> fd in Sources(pairs)
    ensures AfterExec(after).Keys == Targets(pairs)
    ensures forall i :: 0 <= i < |pairs| ==>
              pairs[i].target in AfterExec(after)
              && AfterExec(after)[pairs[i].target] == before[pairs[i].source].file
  {
    forall fd ensures fd in AfterExec(after) <==> fd in Targets(pairs) {
      if fd in Targets(pairs) {
        var i :| 0 <= i < |pairs| && pairs[i].target == fd;
        assert after[pairs[i].target].inheritable;
      }
    }
  }

  /** The order of the pairs does not matter to the payload. */
  lemma OrderIsIrrelevant(before: Table, pairs: seq<Pair>, others: seq<Pair>, after: Table, otherAfter: Table)
    requires Sources(pairs) <= before.Keys && Remapped(before, pairs, after)
    requires Sources(others) <= before.Keys && Remapped(before, others, otherAfter)
    requires forall p :: p in pairs <==> p in others
    ensures AfterExec(after) == AfterExec(otherAfter)
  {
    SamePairsSameEnds(pairs, others);
    assert Targets(pairs) == Targets(others) && Sources(pairs) == Sources(others);
    forall fd ensures fd in after && after[fd].inheritable <==> fd in otherAfter && otherAfter[fd].inheritable
              ensures fd in after && after[fd].inheritable ==> after[fd].file == otherAfter[fd].file
    {
      if fd in Targets(pairs) {
        var i :| 0 <= i < |pairs| && pairs[i].target == fd;
        assert pairs[i] in others;
        var j :| 0 <= j < |others| && others[j] == pairs[i];
        assert after[pairs[i].target] == otherAfter[others[j].target];
      }
    }
  }

  lemma SamePairsSameEnds(pairs: seq<Pair>, others: seq<Pair>)
    requires forall p :: p in pairs <==> p in others
    ensures Targets(pairs) == Targets(others) && Sources(pairs) == Sources(others)
  {
    EndsIncluded(pairs, others);
    EndsIncluded(others, pairs);
  }

  lemma EndsIncluded(pairs: seq<Pair>, others: seq<Pair>)
    requires forall p :: p in pairs ==> p in others
    ensures Targets(pairs) <= Targets(others) && Sources(pairs) <= Sources(others)
  {
    forall i | 0 <= i < |pairs| ensures pairs[i].target in Targets(others) && pairs[i].source in Sources(others) {
      assert pairs[i] in others;
      var j :| 0 <= j < |others| && others[j] == pairs[i];
    }
  }

  lemma SourcesGrow(pairs: seq<Pair>, n: nat)
    requires n < |pairs|
    ensures Sources(pairs[..n + 1]) == Sources(pairs[..n]) + {pairs[n].source}
    ensures SourcesDistinct(pairs[..n + 1]) <==> SourcesDistinct(pairs[..n]) && pairs[n].source !in Sources(pairs[..n])
    ensures SourcesDistinct(pairs) ==> SourcesDistinct(pairs[..n + 1])
    ensures Sources(pairs[..n]) <= Sources(pairs) && pairs[n].source in Sources(pairs)
  {
    assert pairs[..n + 1] == pairs[..n] + [pairs[n]];
    assert pairs[..n + 1][n] == pairs[n];
    forall i | 0 <= i < n ensures pairs[..n + 1][i] == pairs[..n][i] == pairs[i] {
    }
  }

  // ---------- the table and its system calls ----------

  /** A staged copy, waiting for its target. */
  datatype Held = Held(fd: nat, target: nat)

  /** `held` is a fresh high copy of `source`; at most low non-inheritable copies came with it. */
  ghost predicate Lifted(before: Table, source: nat, held: nat, after: Table) {
    && source in before && held in after && held !in before && held > HighestTarget
    && after[held] == Entry(before[source].file, false)
    && (forall fd :: fd in before ==> fd in after && after[fd] == before[fd])
    && (forall fd :: fd in after && fd !in before && fd != held ==> fd <= HighestTarget && !after[fd].inheritable)
  }

  /** Midway: every number up to the copy is taken. */
  ghost predicate Lifting(start: Table, source: nat, held: nat, now: Table) {
    && source in start && held in now && held !in start
    && now[held] == Entry(start[source].file, false)
    && Kept(start, now)
    && (forall fd :: 0 <= fd <= held ==> fd in now)
    && (forall fd :: fd in now && fd !in start && fd != held ==> fd <= HighestTarget && !now[fd].inheritable)
  }

  function Fds(staged: seq<Held>): set<nat> {
    set i | 0 <= i < |staged| :: staged[i].fd
  }

  ghost predicate Kept(before: Table, now: Table) {
    forall fd :: fd in before ==> fd in now && now[fd] == before[fd]
  }

  /** The staged copies from `n` on are in place. */
  ghost predicate Copied(before: Table, pairs: seq<Pair>, n: nat, staged: seq<Held>, now: Table) {
    n <= |staged| <= |pairs|
    && forall i :: n <= i < |staged| ==>
         && pairs[i].source in before && staged[i].fd in now
         && now[staged[i].fd] == Entry(before[pairs[i].source].file, false)
  }

  /** Staged copies sit on distinct new high numbers and remember their targets. */
  ghost predicate Apart(before: Table, pairs: seq<Pair>, staged: seq<Held>) {
    && |staged| <= |pairs|
    && (forall i :: 0 <= i < |staged| ==>
          staged[i].target == pairs[i].target && staged[i].fd > HighestTarget && staged[i].fd !in before)
    && (forall i, j :: 0 <= i < j < |staged| ==> staged[i].fd != staged[j].fd)
  }

  /** Of the new numbers below a target, only low non-inheritable ones are not staged copies. */
  ghost predicate Leftovers(before: Table, held: set<nat>, now: Table) {
    forall fd :: fd in now && fd !in before && fd !in held ==> fd <= HighestTarget && !now[fd].inheritable
  }

  /** The first `|staged|` pairs are staged. */
  ghost predicate Staged(before: Table, pairs: seq<Pair>, staged: seq<Held>, now: Table) {
    Kept(before, now) && Copied(before, pairs, 0, staged, now) && Apart(before, pairs, staged)
    && Leftovers(before, Fds(staged), now)
  }

  lemma FdsGrow(staged: seq<Held>, last: Held)
    ensures Fds(staged + [last]) == Fds(staged) + {last.fd}
  {
    var grown := staged + [last];
    assert grown[|staged|] == last;
    forall fd | fd in Fds(staged) ensures fd in Fds(grown) {
      var i :| 0 <= i < |staged| && staged[i].fd == fd;
      assert grown[i].fd == fd;
    }
  }

  lemma StageOne(before: Table, pairs: seq<Pair>, staged: seq<Held>, now: Table, held: nat, next: Table)
    requires |staged| < |pairs| && Staged(before, pairs, staged, now)
    requires pairs[|staged|].source in before && Lifted(now, pairs[|staged|].source, held, next)
    ensures Staged(before, pairs, staged + [Held(held, pairs[|staged|].target)], next)
  {
    var last := Held(held, pairs[|staged|].target);
    var grown := staged + [last];
    FdsGrow(staged, last);
    assert Copied(before, pairs, 0, grown, next) by {
      forall i | 0 <= i < |grown|
        ensures && pairs[i].source in before && grown[i].fd in next
                && next[grown[i].fd] == Entry(before[pairs[i].source].file, false)
      {
        if i < |staged| { assert grown[i] == staged[i]; }
      }
    }
    assert Apart(before, pairs, grown) by {
      assert forall i :: 0 <= i < |staged| ==> grown[i] == staged[i] && staged[i].fd in now;
    }
  }

  // ---------- placing ----------

  ghost predicate OnTarget(before: Table, pairs: seq<Pair>, n: nat, now: Table) {
    n <= |pairs|
    && forall i :: 0 <= i < n ==>
         && pairs[i].source in before && pairs[i].target in now
         && now[pairs[i].target] == Entry(before[pairs[i].source].file, true)
  }

  ghost predicate OthersKept(before: Table, pairs: seq<Pair>, now: Table) {
    forall fd :: fd in before && fd !in Sources(pairs) && fd !in Targets(pairs) ==> fd in now && now[fd] == before[fd]
  }

  /** Whatever else is open is an untouched old descriptor, a low leftover or a staged copy. */
  ghost predicate NothingElse(before: Table, pairs: seq<Pair>, held: set<nat>, now: Table) {
    forall fd :: fd in now && fd !in Targets(pairs) && fd !in held ==>
      if fd in before then fd !in Sources(pairs) && now[fd] == before[fd]
      else fd <= HighestTarget && !now[fd].inheritable
  }

  /** The sources are closed and the first `n` staged copies are placed. */
  ghost predicate Placed(before: Table, pairs: seq<Pair>, n: nat, staged: seq<Held>, now: Table) {
    && |staged| == |pairs| && n <= |pairs| && Apart(before, pairs, staged)
    && OnTarget(before, pairs, n, now)
    && Copied(before, pairs, n, staged, now)
    && OthersKept(before, pairs, now)
    && NothingElse(before, pairs, Fds(staged[n..]), now)
  }

  lemma ReadyToPlace(before: Table, pairs: seq<Pair>, staged: seq<Held>, now: Table, next: Table)
    requires Staged(before, pairs, staged, now) && |staged| == |pairs| && next == now - Sources(pairs)
    requires Sources(pairs) <= before.Keys
    ensures Placed(before, pairs, 0, staged, next)
  {
    assert staged[0..] == staged;
    forall i | 0 <= i < |pairs| ensures staged[i].fd in next && next[staged[i].fd] == now[staged[i].fd] {
      assert staged[i].fd !in Sources(pairs);
    }
  }

  /** `held` moved to `target` and nothing else changed. */
  ghost predicate MovedTo(now: Table, held: nat, target: nat, next: Table) {
    && held in now && held !in next && held > HighestTarget && target <= HighestTarget
    && target in next && next[target] == Entry(now[held].file, true)
    && forall fd :: fd != held && fd != target ==> (fd in next <==> fd in now) && (fd in now ==> next[fd] == now[fd])
  }

  lemma PlaceCopies(before: Table, pairs: seq<Pair>, n: nat, staged: seq<Held>, now: Table, next: Table)
    requires n < |pairs| == |staged| && TargetsDistinct(pairs) && Apart(before, pairs, staged)
    requires forall i :: 0 <= i < |pairs| ==> pairs[i].target <= HighestTarget
    requires OnTarget(before, pairs, n, now) && Copied(before, pairs, n, staged, now)
    requires MovedTo(now, staged[n].fd, staged[n].target, next)
    ensures OnTarget(before, pairs, n + 1, next) && Copied(before, pairs, n + 1, staged, next)
  {
    assert forall i :: 0 <= i < n ==> pairs[i].target != staged[n].target && pairs[i].target != staged[n].fd;
    assert forall i :: n < i < |staged| ==> staged[i].fd != staged[n].fd && staged[i].fd != staged[n].target;
  }

  lemma PlaceOne(before: Table, pairs: seq<Pair>, n: nat, staged: seq<Held>, now: Table, next: Table)
    requires n < |pairs| && Placed(before, pairs, n, staged, now)
    requires forall i :: 0 <= i < |pairs| ==> pairs[i].target <= HighestTarget
    requires TargetsDistinct(pairs)
    requires next == now[staged[n].target := Entry(now[staged[n].fd].file, true)] - {staged[n].fd}
    ensures Placed(before, pairs, n + 1, staged, next)
  {
    assert staged[n].target == pairs[n].target && pairs[n].target in Targets(pairs);
    assert MovedTo(now, staged[n].fd, staged[n].target, next);
    PlaceCopies(before, pairs, n, staged, now, next);
    FdsShrink(staged, n);
  }

  lemma FdsShrink(staged: seq<Held>, n: nat)
    requires n < |staged|
    ensures Fds(staged[n..]) <= Fds(staged[n + 1..]) + {staged[n].fd}
  {
    forall fd | fd in Fds(staged[n..]) ensures fd == staged[n].fd || fd in Fds(staged[n + 1..]) {
      var i :| 0 <= i < |staged[n..]| && staged[n..][i].fd == fd;
      if i > 0 { assert staged[n + 1..][i - 1].fd == fd; }
    }
  }

  lemma AllPlaced(before: Table, pairs: seq<Pair>, staged: seq<Held>, now: Table)
    requires Sources(pairs) <= before.Keys && Placed(before, pairs, |pairs|, staged, now)
    ensures Remapped(before, pairs, now)
  {
    assert Fds(staged[|pairs|..]) == {};
  }

  /** A process's descriptor table with room for `limit` numbers. */
  class DescriptorTable {
    var open: Table
    const limit: nat

    constructor (open: Table, limit: nat)
      ensures this.open == open && this.limit == limit
    {
      this.open, this.limit := open, limit;
    }

    /** Copies onto the lowest free number, not inheritable; nothing on an error. */
    method Dup(fd: nat) returns (copy: Option<nat>)
      modifies this
      ensures copy.Some? <==> fd in old(open) && LowestFree(old(open), 0, limit) < limit
      ensures copy.Some? ==>
                && copy.value == LowestFree(old(open), 0, limit)
                && open == old(open)[copy.value := Entry(old(open)[fd].file, false)]
      ensures copy.None? ==> open == old(open)
    {
      var k := LowestFree(open, 0, limit);
      if fd !in open || k == limit { return None; }
      open := open[k := Entry(open[fd].file, false)];
      return Some(k);
    }

    method Close(fd: nat) returns (ok: bool)
      modifies this
      ensures ok <==> fd in old(open)
      ensures open == old(open) - {fd}
    {
      ok := fd in open;
      open := open - {fd};
    }

    /** Copies onto a given number, inheritable, replacing what was there. */
    method Dup2(fd: nat, target: nat) returns (ok: bool)
      modifies this
      ensures ok <==> fd in old(open) && target < limit
      ensures ok ==> open == old(open)[target := Entry(old(open)[fd].file, true)]
      ensures !ok ==> open == old(open)
    {
      ok := fd in open && target < limit;
      if ok { open := open[target := Entry(open[fd].file, true)]; }
    }

    /** Copies a source until the copy is above the target range. Each low result fills one
        free low number, so the search ends. */
    method Lift(source: nat) returns (held: Option<nat>)
      requires source in open
      modifies this
      ensures held.Some? <==> FreeHigh(old(open), limit) != {}
      ensures held.Some? ==> Lifted(old(open), source, held.value, open)
      ensures held.Some? ==> held.value in FreeHigh(old(open), limit)
      ensures held.Some? ==> FreeHigh(open, limit) == FreeHigh(old(open), limit) - {held.value}
    {
      ghost var start := open;
      held := Dup(source);
      while held.Some? && held.value <= HighestTarget
        invariant held.Some? ==> held.value < limit && Lifting(start, source, held.value, open)
        invariant held.None? ==> FreeHigh(start, limit) == {}
        decreases if held.Some? then HighestTarget + 1 - held.value else 0
      {
        held := Dup(held.value);
      }
      if held.Some? {
        assert held.value in FreeHigh(start, limit);
      }
    }

    method Stage(pairs: seq<Pair>) returns (ok: bool, staged: seq<Held>)
      requires Sources(pairs) <= open.Keys
      modifies this
      ensures ok <==> |pairs| <= |FreeHigh(old(open), limit)|
      ensures ok ==> |staged| == |pairs| && Staged(old(open), pairs, staged, open)
    {
      ghost var start := open;
      staged := [];
      for n := 0 to |pairs|
        invariant |staged| == n && Staged(start, pairs, staged, open)
        invariant |FreeHigh(open, limit)| == |FreeHigh(start, limit)| - n
      {
        assert pairs[n].source in Sources(pairs);
        ghost var now := open;
        var held := Lift(pairs[n].source);
        if held.None? { return false, staged; }
        StageOne(start, pairs, staged, now, held.value, open);
        staged := staged + [Held(held.value, pairs[n].target)];
      }
      ok := true;
    }

    /** Closing fails on a number listed twice. */
    method CloseSources(pairs: seq<Pair>) returns (ok: bool)
      requires Sources(pairs) <= open.Keys
      modifies this
      ensures ok <==> SourcesDistinct(pairs)
      ensures ok ==> open == old(open) - Sources(pairs)
    {
      ghost var start := open;
      for n := 0 to |pairs|
        invariant open == start - Sources(pairs[..n]) && SourcesDistinct(pairs[..n])
      {
        SourcesGrow(pairs, n);
        ok := Close(pairs[n].source);
        if !ok {
          assert pairs[n].source in Sources(pairs[..n]);
          return;
        }
      }
      assert pairs[..|pairs|] == pairs;
      ok := true;
    }

    method Place(ghost before: Table, pairs: seq<Pair>, staged: seq<Held>) returns (ok: bool)
      requires Placed(before, pairs, 0, staged, open)
      requires TargetsDistinct(pairs)
      requires forall i :: 0 <= i < |pairs| ==> pairs[i].target <= HighestTarget < limit
      modifies this
      ensures ok && Placed(before, pairs, |pairs|, staged, open)
    {
      for n := 0 to |staged|
        invariant Placed(before, pairs, n, staged, open)
      {
        ghost var now := open;
        ok := Dup2(staged[n].fd, staged[n].target);
        if !ok { return; }
        ok := Close(staged[n].fd);
        if !ok { return; }
        PlaceOne(before, pairs, n, staged, now, open);
      }
      ok := true;
    }

    /** The whole remapping: it succeeds exactly when the sources are distinct and enough high
        numbers are free, and then every target is on its source's original file whatever the
        order and the overlap of sources and targets. */
    method Remap(pairs: seq<Pair>) returns (ok: bool)
      requires Sources(pairs) <= open.Keys && TargetsDistinct(pairs)
      requires forall i :: 0 <= i < |pairs| ==> pairs[i].target <= HighestTarget
      modifies this
      ensures ok <==> SourcesDistinct(pairs) && |pairs| <= |FreeHigh(old(open), limit)|
      ensures ok ==> Remapped(old(open), pairs, open)
    {
      ghost var before := open;
      var staged;
      ok, staged := Stage(pairs);
      if !ok { return; }
      ghost var now := open;
      ok := CloseSources(pairs);
      if !ok { return; }
      ReadyToPlace(before, pairs, staged, now, open);
      if pairs != [] {
        assert limit <= HighestTarget + 1 ==> FreeHigh(before, limit) == {};
      }
      ok := Place(before, pairs, staged);
      AllPlaced(before, pairs, staged, open);
    }
  }
}
