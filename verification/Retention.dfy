/** Head/tail retention of the payload's output streams, chunk by chunk. */
module Retention {
  import opened Basics
  import opened Framing

  type Bytes = seq<Byte>

  // ---------- what is retained of a whole stream ----------

  /** The first bytes, up to the head budget; everything when there is none. */
  function HeadOf(headMax: Option<nat>, stream: Bytes): Bytes {
    match headMax
    case None => stream
    case Some(h) => stream[..Min(h, |stream|)]
  }

  function TailMax(headMax: Option<nat>, tailMax: Option<nat>): nat {
    if headMax.None? || tailMax.None? then 0 else tailMax.value
  }

  function LastOf(t: nat, rest: Bytes): Bytes {
    rest[|rest| - Min(t, |rest|)..]
  }

  /** The last bytes of what the head did not take, up to the tail budget. */
  function TailOf(headMax: Option<nat>, tailMax: Option<nat>, stream: Bytes): Bytes {
    LastOf(TailMax(headMax, tailMax), stream[|HeadOf(headMax, stream)|..])
  }

  function DroppedOf(headMax: Option<nat>, tailMax: Option<nat>, stream: Bytes): (dropped: nat)
    ensures |HeadOf(headMax, stream)| + |TailOf(headMax, tailMax, stream)| + dropped == |stream|
  {
    |stream| - |HeadOf(headMax, stream)| - |TailOf(headMax, tailMax, stream)|
  }

  /** Exactly the streams that fit the two budgets are kept whole. */
  lemma LosslessExactlyWhenItFits(headMax: Option<nat>, tailMax: Option<nat>, stream: Bytes)
    ensures DroppedOf(headMax, tailMax, stream) == 0
        <==> headMax.None? || |stream| <= headMax.value + TailMax(headMax, tailMax)
    ensures DroppedOf(headMax, tailMax, stream) == 0
        <==> HeadOf(headMax, stream) + TailOf(headMax, tailMax, stream) == stream
  {
    var head, tail := HeadOf(headMax, stream), TailOf(headMax, tailMax, stream);
    assert |head + tail| == |head| + |tail|;
    assert head == stream[..|head|];
    if DroppedOf(headMax, tailMax, stream) == 0 {
      assert tail == stream[|head|..];
    }
  }

  lemma Slice(bytes: Bytes, i: nat, k: nat)
    requires i + k <= |bytes|
    ensures bytes[i..][k..] == bytes[i + k..]
  {
  }

  lemma Cut(bytes: Bytes, i: nat, j: nat)
    requires i <= j <= |bytes|
    ensures bytes == bytes[..i] + bytes[i..j] + bytes[j..]
  {
  }

  /** Every dropped byte lies between head and tail. */
  lemma OnlyTheMiddleIsDropped(headMax: Option<nat>, tailMax: Option<nat>, stream: Bytes)
    ensures var (head, tail) := (HeadOf(headMax, stream), TailOf(headMax, tailMax, stream));
            head <= stream
            && stream == head + stream[|head|..|head| + DroppedOf(headMax, tailMax, stream)] + tail
  {
    var head := HeadOf(headMax, stream);
    var rest := stream[|head|..];
    var cut := |head| + DroppedOf(headMax, tailMax, stream);
    assert head == stream[..|head|];
    Slice(stream, |head|, DroppedOf(headMax, tailMax, stream));
    Cut(stream, |head|, cut);
  }

  /** Heads only grow and dropped bytes never come back. */
  lemma MoreNeverUndrops(headMax: Option<nat>, tailMax: Option<nat>, stream: Bytes, chunk: Bytes)
    ensures HeadOf(headMax, stream) <= HeadOf(headMax, stream + chunk)
    ensures DroppedOf(headMax, tailMax, stream) <= DroppedOf(headMax, tailMax, stream + chunk)
  {
    assert (stream + chunk)[..|stream|] == stream;
  }

  /** The step of `offer`: what a chunk does to the head, and to the tail behind a full head. */
  lemma HeadStep(h: nat, stream: Bytes, chunk: Bytes)
    ensures var room := Min(Max0(h - |HeadOf(Some(h), stream)|), |chunk|);
            && HeadOf(Some(h), stream + chunk) == HeadOf(Some(h), stream) + chunk[..room]
            && (chunk[room..] != [] ==> |HeadOf(Some(h), stream + chunk)| == h)
            && (stream + chunk)[|HeadOf(Some(h), stream + chunk)|..]
               == stream[|HeadOf(Some(h), stream)|..] + chunk[room..]
  {
    var room := Min(Max0(h - |HeadOf(Some(h), stream)|), |chunk|);
    assert (stream + chunk)[..|stream|] == stream;
    if |stream| <= h {
      assert HeadOf(Some(h), stream) == stream;
      assert (stream + chunk)[..|stream| + room] == stream + chunk[..room];
    } else {
      assert room == 0;
    }
  }

  function Max0(x: int): nat {
    if x > 0 then x else 0
  }

  /** Trimming as bytes arrive keeps the same last bytes as trimming once. */
  lemma TailStep(t: nat, rest: Bytes, chunk: Bytes)
    ensures LastOf(t, LastOf(t, rest) + chunk) == LastOf(t, rest + chunk)
  {
  }

  /** What an offer leaves behind, from what was there before. */
  lemma OfferStep(headMax: Option<nat>, tailMax: Option<nat>, stream: Bytes, chunk: Bytes, room: nat)
    requires headMax.Some? && room == Min(Max0(headMax.value - |HeadOf(headMax, stream)|), |chunk|)
    ensures HeadOf(headMax, stream + chunk) == HeadOf(headMax, stream) + chunk[..room]
    ensures TailOf(headMax, tailMax, stream + chunk)
         == LastOf(TailMax(headMax, tailMax), TailOf(headMax, tailMax, stream) + chunk[room..])
  {
    HeadStep(headMax.value, stream, chunk);
    TailStep(TailMax(headMax, tailMax), stream[|HeadOf(headMax, stream)|..], chunk[room..]);
  }

  lemma Trimmed(t: nat, bytes: Bytes)
    ensures LastOf(t, bytes) == if |bytes| > t then bytes[|bytes| - t..] else bytes
  {
  }

  lemma TailFits(headMax: Option<nat>, tailMax: Option<nat>, stream: Bytes)
    ensures |TailOf(headMax, tailMax, stream)| <= TailMax(headMax, tailMax)
  {
  }

  datatype RetainedStream = RetainedStream(head: Bytes, tail: Bytes, produced: nat, dropped: nat)

  /** The check every recorded stream must pass. */
  predicate Balanced(r: RetainedStream) {
    |r.head| + |r.tail| + r.dropped == r.produced
  }

  class StreamRetention {
    const headMax: Option<nat>
    const tailMax: Option<nat>
    var head: Bytes
    var tail: Bytes
    var produced: nat
    var dropped: nat
    ghost var seen: Bytes

    ghost predicate Valid()
      reads this
    {
      && head == HeadOf(headMax, seen)
      && tail == TailOf(headMax, tailMax, seen)
      && produced == |seen|
      && |head| + |tail| + dropped == produced
    }

    constructor (headMax: Option<nat>, tailMax: Option<nat>)
      ensures Valid() && seen == [] && this.headMax == headMax && this.tailMax == tailMax
    {
      this.headMax, this.tailMax := headMax, tailMax;
      head, tail, produced, dropped, seen := [], [], 0, 0, [];
    }

    /** Adds to the tail and trims it from the front. */
    method KeepTail(chunk: Bytes)
      requires headMax.Some? && |tail| <= TailMax(headMax, tailMax)
      modifies this`tail, this`dropped
      ensures tail == LastOf(TailMax(headMax, tailMax), old(tail) + chunk)
      ensures |tail| + dropped == old(|tail| + dropped) + |chunk|
    {
      Trimmed(TailMax(headMax, tailMax), tail + chunk);
      if chunk == [] { return; }
      if tailMax.None? || tailMax.value == 0 {
        dropped := dropped + |chunk|;
        return;
      }
      tail := tail + chunk;
      var overflow := |tail| - tailMax.value;
      if overflow > 0 {
        tail := tail[overflow..];
        dropped := dropped + overflow;
      }
    }

    /** However the stream is cut into chunks, what is kept is a function of the stream. */
    method Offer(chunk: Bytes)
      requires Valid()
      modifies this
      ensures Valid() && seen == old(seen) + chunk
    {
      produced := produced + |chunk|;
      seen := seen + chunk;
      if headMax.None? {
        head := head + chunk;
        return;
      }
      var room := Min(Max0(headMax.value - |head|), |chunk|);
      OfferStep(headMax, tailMax, old(seen), chunk, room);
      TailFits(headMax, tailMax, old(seen));
      head := head + chunk[..room];
      KeepTail(chunk[room..]);
    }

    /** The record of the stream. It satisfies the record's own check, so taking it never fails. */
    method Snapshot() returns (retained: RetainedStream)
      requires Valid()
      ensures retained.head == HeadOf(headMax, seen) && retained.tail == TailOf(headMax, tailMax, seen)
      ensures retained.produced == |seen| && retained.dropped == DroppedOf(headMax, tailMax, seen)
      ensures Balanced(retained)
    {
      retained := RetainedStream(head, tail, produced, dropped);
    }
  }

  // ---------- both streams under one budget ----------

  datatype Share = Share(head: nat, tail: nat)

  /** A finite budget; its shares must add up to its total. */
  datatype Budget = Budget(max: nat, stdout: Share, stderr: Share)

  predicate Consistent(b: Budget) {
    b.stdout.head + b.stdout.tail + b.stderr.head + b.stderr.tail == b.max
  }

  function Retained(share: Share, stream: Bytes): nat {
    |HeadOf(Some(share.head), stream)| + |TailOf(Some(share.head), Some(share.tail), stream)|
  }

  function Dropped(share: Share, stream: Bytes): nat {
    DroppedOf(Some(share.head), Some(share.tail), stream)
  }

  /** What is kept stays within the total, so output beyond it has been dropped somewhere. */
  lemma OverflowMeansDropping(b: Budget, out: Bytes, err: Bytes)
    requires Consistent(b)
    ensures Retained(b.stdout, out) + Retained(b.stderr, err) <= b.max
    ensures Dropped(b.stdout, out) + Dropped(b.stderr, err) >= |out| + |err| - b.max
    ensures |out| + |err| > b.max ==> Dropped(b.stdout, out) > 0 || Dropped(b.stderr, err) > 0
  {
    TailFits(Some(b.stdout.head), Some(b.stdout.tail), out);
    TailFits(Some(b.stderr.head), Some(b.stderr.tail), err);
  }

  /** Nothing is dropped exactly when each stream fits its own share. */
  lemma NothingDroppedExactlyWhenEachFits(b: Budget, out: Bytes, err: Bytes)
    ensures Dropped(b.stdout, out) + Dropped(b.stderr, err) == 0
        <==> |out| <= b.stdout.head + b.stdout.tail && |err| <= b.stderr.head + b.stderr.tail
  {
    LosslessExactlyWhenItFits(Some(b.stdout.head), Some(b.stdout.tail), out);
    LosslessExactlyWhenItFits(Some(b.stderr.head), Some(b.stderr.tail), err);
  }

  /** The converse of `OverflowMeansDropping` fails: one stream can exceed its share while the total holds. */
  lemma DroppingWithoutOverflow()
    ensures var b := Budget(2, Share(1, 0), Share(1, 0));
            Consistent(b) && Dropped(b.stdout, [0, 0]) == 1 && |[0, 0]| + 0 <= b.max
  {
  }

  /** The stream keeps to its share; without one it keeps everything. */
  predicate Follows(stream: StreamRetention, share: Option<Share>) {
    if share.None? then stream.headMax == None && stream.tailMax == None
    else stream.headMax == Some(share.value.head) && stream.tailMax == Some(share.value.tail)
  }

  method StreamFor(share: Option<Share>) returns (stream: StreamRetention)
    ensures fresh(stream) && stream.Valid() && stream.seen == [] && Follows(stream, share)
  {
    if share.None? {
      stream := new StreamRetention(None, None);
    } else {
      stream := new StreamRetention(Some(share.value.head), Some(share.value.tail));
    }
  }

  class PayloadRetention {
    const stdout: StreamRetention
    const stderr: StreamRetention
    const maxTotal: Option<nat>

    ghost predicate Valid()
      reads this, stdout, stderr
    {
      stdout != stderr && stdout.Valid() && stderr.Valid()
    }

    constructor ForBudget(budget: Option<Budget>)
      ensures Valid() && fresh(stdout) && fresh(stderr)
      ensures stdout.seen == [] && stderr.seen == []
      ensures maxTotal == (if budget.Some? then Some(budget.value.max) else None)
      ensures Follows(stdout, if budget.Some? then Some(budget.value.stdout) else None)
      ensures Follows(stderr, if budget.Some? then Some(budget.value.stderr) else None)
    {
      var out := StreamFor(if budget.Some? then Some(budget.value.stdout) else None);
      var err := StreamFor(if budget.Some? then Some(budget.value.stderr) else None);
      stdout, stderr := out, err;
      maxTotal := if budget.Some? then Some(budget.value.max) else None;
    }

    function Overflowed(): bool
      reads this, stdout, stderr
    {
      maxTotal.Some? && stdout.produced + stderr.produced > maxTotal.value
    }

    /** One chunk from the output pump. Overflow never reverts. */
    method Take(fromStderr: bool, chunk: Bytes) returns (overflow: bool)
      requires Valid()
      modifies stdout, stderr
      ensures Valid()
      ensures stdout.seen == old(stdout.seen) + if fromStderr then [] else chunk
      ensures stderr.seen == old(stderr.seen) + if fromStderr then chunk else []
      ensures overflow <==> maxTotal.Some? && |stdout.seen| + |stderr.seen| > maxTotal.value
      ensures old(Overflowed()) ==> overflow
    {
      if fromStderr {
        stderr.Offer(chunk);
      } else {
        stdout.Offer(chunk);
      }
      overflow := Overflowed();
    }
  }
}
