/**
 * The window accumulator's bookkeeping, shared by both acquisition loops:
 * the cursor `index` into the I and Q rows, `last_timestamp` and `fp_writes`.
 *
 * For every full chunk the loop first applies the boundary rule (the first
 * timestamp only seeds `last_timestamp`; a different timestamp closes the
 * window, bumps `fp_writes` and resets `index` to 0), then stores the chunk's
 * seven samples per sensor at `index..index+6` and adds 7 to `index`. The
 * source never checks that `index + 7 <= 450`; here that case is an explicit
 * overflow.
 */
module Window {
  import opened Layout

  datatype Cursor = Cursor(index: int, last: int, fpWrites: int)

  /** `index = 0`, `last_timestamp = 0`, `fp_writes = 1` before the loop starts. */
  const Start: Cursor := Cursor(0, 0, 1)

  /** A chunk stamped `ts` closes the window: `last_timestamp` was seeded and differs from `ts`. */
  predicate Closes(c: Cursor, ts: int) {
    c.last != 0 && c.last != ts
  }

  /**
   * The boundary rule: seed `last_timestamp` if it is 0, and on a change
   * count one more window (`fp_writes`) and restart the cursor. The
   * `index -= 7` that precedes `index = 0` in the source has no effect.
   */
  function Observe(c: Cursor, ts: int): (r: Cursor)
    ensures r.last == ts
    ensures r.fpWrites == if Closes(c, ts) then c.fpWrites + 1 else c.fpWrites
    ensures r.index == if Closes(c, ts) then 0 else c.index
  {
    var seeded := if c.last == 0 then c.(last := ts) else c;
    if seeded.last != ts then Cursor(0, ts, seeded.fpWrites + 1) else seeded
  }

  /** Whether the rows have room for seven more samples at the cursor. */
  predicate Room(c: Cursor) {
    c.index + SamplesPerChunk <= MaxSamples
  }

  /** `index += 7` after a chunk's samples are stored. */
  function Advance(c: Cursor): (r: Cursor)
    ensures r.index == c.index + SamplesPerChunk && r.last == c.last && r.fpWrites == c.fpWrites
  {
    c.(index := c.index + SamplesPerChunk)
  }

  /**
   * Feeding the timestamps of successive full chunks: either every chunk was
   * stored (`Filled`) or one found no room (`Overflowed`, at the cursor it
   * would have written at). `closed` lists the cursor reached by each window
   * when it was closed, oldest first.
   */
  datatype Track = Filled(cursor: Cursor, closed: seq<int>) | Overflowed(cursor: Cursor, closed: seq<int>)

  /** One full chunk stamped `ts`: the boundary rule, then the room check and the store. */
  function FeedOne(prev: Track, ts: int): Track
  {
    match prev
    case Overflowed(_, _) => prev
    case Filled(d, closed) =>
      var o := Observe(d, ts);
      var closed' := if Closes(d, ts) then closed + [d.index] else closed;
      if Room(o) then Filled(Advance(o), closed') else Overflowed(o, closed')
  }

  function Feed(c: Cursor, tss: seq<int>): Track
  {
    if tss == [] then Filled(c, []) else FeedOne(Feed(c, tss[..|tss| - 1]), tss[|tss| - 1])
  }

  lemma FeedSnoc(c: Cursor, tss: seq<int>, ts: int)
    ensures Feed(c, tss + [ts]) == FeedOne(Feed(c, tss), ts)
  {
    assert (tss + [ts])[..|tss|] == tss;
  }

  /** `fp_writes` is one more than the number of windows closed. */
  lemma {:induction false} FpWritesCountsWindows(c: Cursor, tss: seq<int>)
    ensures Feed(c, tss).cursor.fpWrites == c.fpWrites + |Feed(c, tss).closed|
  {
    if tss != [] {
      FpWritesCountsWindows(c, tss[..|tss| - 1]);
    }
  }

  /** The state every cursor reachable from `Start` is in. */
  predicate Reachable(c: Cursor) {
    && 0 <= c.index <= MaxSamples - 2
    && c.index % SamplesPerChunk == 0
    && (c.last != 0 ==> c.index >= SamplesPerChunk)
  }

  /**
   * Every window closed from `Start` holds a whole number of chunks, at least
   * one, and no more than the 64 the rows have room for.
   */
  lemma {:induction false} ClosedWindowsAreWholeChunks(tss: seq<int>)
    ensures Feed(Start, tss).Filled? ==> Reachable(Feed(Start, tss).cursor)
    ensures forall w :: w in Feed(Start, tss).closed ==>
      w % SamplesPerChunk == 0 && SamplesPerChunk <= w <= 64 * SamplesPerChunk
  {
    if tss != [] {
      ClosedWindowsAreWholeChunks(tss[..|tss| - 1]);
    }
  }

  /** `k` copies of `t`: repeated timestamps here, repeated wake-ups in the loops. */
  function Repeat<T>(t: T, k: nat): (r: seq<T>)
    ensures |r| == k && forall x :: 0 <= x < k ==> r[x] == t
  {
    if k == 0 then [] else Repeat(t, k - 1) + [t]
  }

  /**
   * Chunks that keep one non-zero timestamp never close a window: the cursor
   * grows by 7 per chunk while there is room.
   */
  lemma {:induction false} ConstantTimestamp(t: int, k: nat)
    requires t != 0 && k <= 64
    ensures Feed(Start, Repeat(t, k)) == Filled(Cursor(SamplesPerChunk * k, if k == 0 then 0 else t, 1), [])
  {
    if k > 0 {
      ConstantTimestamp(t, k - 1);
      FeedSnoc(Start, Repeat(t, k - 1), t);
    }
  }

  /** From the 65th chunk of one timestamp on, the rows have no room. */
  lemma {:induction false} ConstantTimestampOverflows(t: int, k: nat)
    requires t != 0 && k > 64
    ensures Feed(Start, Repeat(t, k)) == Overflowed(Cursor(448, t, 1), [])
  {
    if k == 65 {
      ConstantTimestamp(t, 64);
    } else {
      ConstantTimestampOverflows(t, k - 1);
    }
    FeedSnoc(Start, Repeat(t, k - 1), t);
  }

  /** The rows overflow exactly at the 65th chunk of one window. */
  lemma OverflowAtSixtyFifthChunk(t: int)
    requires t != 0
    ensures Feed(Start, Repeat(t, 64)).Filled?
    ensures Feed(Start, Repeat(t, 65)).Overflowed?
  {
    ConstantTimestamp(t, 64);
    ConstantTimestampOverflows(t, 65);
  }

  /**
   * Three chunks stamped 100 then two stamped 200: one window of 21 samples
   * is closed when 200 arrives, and the second window holds 14 samples.
   */
  lemma TwoWindows()
    ensures Feed(Start, [100, 100, 100, 200, 200]) == Filled(Cursor(14, 200, 2), [21])
  {
    FeedSnoc(Start, [], 100);
    assert [] + [100] == [100];
    assert Feed(Start, [100]) == Filled(Cursor(7, 100, 1), []);
    FeedSnoc(Start, [100], 100);
    assert [100] + [100] == [100, 100];
    assert Feed(Start, [100, 100]) == Filled(Cursor(14, 100, 1), []);
    FeedSnoc(Start, [100, 100], 100);
    assert [100, 100] + [100] == [100, 100, 100];
    assert Feed(Start, [100, 100, 100]) == Filled(Cursor(21, 100, 1), []);
    FeedSnoc(Start, [100, 100, 100], 200);
    assert [100, 100, 100] + [200] == [100, 100, 100, 200];
    assert Feed(Start, [100, 100, 100, 200]) == Filled(Cursor(7, 200, 2), [21]);
    FeedSnoc(Start, [100, 100, 100, 200], 200);
    assert [100, 100, 100, 200] + [200] == [100, 100, 100, 200, 200];
  }

  /**
   * A chunk stamped 0 closes the current window but leaves
   * `last_timestamp` at 0, so the next chunk only re-seeds it: the change
   * from 0 to `t` closes nothing and both chunks share one window.
   */
  lemma ZeroTimestampReseeds(c: Cursor, t: int)
    requires c.last != 0 && t != 0 && Reachable(c)
    ensures Feed(c, [0, t]) == Filled(Cursor(14, t, c.fpWrites + 1), [c.index])
  {
    FeedSnoc(c, [], 0);
    assert [] + [0] == [0];
    var first := Feed(c, [0]);
    assert Closes(c, 0);
    assert first == Filled(Cursor(SamplesPerChunk, 0, c.fpWrites + 1), [c.index]);
    FeedSnoc(c, [0], t);
    assert [0] + [t] == [0, t];
    assert !Closes(first.cursor, t);
  }
}
