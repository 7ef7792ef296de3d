/**
 * The file-scope arrays both programs share (`I`, `Q`, `iq_buffer`,
 * `distance`, `amplitude`, `mode`) and the CSV log, with the operations the
 * acquisition loops apply to them: storing one chunk, and `log_data`, which
 * runs the range algorithm and writes the rows of a closed window.
 *
 * `Mem` is the value of that state; `Globals` is the state itself, whose
 * methods are proved to move its value exactly as the `Mem` functions say.
 */
module Memory {
  import opened Bytes
  import opened Layout
  import opened ChunkDecode
  import opened Rangefinder
  import opened LogRows

  datatype Mem = Mem(
    i: seq<seq<int>>,
    q: seq<seq<int>>,
    iq: seq<int>,
    distance: seq<int>,
    amplitude: seq<int>,
    mode: seq<int>,
    log: seq<LogRow>)

  predicate IsGrid(rows: seq<seq<int>>) {
    |rows| == MaxSensors && forall j :: 0 <= j < MaxSensors ==> |rows[j]| == MaxSamples
  }

  predicate MemOk(m: Mem) {
    && IsGrid(m.i) && IsGrid(m.q)
    && |m.iq| == 2 * MaxSamples
    && |m.distance| == MaxSensors && |m.amplitude| == MaxSensors && |m.mode| == MaxSensors
    && (forall j :: 0 <= j < MaxSensors ==> IsU16(m.distance[j]) && IsU16(m.amplitude[j]))
  }

  /** `sensor_connection`: six sensor indices. */
  predicate ConnectionOk(connection: seq<int>) {
    |connection| == MaxSensors && forall j :: 0 <= j < MaxSensors ==> 0 <= connection[j] < MaxSensors
  }

  /** Rows `0..n` of `rows` with `block[j]` written at `index..index+6`. */
  function WriteBlock(rows: seq<seq<int>>, block: seq<seq<int>>, n: int, index: int): (r: seq<seq<int>>)
    requires IsGrid(rows) && 0 <= n <= MaxSensors && |block| == n
    requires forall j :: 0 <= j < n ==> |block[j]| == SamplesPerChunk
    requires 0 <= index && index + SamplesPerChunk <= MaxSamples
    ensures IsGrid(r)
    ensures forall j, k :: 0 <= j < MaxSensors && 0 <= k < MaxSamples ==>
      r[j][k] == if j < n && index <= k < index + SamplesPerChunk then block[j][k - index] else rows[j][k]
  {
    seq(MaxSensors, j requires 0 <= j < MaxSensors =>
      if j < n then rows[j][..index] + block[j] + rows[j][index + SamplesPerChunk..] else rows[j])
  }

  /** `xs` with its first `|ys|` entries replaced by `ys`. */
  function Overlay(ys: seq<int>, xs: seq<int>): (r: seq<int>)
    requires |ys| <= |xs|
    ensures |r| == |xs|
    ensures forall k :: 0 <= k < |xs| ==> r[k] == if k < |ys| then ys[k] else xs[k]
  {
    ys + xs[|ys|..]
  }

  lemma OverlayPrefix(ys: seq<int>, xs: seq<int>)
    requires |ys| <= |xs|
    ensures Overlay(ys, xs)[..|ys|] == ys
  {
  }

  /**
   * The state after a full chunk is stored with the window cursor at
   * `index`: its samples go to `index..index+6` of the first `n` rows of I
   * and Q, and its trailer replaces the first `n` distances, amplitudes and
   * modes.
   */
  function WithChunk(m: Mem, c: Chunk, n: int, index: int): (r: Mem)
    requires MemOk(m) && WellShaped(c, n) && n <= MaxSensors
    requires 0 <= index && index + SamplesPerChunk <= MaxSamples
    ensures MemOk(r)
    ensures r.iq == m.iq && r.log == m.log
  {
    m.(i := WriteBlock(m.i, c.i, n, index),
       q := WriteBlock(m.q, c.q, n, index),
       distance := Overlay(c.distance, m.distance),
       amplitude := Overlay(c.amplitude, m.amplitude),
       mode := Overlay(c.mode, m.mode))
  }

  /** The first `sample` entries of row `j`. */
  function Head(rows: seq<seq<int>>, j: int, sample: int): seq<int>
    requires IsGrid(rows) && 0 <= j < MaxSensors && 0 <= sample <= MaxSamples
  {
    rows[j][..sample]
  }

  /** `iq_buffer` after the samples of sensor `dev` are copied in. */
  function Filled(m: Mem, dev: int, sample: int): (iq: seq<int>)
    requires MemOk(m) && 0 <= dev < MaxSensors && 0 <= sample <= MaxSamples
    ensures |iq| == 2 * MaxSamples
  {
    Overlay(Interleave(Head(m.i, dev, sample), Head(m.q, dev, sample)), m.iq)
  }

  /**
   * One pass of the first loop of `log_data`: for a sensor that `RunsRange`,
   * copy its samples into `iq_buffer`, call the library and keep the result
   * (a 32-bit value stored in an `unsigned short`).
   */
  function RangeOne(m: Mem, r: Ranging, connection: seq<int>, sample: int, algo: Algorithm, dev: int): (m': Mem)
    requires MemOk(m) && RangingOk(r) && ConnectionOk(connection)
    requires 0 <= dev < MaxSensors && 0 <= sample <= MaxSamples
    ensures MemOk(m')
  {
    if RunsRange(m.mode[dev], connection[dev]) then
      var iq := Filled(m, dev, sample);
      var req := Request(r, m.mode[dev], connection[dev], iq, sample);
      var out := algo(req.0, req.1);
      m.(iq := iq,
         distance := m.distance[dev := ToUShort(out.distanceToObject)],
         amplitude := m.amplitude[dev := ToUShort(out.magnitudeOfObject)])
    else m
  }

  /** The first loop of `log_data` over the sensors `0..k`. */
  function Ranged(m: Mem, r: Ranging, connection: seq<int>, sample: int, algo: Algorithm, k: int): (m': Mem)
    requires MemOk(m) && RangingOk(r) && ConnectionOk(connection)
    requires 0 <= k <= MaxSensors && 0 <= sample <= MaxSamples
    ensures MemOk(m')
  {
    if k == 0 then m else RangeOne(Ranged(m, r, connection, sample, algo, k - 1), r, connection, sample, algo, k - 1)
  }

  /** What the library answers for sensor `dev` when `log_data` starts from `m`. */
  function RangeResult(m: Mem, r: Ranging, connection: seq<int>, sample: int, algo: Algorithm, dev: int): RangeOutput
    requires MemOk(m) && RangingOk(r) && ConnectionOk(connection)
    requires 0 <= dev < MaxSensors && 0 <= sample <= MaxSamples
  {
    var req := Request(r, m.mode[dev], connection[dev], Filled(m, dev, sample), sample);
    algo(req.0, req.1)
  }

  /**
   * The range pass over sensors `0..k` changes only `iq_buffer`, distances
   * and amplitudes; each sensor that runs the range algorithm gets the
   * library's answer for its own samples (the buffer it sees holds those
   * samples over the buffer as it was before the pass), every other
   * sensor keeps its values.
   */
  lemma {:induction false} RangedResults(m: Mem, r: Ranging, connection: seq<int>, sample: int, algo: Algorithm, k: int)
    requires MemOk(m) && RangingOk(r) && ConnectionOk(connection)
    requires 0 <= k <= MaxSensors && 0 <= sample <= MaxSamples
    ensures var m' := Ranged(m, r, connection, sample, algo, k);
      && m'.i == m.i && m'.q == m.q && m'.mode == m.mode && m'.log == m.log
      && m'.iq[2 * sample..] == m.iq[2 * sample..]
      && forall j :: 0 <= j < MaxSensors ==>
        && m'.distance[j] == (if j < k && RunsRange(m.mode[j], connection[j])
                              then ToUShort(RangeResult(m, r, connection, sample, algo, j).distanceToObject)
                              else m.distance[j])
        && m'.amplitude[j] == (if j < k && RunsRange(m.mode[j], connection[j])
                               then ToUShort(RangeResult(m, r, connection, sample, algo, j).magnitudeOfObject)
                               else m.amplitude[j])
  {
    if k > 0 {
      RangedResults(m, r, connection, sample, algo, k - 1);
      var p := Ranged(m, r, connection, sample, algo, k - 1);
      RangeOneEffect(p, r, connection, sample, algo, k - 1);
      SameResult(p, m, r, connection, sample, algo, k - 1);
    }
  }

  /** One range step touches only `iq_buffer` and sensor `dev`'s distance and amplitude. */
  lemma RangeOneEffect(m: Mem, r: Ranging, connection: seq<int>, sample: int, algo: Algorithm, dev: int)
    requires MemOk(m) && RangingOk(r) && ConnectionOk(connection)
    requires 0 <= dev < MaxSensors && 0 <= sample <= MaxSamples
    ensures var m' := RangeOne(m, r, connection, sample, algo, dev);
      && m'.i == m.i && m'.q == m.q && m'.mode == m.mode && m'.log == m.log
      && m'.iq[2 * sample..] == m.iq[2 * sample..]
      && (forall j :: 0 <= j < MaxSensors && j != dev ==>
            m'.distance[j] == m.distance[j] && m'.amplitude[j] == m.amplitude[j])
      && m'.distance[dev] == (if RunsRange(m.mode[dev], connection[dev])
                              then ToUShort(RangeResult(m, r, connection, sample, algo, dev).distanceToObject)
                              else m.distance[dev])
      && m'.amplitude[dev] == (if RunsRange(m.mode[dev], connection[dev])
                               then ToUShort(RangeResult(m, r, connection, sample, algo, dev).magnitudeOfObject)
                               else m.amplitude[dev])
  {
    var iq := Filled(m, dev, sample);
    assert iq[2 * sample..] == m.iq[2 * sample..];
  }

  /** The library's answer depends on the samples, modes and buffer tail only. */
  lemma SameResult(p: Mem, m: Mem, r: Ranging, connection: seq<int>, sample: int, algo: Algorithm, dev: int)
    requires MemOk(p) && MemOk(m) && RangingOk(r) && ConnectionOk(connection)
    requires 0 <= dev < MaxSensors && 0 <= sample <= MaxSamples
    requires p.i == m.i && p.q == m.q && p.mode == m.mode && p.iq[2 * sample..] == m.iq[2 * sample..]
    ensures RangeResult(p, r, connection, sample, algo, dev) == RangeResult(m, r, connection, sample, algo, dev)
  {
    assert Filled(p, dev, sample) == Filled(m, dev, sample);
  }

  /** What `log_data` reads for its rows. */
  function SnapshotOf(m: Mem, n: int, connection: seq<int>, sample: int, timestamp: int): (s: Snapshot)
    requires MemOk(m) && ConnectionOk(connection) && 0 <= n <= MaxSensors && 0 <= sample <= MaxSamples
    ensures WellFormed(s)
  {
    Snapshot(n, m.mode, connection, m.distance, m.amplitude,
      seq(MaxSensors, j requires 0 <= j < MaxSensors => Head(m.i, j, sample)),
      seq(MaxSensors, j requires 0 <= j < MaxSensors => Head(m.q, j, sample)),
      timestamp)
  }

  /**
   * `log_data(num_sensors, sample, last_timestamp)`: the range pass over the
   * connected sensors, then the rows of the window, written with the
   * distances and amplitudes the range pass left.
   */
  function Logged(m: Mem, d: Dialect, r: Ranging, n: int, connection: seq<int>, sample: int,
                  timestamp: int, algo: Algorithm): (m': Mem)
    requires MemOk(m) && RangingOk(r) && ConnectionOk(connection)
    requires 0 <= n <= MaxSensors && 0 <= sample <= MaxSamples
    ensures MemOk(m')
  {
    var ranged := Ranged(m, r, connection, sample, algo, n);
    ranged.(log := ranged.log + Rows(d, SnapshotOf(ranged, n, connection, sample, timestamp), 0))
  }

  /**
   * One call of `log_data` keeps the rows already written and appends one
   * row per sensor before the first sensor in mode 0 (or per connected
   * sensor, if none is idle), and leaves the samples and modes alone.
   */
  lemma LoggedRowCount(m: Mem, d: Dialect, r: Ranging, n: int, connection: seq<int>, sample: int,
                       timestamp: int, algo: Algorithm)
    requires MemOk(m) && RangingOk(r) && ConnectionOk(connection)
    requires 0 <= n <= MaxSensors && 0 <= sample <= MaxSamples
    ensures var m' := Logged(m, d, r, n, connection, sample, timestamp, algo);
      && m'.i == m.i && m'.q == m.q && m'.mode == m.mode
      && |m.log| <= |m'.log| <= |m.log| + n && m'.log[..|m.log|] == m.log
      && (forall j :: 0 <= j < |m'.log| - |m.log| ==> m.mode[j] != 0)
      && (|m'.log| - |m.log| < n ==> m.mode[|m'.log| - |m.log|] == 0)
  {
    RangedResults(m, r, connection, sample, algo, n);
    var ranged := Ranged(m, r, connection, sample, algo, n);
    RowsStopAtFirstIdle(d, SnapshotOf(ranged, n, connection, sample, timestamp), 0);
  }

  /**
   * The row `log_data` writes for sensor `k`: stamped with the closed
   * window's timestamp; range and target flag from the distance the library
   * just returned for it (or the stored distance, for a sensor the range
   * algorithm is not run for); and, for a sensor at index below 3, the
   * first `sample` entries of its I and Q rows, which past the end of a
   * shorter window still hold earlier windows' samples.
   */
  lemma LoggedWindowRow(m: Mem, d: Dialect, r: Ranging, n: int, connection: seq<int>, sample: int,
                        timestamp: int, algo: Algorithm, k: int)
    requires MemOk(m) && RangingOk(r) && ConnectionOk(connection)
    requires 0 <= n <= MaxSensors && 0 <= sample <= MaxSamples
    requires 0 <= k < |Logged(m, d, r, n, connection, sample, timestamp, algo).log| - |m.log|
    ensures k < n
    ensures var row := Logged(m, d, r, n, connection, sample, timestamp, algo).log[|m.log| + k];
      var ranges := RunsRange(m.mode[k], connection[k]);
      var dist := if ranges then ToUShort(RangeResult(m, r, connection, sample, algo, k).distanceToObject) else m.distance[k];
      && row.timestamp == timestamp
      && row.range == dist / 10
      && row.amplitude == (if ranges then ToUShort(RangeResult(m, r, connection, sample, algo, k).magnitudeOfObject)
                           else m.amplitude[k])
      && (row.targetDetected == 0 <==> dist == 0 || dist == 0xFFFF)
      && (connection[k] < DevNumBoundary ==> row.iSamples == m.i[k][..sample] && row.qSamples == m.q[k][..sample])
      && (connection[k] >= DevNumBoundary ==> row.iSamples == [] && row.qSamples == [])
  {
    RangedResults(m, r, connection, sample, algo, n);
    var ranged := Ranged(m, r, connection, sample, algo, n);
    var snap := SnapshotOf(ranged, n, connection, sample, timestamp);
    LoggedRow(d, snap, k);
    assert Logged(m, d, r, n, connection, sample, timestamp, algo).log[|m.log| + k] == Rows(d, snap, 0)[k];
  }

  /** Static storage before the program runs: every array zeroed, nothing logged. */
  function ZeroMem(): (m: Mem)
    ensures MemOk(m)
  {
    var row := seq(MaxSamples, _ => 0);
    var grid := seq(MaxSensors, _ => row);
    var six := seq(MaxSensors, _ => 0);
    Mem(grid, grid, seq(2 * MaxSamples, _ => 0), six, six, six, [])
  }

  /** The I and Q arrays as rows. */
  function Grid(a: array2<int>): (rows: seq<seq<int>>)
    requires a.Length0 == MaxSensors && a.Length1 == MaxSamples
    reads a
    ensures IsGrid(rows)
    ensures forall j, k :: 0 <= j < MaxSensors && 0 <= k < MaxSamples ==> rows[j][k] == a[j, k]
  {
    seq(MaxSensors, j requires 0 <= j < MaxSensors reads a =>
      seq(MaxSamples, k requires 0 <= k < MaxSamples reads a => a[j, k]))
  }

  /** Two grids with the same cells are the same rows. */
  lemma GridsEqual(a: seq<seq<int>>, b: seq<seq<int>>)
    requires IsGrid(a) && IsGrid(b)
    requires forall j, k :: 0 <= j < MaxSensors && 0 <= k < MaxSamples ==> a[j][k] == b[j][k]
    ensures a == b
  {
    forall j | 0 <= j < MaxSensors
      ensures a[j] == b[j]
    {
      assert forall k :: 0 <= k < MaxSamples ==> a[j][k] == b[j][k];
    }
  }

  /**
   * The distance (or amplitude) loop: the `n` words from `base` on, each
   * assembled with the `unsigned short` shift-and-add, into `words[0..n)`.
   */
  method StoreWords(raw: seq<int>, n: int, scanBytes: int, base: int, words: array<int>)
    requires IsRaw(raw, n, scanBytes) && (base == DistanceOffset(n, 0) || base == AmplitudeOffset(n, 0))
    requires words.Length == MaxSensors
    modifies words
    ensures words[..] == Overlay(TrailerWords(raw, n, scanBytes, base), old(words[..]))
  {
    for j := 0 to n
      invariant forall x :: 0 <= x < MaxSensors ==>
        words[x] == if x < j then U16(raw[base + 2 * x], raw[base + 2 * x + 1]) else old(words[x])
    {
      UShortFromBytesIsU16(raw[base + 2 * j], raw[base + 2 * j + 1]);
      words[j] := UShortFromBytes(raw[base + 2 * j], raw[base + 2 * j + 1]);
    }
  }

  /** The mode loop: the `n` mode bytes at the end of the trailer, into `modes[0..n)`. */
  method StoreModes(raw: seq<int>, n: int, scanBytes: int, modes: array<int>)
    requires IsRaw(raw, n, scanBytes) && modes.Length == MaxSensors
    modifies modes
    ensures modes[..] == Overlay(Modes(raw, n, scanBytes), old(modes[..]))
  {
    for j := 0 to n
      invariant forall x :: 0 <= x < MaxSensors ==> modes[x] == if x < j then raw[ModeOffset(n, x)] else old(modes[x])
    {
      modes[j] := raw[ModeOffset(n, j)];
    }
  }

  class Globals {
    const I: array2<int>
    const Q: array2<int>
    const iqBuffer: array<int>
    const distance: array<int>
    const amplitude: array<int>
    const mode: array<int>
    /** The rows written to the CSV log so far. */
    var log: seq<LogRow>

    ghost predicate Valid() {
      && I.Length0 == MaxSensors && I.Length1 == MaxSamples
      && Q.Length0 == MaxSensors && Q.Length1 == MaxSamples
      && I != Q
      && iqBuffer.Length == 2 * MaxSamples
      && distance.Length == MaxSensors && amplitude.Length == MaxSensors && mode.Length == MaxSensors
      && distance != amplitude && distance != mode && amplitude != mode
      && iqBuffer != distance && iqBuffer != amplitude && iqBuffer != mode
    }

    function View(): (m: Mem)
      requires Valid()
      reads this, I, Q, iqBuffer, distance, amplitude, mode
    {
      Mem(Grid(I), Grid(Q), iqBuffer[..], distance[..], amplitude[..], mode[..], log)
    }

    /** The arrays start zeroed, as static storage does, and the log empty. */
    constructor ()
      ensures Valid() && fresh(I) && fresh(Q) && fresh(iqBuffer)
      ensures fresh(distance) && fresh(amplitude) && fresh(mode)
      ensures View() == ZeroMem()
    {
      I := new int[MaxSensors, MaxSamples]((_, _) => 0);
      Q := new int[MaxSensors, MaxSamples]((_, _) => 0);
      iqBuffer := new int[2 * MaxSamples](_ => 0);
      distance := new int[MaxSensors](_ => 0);
      amplitude := new int[MaxSensors](_ => 0);
      mode := new int[MaxSensors](_ => 0);
      log := [];
      new;
      GridsEqual(Grid(I), ZeroMem().i);
      GridsEqual(Grid(Q), ZeroMem().q);
    }

    /**
     * The sample loops of the acquisition loop: sample `k` of the `j`-th
     * sensor, assembled with the `short` shift-and-add from the chunk bytes,
     * goes to `I[j][k + index]` and `Q[j][k + index]`.
     */
    method StoreSamples(raw: seq<int>, n: int, scanBytes: int, index: int)
      requires Valid() && IsRaw(raw, n, scanBytes)
      requires 0 <= index && index + SamplesPerChunk <= MaxSamples
      modifies I, Q
      ensures Grid(I) == WriteBlock(old(Grid(I)), SampleRows(raw, n, scanBytes, false), n, index)
      ensures Grid(Q) == WriteBlock(old(Grid(Q)), SampleRows(raw, n, scanBytes, true), n, index)
    {
      ghost var i0, q0 := Grid(I), Grid(Q);
      ghost var iRows, qRows := SampleRows(raw, n, scanBytes, false), SampleRows(raw, n, scanBytes, true);
      for j := 0 to n
        invariant forall jj, k :: 0 <= jj < MaxSensors && 0 <= k < MaxSamples ==>
          I[jj, k] == if jj < j && index <= k < index + SamplesPerChunk then iRows[jj][k - index] else i0[jj][k]
        invariant forall jj, k :: 0 <= jj < MaxSensors && 0 <= k < MaxSamples ==>
          Q[jj, k] == if jj < j && index <= k < index + SamplesPerChunk then qRows[jj][k - index] else q0[jj][k]
      {
        StoreSensor(raw, n, scanBytes, j, index);
      }
      GridsEqual(Grid(I), WriteBlock(i0, iRows, n, index));
      GridsEqual(Grid(Q), WriteBlock(q0, qRows, n, index));
    }

    /** The inner sample loop, for the `j`-th connected sensor. */
    method StoreSensor(raw: seq<int>, n: int, scanBytes: int, j: int, index: int)
      requires Valid() && IsRaw(raw, n, scanBytes) && 0 <= j < n
      requires 0 <= index && index + SamplesPerChunk <= MaxSamples
      modifies I, Q
      ensures forall jj, k :: 0 <= jj < MaxSensors && 0 <= k < MaxSamples ==>
        I[jj, k] == if jj == j && index <= k < index + SamplesPerChunk
                    then SampleRows(raw, n, scanBytes, false)[j][k - index] else old(I[jj, k])
      ensures forall jj, k :: 0 <= jj < MaxSensors && 0 <= k < MaxSamples ==>
        Q[jj, k] == if jj == j && index <= k < index + SamplesPerChunk
                    then SampleRows(raw, n, scanBytes, true)[j][k - index] else old(Q[jj, k])
    {
      for s := 0 to SamplesPerChunk
        invariant forall jj, k :: 0 <= jj < MaxSensors && 0 <= k < MaxSamples ==>
          I[jj, k] == if jj == j && index <= k < index + s then DecodeI(raw, n, scanBytes, j, k - index) else old(I[jj, k])
        invariant forall jj, k :: 0 <= jj < MaxSensors && 0 <= k < MaxSamples ==>
          Q[jj, k] == if jj == j && index <= k < index + s then DecodeQ(raw, n, scanBytes, j, k - index) else old(Q[jj, k])
      {
        ShortFromBytesIsI16(raw[IOffset(s, j)], raw[IOffset(s, j) + 1]);
        ShortFromBytesIsI16(raw[QOffset(s, j)], raw[QOffset(s, j) + 1]);
        I[j, s + index] := ShortFromBytes(raw[IOffset(s, j)], raw[IOffset(s, j) + 1]);
        Q[j, s + index] := ShortFromBytes(raw[QOffset(s, j)], raw[QOffset(s, j) + 1]);
      }
    }

    /**
     * The trailer loops: the first `n` distances and amplitudes, assembled
     * with the `unsigned short` shift-and-add, and the first `n` modes.
     */
    method StoreTrailer(raw: seq<int>, n: int, scanBytes: int)
      requires Valid() && IsRaw(raw, n, scanBytes)
      modifies distance, amplitude, mode
      ensures distance[..] == Overlay(Decode(raw, n, scanBytes).distance, old(distance[..]))
      ensures amplitude[..] == Overlay(Decode(raw, n, scanBytes).amplitude, old(amplitude[..]))
      ensures mode[..] == Overlay(Decode(raw, n, scanBytes).mode, old(mode[..]))
    {
      StoreWords(raw, n, scanBytes, DistanceOffset(n, 0), distance);
      StoreWords(raw, n, scanBytes, AmplitudeOffset(n, 0), amplitude);
      StoreModes(raw, n, scanBytes, mode);
    }

    /** A full chunk: its samples at the cursor, then its trailer. */
    method StoreChunk(raw: seq<int>, n: int, scanBytes: int, index: int)
      requires Valid() && IsRaw(raw, n, scanBytes) && MemOk(View())
      requires 0 <= index && index + SamplesPerChunk <= MaxSamples
      modifies I, Q, distance, amplitude, mode
      ensures View() == WithChunk(old(View()), Decode(raw, n, scanBytes), n, index)
    {
      StoreSamples(raw, n, scanBytes, index);
      StoreTrailer(raw, n, scanBytes);
    }

    /** The copy of sensor `dev`'s first `sample` (I, Q) pairs into `iq_buffer`. */
    method FillIq(dev: int, sample: int)
      requires Valid() && 0 <= dev < MaxSensors && 0 <= sample <= MaxSamples
      modifies iqBuffer
      ensures iqBuffer[..] == Overlay(Interleave(Head(Grid(I), dev, sample), Head(Grid(Q), dev, sample)), old(iqBuffer[..]))
    {
      ghost var iRow, qRow := Head(Grid(I), dev, sample), Head(Grid(Q), dev, sample);
      for s := 0 to sample
        invariant forall p :: 0 <= p < 2 * MaxSamples ==>
          iqBuffer[p] == if p < 2 * s then (if p % 2 == 0 then iRow[p / 2] else qRow[p / 2]) else old(iqBuffer[p])
      {
        iqBuffer[2 * s] := I[dev, s];
        iqBuffer[2 * s + 1] := Q[dev, s];
      }
      ghost var want := Overlay(Interleave(iRow, qRow), old(iqBuffer[..]));
      forall p | 0 <= p < 2 * MaxSamples
        ensures iqBuffer[p] == want[p]
      {
        if p < 2 * sample {
          assert p == 2 * (p / 2) + p % 2;
        }
      }
    }
      /**
     * The first loop of `log_data`: for each connected sensor that
     * `RunsRange`, copy its samples into `iq_buffer`, call the library and
     * store the answer.
     */
    method RangePass(r: Ranging, n: int, connection: seq<int>, sample: int, algo: Algorithm)
      requires Valid() && MemOk(View()) && RangingOk(r) && ConnectionOk(connection)
      requires 0 <= n <= MaxSensors && 0 <= sample <= MaxSamples
      modifies iqBuffer, distance, amplitude
      ensures View() == Ranged(old(View()), r, connection, sample, algo, n)
    {
      for dev := 0 to n
        invariant MemOk(View())
        invariant View() == Ranged(old(View()), r, connection, sample, algo, dev)
      {
        RangeSensor(r, connection, sample, algo, dev);
      }
    }

    /** One pass of that loop, for sensor `dev`. */
    method RangeSensor(r: Ranging, connection: seq<int>, sample: int, algo: Algorithm, dev: int)
      requires Valid() && MemOk(View()) && RangingOk(r) && ConnectionOk(connection)
      requires 0 <= dev < MaxSensors && 0 <= sample <= MaxSamples
      modifies iqBuffer, distance, amplitude
      ensures View() == RangeOne(old(View()), r, connection, sample, algo, dev)
    {
      if RunsRange(mode[dev], connection[dev]) {
        FillIq(dev, sample);
        var req := Request(r, mode[dev], connection[dev], iqBuffer[..], sample);
        var out := algo(req.0, req.1);
        distance[dev] := ToUShort(out.distanceToObject);
        amplitude[dev] := ToUShort(out.magnitudeOfObject);
      }
    }

    /**
     * The second loop of `log_data`: one row per connected sensor, stopping
     * at the first sensor in mode 0.
     */
    method EmitRows(d: Dialect, n: int, connection: seq<int>, sample: int, timestamp: int)
      requires Valid() && MemOk(View()) && ConnectionOk(connection)
      requires 0 <= n <= MaxSensors && 0 <= sample <= MaxSamples
      modifies this
      ensures log == old(log) + Rows(d, SnapshotOf(View(), n, connection, sample, timestamp), 0)
    {
      ghost var s := SnapshotOf(View(), n, connection, sample, timestamp);
      assert Shows(s, sample);
      EmitFrom(d, s, n, connection, sample, timestamp);
    }

    /** The loop itself, over the snapshot `s` the arrays show. */
    method EmitFrom(d: Dialect, ghost s: Snapshot, n: int, connection: seq<int>, sample: int, timestamp: int)
      requires Valid() && Shows(s, sample)
      requires s.n == n && s.connection == connection && s.timestamp == timestamp
      modifies this`log
      ensures log == old(log) + Rows(d, s, 0)
    {
      var dev := 0;
      while dev < n
        invariant 0 <= dev <= n
        invariant old(log) + Rows(d, s, 0) == log + Rows(d, s, dev)
      {
        if mode[dev] == 0 {
          break;
        }
        var row := BuildRow(d, s, n, connection, sample, timestamp, dev);
        log := log + [row];
        dev := dev + 1;
      }
    }

    /** Whether `s` holds the arrays' current contents. */
    ghost predicate Shows(s: Snapshot, sample: int)
      requires Valid()
      reads I, Q, distance, amplitude, mode
    {
      && WellFormed(s) && 0 <= sample <= MaxSamples
      && s.modes == mode[..] && s.distance == distance[..] && s.amplitude == amplitude[..]
      && forall j :: 0 <= j < MaxSensors ==> s.iRows[j] == Grid(I)[j][..sample] && s.qRows[j] == Grid(Q)[j][..sample]
    }

    /** One line of the second loop of `log_data`, for sensor `dev`. */
    method BuildRow(d: Dialect, ghost s: Snapshot, n: int, connection: seq<int>, sample: int, timestamp: int, dev: int)
      returns (row: LogRow)
      requires Valid() && Shows(s, sample)
      requires s.n == n && s.connection == connection && s.timestamp == timestamp && 0 <= dev < n
      ensures row == Row(d, s, dev)
    {
      var own := SensorId(d, connection[dev]);
      var ids := [];
      if mode[dev] == TxRxMode {
        ids := [own, own];
      }
      if mode[dev] == RxOnlyMode {
        for j := 0 to n
          invariant ids == Transmitters(d, s, j)
        {
          if mode[j] == TxRxMode && connection[j] < TransmitterBound(d) {
            ids := ids + [SensorId(d, connection[j])];
          }
        }
        ids := ids + [own];
      }
      var iSamples, qSamples := [], [];
      if connection[dev] < DevNumBoundary {
        for k := 0 to sample
          invariant iSamples == Grid(I)[dev][..k] && qSamples == Grid(Q)[dev][..k]
        {
          iSamples := iSamples + [I[dev, k]];
          qSamples := qSamples + [Q[dev, k]];
        }
      }
      var target := if distance[dev] == 0xFFFF || distance[dev] == 0 then 0 else 1;
      row := LogRow(timestamp, ids, distance[dev] / 10, amplitude[dev], target, iSamples, qSamples);
    }

    /** `log_data`: the range pass, then the rows of the window stamped `timestamp`. */
    method LogData(d: Dialect, r: Ranging, n: int, connection: seq<int>, sample: int,
                   timestamp: int, algo: Algorithm)
      requires Valid() && MemOk(View()) && RangingOk(r) && ConnectionOk(connection)
      requires 0 <= n <= MaxSensors && 0 <= sample <= MaxSamples
      modifies this, iqBuffer, distance, amplitude
      ensures View() == Logged(old(View()), d, r, n, connection, sample, timestamp, algo)
    {
      RangePass(r, n, connection, sample, algo);
      EmitRows(d, n, connection, sample, timestamp);
    }
  }
}
