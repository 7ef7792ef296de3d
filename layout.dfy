/**
 * Constants of the streaming set-up and the byte layout of one IIO chunk as a
 * function of the number of connected sensors.
 *
 * A chunk for `n` connected sensors holds, from byte 0:
 *   - n blocks of 28 bytes, one per connected sensor, each with 7 (I, Q)
 *     pairs of little-endian int16 (I at 4i, Q at 4i + 2 inside the block);
 *   - n little-endian u16 distances at 28n, n u16 amplitudes at 30n and
 *     n mode bytes at 32n (the trailer, ending at 33n);
 *   - an 8-byte timestamp at the last 8 bytes of the chunk.
 */
module Layout {

  const MaxSensors: int := 6
  /** MAX_NUM_SAMPLES: capacity of each row of I and Q. */
  const MaxSamples: int := 450
  /** (I, Q) pairs per sensor in one chunk. */
  const SamplesPerChunk: int := 7
  /** Bytes of one sensor's (I, Q) block. */
  const SensorStride: int := 28
  /** MAX_CH_IIO_BUFFER: the chunk size the C program forces for six sensors. */
  const IioBufferMax: int := 256
  /** Size in bytes of `orig_buffer` in the C++ program (32 `long long`). */
  const ChirpBufferBytes: int := 256
  const TxRxMode: int := 0x10
  const RxOnlyMode: int := 0x20
  /** Sensor index below which the range algorithm is run and samples are logged. */
  const DevNumBoundary: int := 3

  /** `sensor_connected[i]` as `check_sensor_connection` sets it from `op_freq[i]`. */
  function ConnectedFlags(opFreq: seq<int>): (flags: seq<int>)
    ensures |flags| == |opFreq|
    ensures forall i :: 0 <= i < |opFreq| ==> (flags[i] == 1 <==> opFreq[i] != 0)
    ensures forall i :: 0 <= i < |opFreq| ==> (flags[i] == 0 <==> opFreq[i] == 0)
  {
    seq(|opFreq|, i requires 0 <= i < |opFreq| => if opFreq[i] != 0 then 1 else 0)
  }

  predicate IsFlags(flags: seq<int>) {
    forall i :: 0 <= i < |flags| ==> flags[i] == 0 || flags[i] == 1
  }

  /** Number of set flags among the first `k`. */
  function CountSet(flags: seq<int>, k: nat): (r: nat)
    requires k <= |flags| && IsFlags(flags)
    ensures r <= k
  {
    if k == 0 then 0 else CountSet(flags, k - 1) + flags[k - 1]
  }

  /**
   * The indices below `k` whose flag is set, in increasing order:
   * what the compaction loop leaves in `sensor_connection[0..n)`.
   */
  function Compaction(flags: seq<int>, k: nat): (r: seq<int>)
    requires k <= |flags| && IsFlags(flags)
    ensures |r| == CountSet(flags, k)
    ensures forall a :: 0 <= a < |r| ==> 0 <= r[a] < k
  {
    if k == 0 then []
    else if flags[k - 1] == 1 then Compaction(flags, k - 1) + [k - 1]
    else Compaction(flags, k - 1)
  }

  /**
   * The accumulation and compaction loops of `confSensors` and `Chirp::init`:
   * `iqBytes` is 32 bytes per connected sensor (before the 32 trailer bytes
   * are added), `numSensors` the number of connected sensors and `connection`
   * the six-entry `sensor_connection` array, which starts zeroed.
   */
  method DetectSensors(flags: seq<int>) returns (iqBytes: int, numSensors: int, connection: seq<int>)
    requires |flags| == MaxSensors && IsFlags(flags)
    ensures numSensors == CountSet(flags, MaxSensors) && 0 <= numSensors <= MaxSensors
    ensures iqBytes == 32 * numSensors
    ensures |connection| == MaxSensors
    ensures connection[..numSensors] == Compaction(flags, MaxSensors)
    ensures forall x :: numSensors <= x < MaxSensors ==> connection[x] == 0
    ensures connection == SensorConnection(flags)
  {
    iqBytes, numSensors := 0, 0;
    for i := 0 to MaxSensors
      invariant numSensors == CountSet(flags, i)
      invariant iqBytes == 32 * numSensors
    {
      iqBytes := iqBytes + flags[i] * 32;
      numSensors := numSensors + flags[i];
    }
    connection := CompactIndices(flags);
    SensorConnectionUnique(flags, connection);
  }

  /** The second loop: the connected indices in order at the front of a zeroed array. */
  method CompactIndices(flags: seq<int>) returns (connection: seq<int>)
    requires |flags| == MaxSensors && IsFlags(flags)
    ensures |connection| == MaxSensors
    ensures connection[..CountSet(flags, MaxSensors)] == Compaction(flags, MaxSensors)
    ensures forall x :: CountSet(flags, MaxSensors) <= x < MaxSensors ==> connection[x] == 0
  {
    connection := [0, 0, 0, 0, 0, 0];
    var index := 0;
    for i := 0 to MaxSensors
      invariant index == CountSet(flags, i) && |connection| == MaxSensors
      invariant connection[..index] == Compaction(flags, i)
      invariant forall x :: index <= x < MaxSensors ==> connection[x] == 0
    {
      ghost var before := connection;
      if flags[i] == 1 {
        connection := connection[index := i];
        assert connection[..index + 1] == before[..index] + [i];
        index := index + 1;
      }
    }
  }

  /** The compacted indices followed by zeros are `SensorConnection`. */
  lemma SensorConnectionUnique(flags: seq<int>, connection: seq<int>)
    requires |flags| == MaxSensors && IsFlags(flags) && |connection| == MaxSensors
    requires connection[..CountSet(flags, MaxSensors)] == Compaction(flags, MaxSensors)
    requires forall x :: CountSet(flags, MaxSensors) <= x < MaxSensors ==> connection[x] == 0
    ensures connection == SensorConnection(flags)
  {
    var n, s := CountSet(flags, MaxSensors), SensorConnection(flags);
    assert connection[..n] == s[..n];
    forall x | 0 <= x < MaxSensors
      ensures connection[x] == s[x]
    {
      if x < n {
        assert connection[x] == connection[..n][x];
        assert s[x] == s[..n][x];
      }
    }
  }

  /** `sensor_connection` after the compaction loop: the connected indices, then zeros. */
  function SensorConnection(flags: seq<int>): (connection: seq<int>)
    requires |flags| == MaxSensors && IsFlags(flags)
    ensures |connection| == MaxSensors
    ensures connection[..CountSet(flags, MaxSensors)] == Compaction(flags, MaxSensors)
    ensures forall x :: CountSet(flags, MaxSensors) <= x < MaxSensors ==> connection[x] == 0
    ensures forall x :: 0 <= x < MaxSensors ==> 0 <= connection[x] < MaxSensors
  {
    var c := Compaction(flags, MaxSensors);
    var r := c + seq(MaxSensors - |c|, _ => 0);
    assert r[..|c|] == c;
    r
  }

  /**
   * The compacted list is strictly increasing and holds exactly the indices
   * below `k` whose flag is set.
   */
  lemma {:induction false} CompactionOrdered(flags: seq<int>, k: nat)
    requires k <= |flags| && IsFlags(flags)
    ensures var r := Compaction(flags, k);
      && (forall a, b :: 0 <= a < b < |r| ==> r[a] < r[b])
      && (forall x :: 0 <= x < k ==> (x in r <==> flags[x] == 1))
  {
    if k > 0 {
      CompactionOrdered(flags, k - 1);
    }
  }

  /** The connected sensors' entries of `sensor_connection` are strictly increasing, so never repeat. */
  lemma SensorConnectionIncreasing(flags: seq<int>)
    requires |flags| == MaxSensors && IsFlags(flags)
    ensures var c := SensorConnection(flags);
      forall a, b :: 0 <= a < b < CountSet(flags, MaxSensors) ==> c[a] < c[b]
  {
    CompactionOrdered(flags, MaxSensors);
    var c := SensorConnection(flags);
    var r := Compaction(flags, MaxSensors);
    forall a, b | 0 <= a < b < CountSet(flags, MaxSensors)
      ensures c[a] < c[b]
    {
      assert c[a] == c[..CountSet(flags, MaxSensors)][a] == r[a];
      assert c[b] == c[..CountSet(flags, MaxSensors)][b] == r[b];
    }
  }

  /** Chunk size of the C program: 32n + 32, forced to 256 for six sensors. */
  function ScanBytesC(n: int): (scanBytes: int)
    ensures 0 <= n <= MaxSensors ==> FitsLayout(n, scanBytes) && scanBytes <= IioBufferMax
  {
    if n == 6 then IioBufferMax else 32 * n + 32
  }

  /** Chunk size of the C++ program: 32n + 32, with no override. */
  function ScanBytesCpp(n: int): (scanBytes: int)
    ensures 0 <= n <= MaxSensors ==> FitsLayout(n, scanBytes) && scanBytes <= ChirpBufferBytes
  {
    32 * n + 32
  }

  /** Offset of the low byte of I for sample `i` of the `j`-th connected sensor. */
  function IOffset(i: int, j: int): int {
    4 * i + SensorStride * j
  }

  /** Offset of the low byte of Q for sample `i` of the `j`-th connected sensor. */
  function QOffset(i: int, j: int): int {
    4 * i + 2 + SensorStride * j
  }

  function DistanceOffset(n: int, j: int): int {
    SensorStride * n + 2 * j
  }

  function AmplitudeOffset(n: int, j: int): int {
    30 * n + 2 * j
  }

  function ModeOffset(n: int, j: int): int {
    32 * n + j
  }

  /** Where the trailer (distances, amplitudes, modes) ends. */
  function TrailerEnd(n: int): int {
    33 * n
  }

  function TimestampOffset(scanBytes: int): int {
    scanBytes - 8
  }

  /** The sample blocks and the trailer lie before the timestamp, which ends the chunk. */
  predicate FitsLayout(n: int, scanBytes: int) {
    0 <= n <= MaxSensors && TrailerEnd(n) <= TimestampOffset(scanBytes)
  }

  /**
   * Both programs' chunk sizes leave room for the samples, the trailer and the
   * timestamp, and the C++ chunk fits its 256-byte buffer, for every sensor count.
   */
  lemma ChunkSizesFit(n: int)
    requires 0 <= n <= MaxSensors
    ensures FitsLayout(n, ScanBytesC(n)) && FitsLayout(n, ScanBytesCpp(n))
    ensures ScanBytesCpp(n) <= ChirpBufferBytes && ScanBytesC(n) <= IioBufferMax
    ensures 1 <= n ==> TrailerEnd(n) < TimestampOffset(ScanBytesC(n))
  {
  }

  /** The (I, Q) byte positions of distinct (sample, sensor) slots never overlap and stay in the block region. */
  lemma SampleOffsetsDistinct(i1: int, j1: int, i2: int, j2: int, n: int)
    requires 0 <= i1 < SamplesPerChunk && 0 <= i2 < SamplesPerChunk
    requires 0 <= j1 < n && 0 <= j2 < n
    requires (i1, j1) != (i2, j2)
    ensures IOffset(i1, j1) + 3 < SensorStride * n
    ensures IOffset(i1, j1) != IOffset(i2, j2)
    ensures IOffset(i1, j1) != QOffset(i2, j2)
    ensures IOffset(i1, j1) + 1 != IOffset(i2, j2) && QOffset(i1, j1) + 1 != QOffset(i2, j2)
  {
  }
}
