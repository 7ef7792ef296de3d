/**
 * Decoding of one full IIO chunk (the body of the `bytes == target_bytes`
 * branch of the acquisition loop, before anything is stored), and the
 * encoding that inverts it.
 */
module ChunkDecode {
  import opened Bytes
  import opened Layout

  /** The fields of one chunk for `n` connected sensors, in sensor order. */
  datatype Chunk = Chunk(
    timestamp: int,
    i: seq<seq<int>>,
    q: seq<seq<int>>,
    distance: seq<int>,
    amplitude: seq<int>,
    mode: seq<int>)

  predicate WellShaped(c: Chunk, n: int) {
    && n >= 0
    && |c.i| == n && |c.q| == n
    && |c.distance| == n && |c.amplitude| == n && |c.mode| == n
    && (forall j :: 0 <= j < n ==> |c.i[j]| == SamplesPerChunk && |c.q[j]| == SamplesPerChunk)
    && (forall j, k :: 0 <= j < n && 0 <= k < |c.i[j]| ==> IsI16(c.i[j][k]))
    && (forall j, k :: 0 <= j < n && 0 <= k < |c.q[j]| ==> IsI16(c.q[j][k]))
    && (forall j :: 0 <= j < n ==> IsU16(c.distance[j]) && IsU16(c.amplitude[j]) && IsByte(c.mode[j]))
    && IsI64(c.timestamp)
  }

  predicate IsRaw(raw: seq<int>, n: int, scanBytes: int) {
    FitsLayout(n, scanBytes) && |raw| == scanBytes && AllBytes(raw)
  }

  function DecodeI(raw: seq<int>, n: int, scanBytes: int, j: int, k: int): int
    requires IsRaw(raw, n, scanBytes) && 0 <= j < n && 0 <= k < SamplesPerChunk
  {
    I16(raw[IOffset(k, j)], raw[IOffset(k, j) + 1])
  }

  function DecodeQ(raw: seq<int>, n: int, scanBytes: int, j: int, k: int): int
    requires IsRaw(raw, n, scanBytes) && 0 <= j < n && 0 <= k < SamplesPerChunk
  {
    I16(raw[QOffset(k, j)], raw[QOffset(k, j) + 1])
  }

  /** The I (or, with `isQ`, the Q) samples of the `n` sensors, 7 per sensor. */
  function SampleRows(raw: seq<int>, n: int, scanBytes: int, isQ: bool): (rows: seq<seq<int>>)
    requires IsRaw(raw, n, scanBytes)
    ensures |rows| == n
    ensures forall j :: 0 <= j < n ==> |rows[j]| == SamplesPerChunk
    ensures forall j, k :: 0 <= j < n && 0 <= k < |rows[j]| ==> IsI16(rows[j][k])
  {
    seq(n, j requires 0 <= j < n =>
      seq(SamplesPerChunk, k requires 0 <= k < SamplesPerChunk =>
        if isQ then DecodeQ(raw, n, scanBytes, j, k) else DecodeI(raw, n, scanBytes, j, k)))
  }

  /** The `n` little-endian 16-bit words from `base` on: the distances at 28n, the amplitudes at 30n. */
  function TrailerWords(raw: seq<int>, n: int, scanBytes: int, base: int): (words: seq<int>)
    requires IsRaw(raw, n, scanBytes) && (base == DistanceOffset(n, 0) || base == AmplitudeOffset(n, 0))
    ensures |words| == n && forall j :: 0 <= j < n ==> IsU16(words[j])
  {
    seq(n, j requires 0 <= j < n => U16(raw[base + 2 * j], raw[base + 2 * j + 1]))
  }

  /** The sensor modes at the end of the trailer. */
  function Modes(raw: seq<int>, n: int, scanBytes: int): (modes: seq<int>)
    requires IsRaw(raw, n, scanBytes)
    ensures |modes| == n && forall j :: 0 <= j < n ==> IsByte(modes[j])
  {
    seq(n, j requires 0 <= j < n => raw[ModeOffset(n, j)])
  }

  /**
   * The fields of a full chunk: the timestamp at `scanBytes - 8`, the (I, Q)
   * pairs at stride 28 per sensor and 4 per sample, and the trailer at 28n.
   */
  function Decode(raw: seq<int>, n: int, scanBytes: int): (c: Chunk)
    requires IsRaw(raw, n, scanBytes)
    ensures WellShaped(c, n)
  {
    Chunk(
      I64(raw[TimestampOffset(scanBytes)..]),
      SampleRows(raw, n, scanBytes, false),
      SampleRows(raw, n, scanBytes, true),
      TrailerWords(raw, n, scanBytes, DistanceOffset(n, 0)),
      TrailerWords(raw, n, scanBytes, AmplitudeOffset(n, 0)),
      Modes(raw, n, scanBytes))
  }

  /** Just the timestamp of a chunk, which is all the boundary rule looks at. */
  function Timestamp(raw: seq<int>, scanBytes: int): (t: int)
    requires 8 <= scanBytes == |raw| && AllBytes(raw)
    ensures IsI64(t)
  {
    I64(raw[TimestampOffset(scanBytes)..])
  }

  lemma TimestampOfDecode(raw: seq<int>, n: int, scanBytes: int)
    requires IsRaw(raw, n, scanBytes)
    ensures Decode(raw, n, scanBytes).timestamp == Timestamp(raw, scanBytes)
  {
  }

  /** Bytes between the end of the trailer and the timestamp, which no field uses. */
  predicate IsGap(gap: seq<int>, n: int, scanBytes: int) {
    |gap| == TimestampOffset(scanBytes) - TrailerEnd(n) && AllBytes(gap)
  }

  function Low(v: int): int
    requires IsI16(v) || IsU16(v)
  {
    Split16(v).0
  }

  function High(v: int): int
    requires IsI16(v) || IsU16(v)
  {
    Split16(v).1
  }

  /** Byte `p` of the chunk that carries `c`. */
  function ByteAt(c: Chunk, n: int, scanBytes: int, gap: seq<int>, p: int): (b: int)
    requires WellShaped(c, n) && FitsLayout(n, scanBytes) && IsGap(gap, n, scanBytes)
    requires 0 <= p < scanBytes
    ensures IsByte(b)
  {
    if p < SensorStride * n then
      var j, r := p / SensorStride, p % SensorStride;
      var k, w := r / 4, r % 4;
      var v := if w < 2 then c.i[j][k] else c.q[j][k];
      if w % 2 == 0 then Low(v) else High(v)
    else if p < 30 * n then
      var j := (p - SensorStride * n) / 2;
      if (p - SensorStride * n) % 2 == 0 then Low(c.distance[j]) else High(c.distance[j])
    else if p < 32 * n then
      var j := (p - 30 * n) / 2;
      if (p - 30 * n) % 2 == 0 then Low(c.amplitude[j]) else High(c.amplitude[j])
    else if p < TrailerEnd(n) then
      c.mode[p - 32 * n]
    else if p < TimestampOffset(scanBytes) then
      gap[p - TrailerEnd(n)]
    else
      Split64(c.timestamp)[p - TimestampOffset(scanBytes)]
  }

  /** The chunk the device would send for `c`, with `gap` in the unused bytes. */
  function Encode(c: Chunk, n: int, scanBytes: int, gap: seq<int>): (raw: seq<int>)
    requires WellShaped(c, n) && FitsLayout(n, scanBytes) && IsGap(gap, n, scanBytes)
    ensures IsRaw(raw, n, scanBytes)
  {
    seq(scanBytes, p requires 0 <= p < scanBytes => ByteAt(c, n, scanBytes, gap, p))
  }

  lemma StrideSplit(j: int, k: int, w: int)
    requires 0 <= j && 0 <= k < SamplesPerChunk && 0 <= w < 4
    ensures (IOffset(k, j) + w) / SensorStride == j && (IOffset(k, j) + w) % SensorStride == 4 * k + w
    ensures (4 * k + w) / 4 == k && (4 * k + w) % 4 == w
  {
  }

  lemma SampleByte(c: Chunk, n: int, scanBytes: int, gap: seq<int>, j: int, k: int, w: int, p: int)
    requires WellShaped(c, n) && FitsLayout(n, scanBytes) && IsGap(gap, n, scanBytes)
    requires 0 <= j < n && 0 <= k < SamplesPerChunk && 0 <= w < 4 && p == IOffset(k, j) + w
    ensures p < SensorStride * n
    ensures var v := if w < 2 then c.i[j][k] else c.q[j][k];
      ByteAt(c, n, scanBytes, gap, p) == if w % 2 == 0 then Low(v) else High(v)
  {
    StrideSplit(j, k, w);
  }

  lemma SampleBytes(c: Chunk, n: int, scanBytes: int, gap: seq<int>, j: int, k: int)
    requires WellShaped(c, n) && FitsLayout(n, scanBytes) && IsGap(gap, n, scanBytes)
    requires 0 <= j < n && 0 <= k < SamplesPerChunk
    ensures var raw := Encode(c, n, scanBytes, gap);
      && raw[IOffset(k, j)] == Low(c.i[j][k]) && raw[IOffset(k, j) + 1] == High(c.i[j][k])
      && raw[QOffset(k, j)] == Low(c.q[j][k]) && raw[QOffset(k, j) + 1] == High(c.q[j][k])
  {
    SampleByte(c, n, scanBytes, gap, j, k, 0, IOffset(k, j));
    SampleByte(c, n, scanBytes, gap, j, k, 1, IOffset(k, j) + 1);
    SampleByte(c, n, scanBytes, gap, j, k, 2, QOffset(k, j));
    SampleByte(c, n, scanBytes, gap, j, k, 3, QOffset(k, j) + 1);
  }

  lemma ByteAtDistance(c: Chunk, n: int, scanBytes: int, gap: seq<int>, j: int)
    requires WellShaped(c, n) && FitsLayout(n, scanBytes) && IsGap(gap, n, scanBytes)
    requires 0 <= j < n
    ensures ByteAt(c, n, scanBytes, gap, DistanceOffset(n, j)) == Low(c.distance[j])
    ensures ByteAt(c, n, scanBytes, gap, DistanceOffset(n, j) + 1) == High(c.distance[j])
  {
  }

  lemma ByteAtAmplitude(c: Chunk, n: int, scanBytes: int, gap: seq<int>, j: int)
    requires WellShaped(c, n) && FitsLayout(n, scanBytes) && IsGap(gap, n, scanBytes)
    requires 0 <= j < n
    ensures ByteAt(c, n, scanBytes, gap, AmplitudeOffset(n, j)) == Low(c.amplitude[j])
    ensures ByteAt(c, n, scanBytes, gap, AmplitudeOffset(n, j) + 1) == High(c.amplitude[j])
  {
  }

  lemma TrailerBytes(c: Chunk, n: int, scanBytes: int, gap: seq<int>, j: int)
    requires WellShaped(c, n) && FitsLayout(n, scanBytes) && IsGap(gap, n, scanBytes)
    requires 0 <= j < n
    ensures var raw := Encode(c, n, scanBytes, gap);
      && raw[DistanceOffset(n, j)] == Low(c.distance[j]) && raw[DistanceOffset(n, j) + 1] == High(c.distance[j])
      && raw[AmplitudeOffset(n, j)] == Low(c.amplitude[j]) && raw[AmplitudeOffset(n, j) + 1] == High(c.amplitude[j])
      && raw[ModeOffset(n, j)] == c.mode[j]
  {
    var raw := Encode(c, n, scanBytes, gap);
    ByteAtDistance(c, n, scanBytes, gap, j);
    ByteAtAmplitude(c, n, scanBytes, gap, j);
    assert raw[ModeOffset(n, j)] == ByteAt(c, n, scanBytes, gap, ModeOffset(n, j));
  }

  /** The samples read back from an encoded chunk are the ones encoded. */
  lemma SampleOfEncode(c: Chunk, d: Chunk, n: int, scanBytes: int, gap: seq<int>, j: int, k: int)
    requires WellShaped(c, n) && FitsLayout(n, scanBytes) && IsGap(gap, n, scanBytes)
    requires DecodedFrom(d, Encode(c, n, scanBytes, gap), n, scanBytes)
    requires 0 <= j < n && 0 <= k < SamplesPerChunk
    ensures d.i[j][k] == c.i[j][k] && d.q[j][k] == c.q[j][k]
  {
    SampleBytes(c, n, scanBytes, gap, j, k);
    I16Split(c.i[j][k]);
    I16Split(c.q[j][k]);
  }

  /** The trailer fields read back from an encoded chunk are the ones encoded. */
  lemma TrailerOfEncode(c: Chunk, d: Chunk, n: int, scanBytes: int, gap: seq<int>, j: int)
    requires WellShaped(c, n) && FitsLayout(n, scanBytes) && IsGap(gap, n, scanBytes)
    requires DecodedFrom(d, Encode(c, n, scanBytes, gap), n, scanBytes)
    requires 0 <= j < n
    ensures d.distance[j] == c.distance[j] && d.amplitude[j] == c.amplitude[j] && d.mode[j] == c.mode[j]
  {
    TrailerBytes(c, n, scanBytes, gap, j);
    U16Split(c.distance[j]);
    U16Split(c.amplitude[j]);
  }

  /** The timestamp read back from an encoded chunk is the one encoded. */
  lemma TimestampOfEncode(c: Chunk, d: Chunk, n: int, scanBytes: int, gap: seq<int>)
    requires WellShaped(c, n) && FitsLayout(n, scanBytes) && IsGap(gap, n, scanBytes)
    requires DecodedFrom(d, Encode(c, n, scanBytes, gap), n, scanBytes)
    ensures d.timestamp == c.timestamp
  {
    var raw := Encode(c, n, scanBytes, gap);
    assert raw[TimestampOffset(scanBytes)..] == Split64(c.timestamp);
    I64Split(c.timestamp);
  }

  /** Any fields read from the encoding of well-shaped fields are those fields. */
  lemma DecodedFromEncode(c: Chunk, d: Chunk, n: int, scanBytes: int, gap: seq<int>)
    requires WellShaped(c, n) && FitsLayout(n, scanBytes) && IsGap(gap, n, scanBytes)
    requires DecodedFrom(d, Encode(c, n, scanBytes, gap), n, scanBytes)
    ensures d == c
  {
    forall j | 0 <= j < n
      ensures d.i[j] == c.i[j] && d.q[j] == c.q[j]
    {
      forall k | 0 <= k < SamplesPerChunk
        ensures d.i[j][k] == c.i[j][k] && d.q[j][k] == c.q[j][k]
      {
        SampleOfEncode(c, d, n, scanBytes, gap, j, k);
      }
    }
    forall j | 0 <= j < n
      ensures d.distance[j] == c.distance[j] && d.amplitude[j] == c.amplitude[j] && d.mode[j] == c.mode[j]
    {
      TrailerOfEncode(c, d, n, scanBytes, gap, j);
    }
    TimestampOfEncode(c, d, n, scanBytes, gap);
  }

  /** Decoding the encoding of well-shaped fields gives them back. */
  lemma DecodeEncode(c: Chunk, n: int, scanBytes: int, gap: seq<int>)
    requires WellShaped(c, n) && FitsLayout(n, scanBytes) && IsGap(gap, n, scanBytes)
    ensures Decode(Encode(c, n, scanBytes, gap), n, scanBytes) == c
  {
    var raw := Encode(c, n, scanBytes, gap);
    DecodeFields(raw, n, scanBytes);
    DecodedFromEncode(c, Decode(raw, n, scanBytes), n, scanBytes, gap);
  }

  /** The unused bytes of a raw chunk. */
  function GapOf(raw: seq<int>, n: int, scanBytes: int): (gap: seq<int>)
    requires IsRaw(raw, n, scanBytes)
    ensures IsGap(gap, n, scanBytes)
  {
    raw[TrailerEnd(n)..TimestampOffset(scanBytes)]
  }

  /**
   * `c` holds the fields of `raw`: each I and Q sample a signed 16-bit
   * little-endian word at its stride offset, each distance and amplitude an
   * unsigned one in the trailer, each mode one byte, and the timestamp the
   * signed 64-bit word in the last eight bytes.
   */
  predicate DecodedFrom(c: Chunk, raw: seq<int>, n: int, scanBytes: int)
    requires IsRaw(raw, n, scanBytes)
  {
    && WellShaped(c, n)
    && c.timestamp == I64(raw[TimestampOffset(scanBytes)..])
    && (forall j, k :: 0 <= j < n && 0 <= k < SamplesPerChunk ==>
          c.i[j][k] == I16(raw[IOffset(k, j)], raw[IOffset(k, j) + 1]))
    && (forall j, k :: 0 <= j < n && 0 <= k < SamplesPerChunk ==>
          c.q[j][k] == I16(raw[QOffset(k, j)], raw[QOffset(k, j) + 1]))
    && (forall j :: 0 <= j < n ==>
          && c.distance[j] == U16(raw[DistanceOffset(n, j)], raw[DistanceOffset(n, j) + 1])
          && c.amplitude[j] == U16(raw[AmplitudeOffset(n, j)], raw[AmplitudeOffset(n, j) + 1])
          && c.mode[j] == raw[ModeOffset(n, j)])
  }

  /** Every field of the decoded chunk is read from its offset in the layout. */
  lemma DecodeFields(raw: seq<int>, n: int, scanBytes: int)
    requires IsRaw(raw, n, scanBytes)
    ensures DecodedFrom(Decode(raw, n, scanBytes), raw, n, scanBytes)
  {
    DistanceWords(raw, n, scanBytes);
    AmplitudeWords(raw, n, scanBytes);
  }

  lemma DistanceWords(raw: seq<int>, n: int, scanBytes: int)
    requires IsRaw(raw, n, scanBytes)
    ensures var words := TrailerWords(raw, n, scanBytes, DistanceOffset(n, 0));
      forall j :: 0 <= j < n ==> words[j] == U16(raw[DistanceOffset(n, j)], raw[DistanceOffset(n, j) + 1])
  {
    var words := TrailerWords(raw, n, scanBytes, DistanceOffset(n, 0));
    forall j | 0 <= j < n
      ensures words[j] == U16(raw[DistanceOffset(n, j)], raw[DistanceOffset(n, j) + 1])
    {
      assert DistanceOffset(n, 0) + 2 * j == DistanceOffset(n, j);
    }
  }

  lemma AmplitudeWords(raw: seq<int>, n: int, scanBytes: int)
    requires IsRaw(raw, n, scanBytes)
    ensures var words := TrailerWords(raw, n, scanBytes, AmplitudeOffset(n, 0));
      forall j :: 0 <= j < n ==> words[j] == U16(raw[AmplitudeOffset(n, j)], raw[AmplitudeOffset(n, j) + 1])
  {
    var words := TrailerWords(raw, n, scanBytes, AmplitudeOffset(n, 0));
    forall j | 0 <= j < n
      ensures words[j] == U16(raw[AmplitudeOffset(n, j)], raw[AmplitudeOffset(n, j) + 1])
    {
      assert AmplitudeOffset(n, 0) + 2 * j == AmplitudeOffset(n, j);
    }
  }

  /** The four bytes of sample `k` of sensor `j` survive decoding and re-encoding. */
  lemma EncodeDecodeSample(c: Chunk, raw: seq<int>, n: int, scanBytes: int, j: int, k: int)
    requires IsRaw(raw, n, scanBytes) && DecodedFrom(c, raw, n, scanBytes)
    requires 0 <= j < n && 0 <= k < SamplesPerChunk
    ensures var back := Encode(c, n, scanBytes, GapOf(raw, n, scanBytes));
      && back[IOffset(k, j)] == raw[IOffset(k, j)] && back[IOffset(k, j) + 1] == raw[IOffset(k, j) + 1]
      && back[QOffset(k, j)] == raw[QOffset(k, j)] && back[QOffset(k, j) + 1] == raw[QOffset(k, j) + 1]
  {
    SampleBytes(c, n, scanBytes, GapOf(raw, n, scanBytes), j, k);
    SplitI16(raw[IOffset(k, j)], raw[IOffset(k, j) + 1]);
    SplitI16(raw[QOffset(k, j)], raw[QOffset(k, j) + 1]);
  }

  /** The trailer bytes of sensor `j` survive decoding and re-encoding. */
  lemma EncodeDecodeTrailer(c: Chunk, raw: seq<int>, n: int, scanBytes: int, j: int)
    requires IsRaw(raw, n, scanBytes) && DecodedFrom(c, raw, n, scanBytes) && 0 <= j < n
    ensures var back := Encode(c, n, scanBytes, GapOf(raw, n, scanBytes));
      && back[DistanceOffset(n, j)] == raw[DistanceOffset(n, j)]
      && back[DistanceOffset(n, j) + 1] == raw[DistanceOffset(n, j) + 1]
      && back[AmplitudeOffset(n, j)] == raw[AmplitudeOffset(n, j)]
      && back[AmplitudeOffset(n, j) + 1] == raw[AmplitudeOffset(n, j) + 1]
      && back[ModeOffset(n, j)] == raw[ModeOffset(n, j)]
  {
    TrailerBytes(c, n, scanBytes, GapOf(raw, n, scanBytes), j);
    SplitU16(raw[DistanceOffset(n, j)], raw[DistanceOffset(n, j) + 1]);
    SplitU16(raw[AmplitudeOffset(n, j)], raw[AmplitudeOffset(n, j) + 1]);
  }

  lemma EncodeDecodedByte(c: Chunk, raw: seq<int>, n: int, scanBytes: int, p: int)
    requires IsRaw(raw, n, scanBytes) && DecodedFrom(c, raw, n, scanBytes) && 0 <= p < scanBytes
    ensures Encode(c, n, scanBytes, GapOf(raw, n, scanBytes))[p] == raw[p]
  {
    if p < SensorStride * n {
      EncodeDecodeSampleByte(c, raw, n, scanBytes, p);
    } else if p < TrailerEnd(n) {
      EncodeDecodeTrailerByte(c, raw, n, scanBytes, p);
    } else {
      EncodeDecodeTail(c, raw, n, scanBytes, p);
    }
  }

  lemma EncodeDecodeSampleByte(c: Chunk, raw: seq<int>, n: int, scanBytes: int, p: int)
    requires IsRaw(raw, n, scanBytes) && DecodedFrom(c, raw, n, scanBytes) && 0 <= p < SensorStride * n
    ensures Encode(c, n, scanBytes, GapOf(raw, n, scanBytes))[p] == raw[p]
  {
    var j, k, w := SampleSlot(p, n);
    if w == 0 {
      EncodeDecodeILow(c, raw, n, scanBytes, j, k, p);
    } else if w == 1 {
      EncodeDecodeIHigh(c, raw, n, scanBytes, j, k, p);
    } else if w == 2 {
      EncodeDecodeQLow(c, raw, n, scanBytes, j, k, p);
    } else {
      EncodeDecodeQHigh(c, raw, n, scanBytes, j, k, p);
    }
  }

  /** Byte `p` of the sample region is byte `w` of sample `k` of sensor `j`. */
  lemma SampleSlot(p: int, n: int) returns (j: int, k: int, w: int)
    requires 0 <= p < SensorStride * n
    ensures 0 <= j < n && 0 <= k < SamplesPerChunk && 0 <= w < 4 && p == IOffset(k, j) + w
  {
    j := p / SensorStride;
    k, w := (p % SensorStride) / 4, (p % SensorStride) % 4;
  }

  /*
   * One lemma per byte of a field: each names a single position, which keeps
   * the solver from searching the whole encoding for the byte it is about.
   */
  lemma EncodeDecodeILow(c: Chunk, raw: seq<int>, n: int, scanBytes: int, j: int, k: int, p: int)
    requires IsRaw(raw, n, scanBytes) && DecodedFrom(c, raw, n, scanBytes)
    requires 0 <= j < n && 0 <= k < SamplesPerChunk && p == IOffset(k, j)
    ensures Encode(c, n, scanBytes, GapOf(raw, n, scanBytes))[p] == raw[p]
  {
    EncodeDecodeSample(c, raw, n, scanBytes, j, k);
  }

  lemma EncodeDecodeIHigh(c: Chunk, raw: seq<int>, n: int, scanBytes: int, j: int, k: int, p: int)
    requires IsRaw(raw, n, scanBytes) && DecodedFrom(c, raw, n, scanBytes)
    requires 0 <= j < n && 0 <= k < SamplesPerChunk && p == IOffset(k, j) + 1
    ensures Encode(c, n, scanBytes, GapOf(raw, n, scanBytes))[p] == raw[p]
  {
    EncodeDecodeSample(c, raw, n, scanBytes, j, k);
  }

  lemma EncodeDecodeQLow(c: Chunk, raw: seq<int>, n: int, scanBytes: int, j: int, k: int, p: int)
    requires IsRaw(raw, n, scanBytes) && DecodedFrom(c, raw, n, scanBytes)
    requires 0 <= j < n && 0 <= k < SamplesPerChunk && p == QOffset(k, j)
    ensures Encode(c, n, scanBytes, GapOf(raw, n, scanBytes))[p] == raw[p]
  {
    EncodeDecodeSample(c, raw, n, scanBytes, j, k);
  }

  lemma EncodeDecodeQHigh(c: Chunk, raw: seq<int>, n: int, scanBytes: int, j: int, k: int, p: int)
    requires IsRaw(raw, n, scanBytes) && DecodedFrom(c, raw, n, scanBytes)
    requires 0 <= j < n && 0 <= k < SamplesPerChunk && p == QOffset(k, j) + 1
    ensures Encode(c, n, scanBytes, GapOf(raw, n, scanBytes))[p] == raw[p]
  {
    EncodeDecodeSample(c, raw, n, scanBytes, j, k);
  }

  lemma EncodeDecodeTrailerByte(c: Chunk, raw: seq<int>, n: int, scanBytes: int, p: int)
    requires IsRaw(raw, n, scanBytes) && DecodedFrom(c, raw, n, scanBytes)
    requires SensorStride * n <= p < TrailerEnd(n)
    ensures Encode(c, n, scanBytes, GapOf(raw, n, scanBytes))[p] == raw[p]
  {
    if p < 30 * n {
      var j, w := HalfOf(p, SensorStride * n);
      if w == 0 {
        EncodeDecodeDistanceLow(c, raw, n, scanBytes, j, p);
      } else {
        EncodeDecodeDistanceHigh(c, raw, n, scanBytes, j, p);
      }
    } else if p < 32 * n {
      var j, w := HalfOf(p, 30 * n);
      if w == 0 {
        EncodeDecodeAmplitudeLow(c, raw, n, scanBytes, j, p);
      } else {
        EncodeDecodeAmplitudeHigh(c, raw, n, scanBytes, j, p);
      }
    } else {
      EncodeDecodeMode(c, raw, n, scanBytes, p - 32 * n, p);
    }
  }

  /** Byte `p` past `base` is byte `w` of the `j`-th two-byte word. */
  lemma HalfOf(p: int, base: int) returns (j: int, w: int)
    requires base <= p
    ensures 0 <= j && 0 <= w < 2 && p == base + 2 * j + w
  {
    j, w := (p - base) / 2, (p - base) % 2;
  }

  lemma EncodeDecodeDistanceLow(c: Chunk, raw: seq<int>, n: int, scanBytes: int, j: int, p: int)
    requires IsRaw(raw, n, scanBytes) && DecodedFrom(c, raw, n, scanBytes)
    requires 0 <= j < n && p == DistanceOffset(n, j)
    ensures Encode(c, n, scanBytes, GapOf(raw, n, scanBytes))[p] == raw[p]
  {
    EncodeDecodeTrailer(c, raw, n, scanBytes, j);
  }

  lemma EncodeDecodeDistanceHigh(c: Chunk, raw: seq<int>, n: int, scanBytes: int, j: int, p: int)
    requires IsRaw(raw, n, scanBytes) && DecodedFrom(c, raw, n, scanBytes)
    requires 0 <= j < n && p == DistanceOffset(n, j) + 1
    ensures Encode(c, n, scanBytes, GapOf(raw, n, scanBytes))[p] == raw[p]
  {
    EncodeDecodeTrailer(c, raw, n, scanBytes, j);
  }

  lemma EncodeDecodeAmplitudeLow(c: Chunk, raw: seq<int>, n: int, scanBytes: int, j: int, p: int)
    requires IsRaw(raw, n, scanBytes) && DecodedFrom(c, raw, n, scanBytes)
    requires 0 <= j < n && p == AmplitudeOffset(n, j)
    ensures Encode(c, n, scanBytes, GapOf(raw, n, scanBytes))[p] == raw[p]
  {
    EncodeDecodeTrailer(c, raw, n, scanBytes, j);
  }

  lemma EncodeDecodeAmplitudeHigh(c: Chunk, raw: seq<int>, n: int, scanBytes: int, j: int, p: int)
    requires IsRaw(raw, n, scanBytes) && DecodedFrom(c, raw, n, scanBytes)
    requires 0 <= j < n && p == AmplitudeOffset(n, j) + 1
    ensures Encode(c, n, scanBytes, GapOf(raw, n, scanBytes))[p] == raw[p]
  {
    EncodeDecodeTrailer(c, raw, n, scanBytes, j);
  }

  lemma EncodeDecodeMode(c: Chunk, raw: seq<int>, n: int, scanBytes: int, j: int, p: int)
    requires IsRaw(raw, n, scanBytes) && DecodedFrom(c, raw, n, scanBytes)
    requires 0 <= j < n && p == ModeOffset(n, j)
    ensures Encode(c, n, scanBytes, GapOf(raw, n, scanBytes))[p] == raw[p]
  {
    EncodeDecodeTrailer(c, raw, n, scanBytes, j);
  }

  /** The unused bytes and the timestamp survive decoding and re-encoding. */
  lemma EncodeDecodeTail(c: Chunk, raw: seq<int>, n: int, scanBytes: int, p: int)
    requires IsRaw(raw, n, scanBytes) && DecodedFrom(c, raw, n, scanBytes) && TrailerEnd(n) <= p < scanBytes
    ensures Encode(c, n, scanBytes, GapOf(raw, n, scanBytes))[p] == raw[p]
  {
    var gap := GapOf(raw, n, scanBytes);
    SplitI64(raw[TimestampOffset(scanBytes)..]);
    assert Encode(c, n, scanBytes, gap)[p] == ByteAt(c, n, scanBytes, gap, p);
  }

  /** Fields read from `raw`, re-encoded with `raw`'s own unused bytes, give `raw` back. */
  lemma EncodeDecodedFrom(c: Chunk, raw: seq<int>, n: int, scanBytes: int)
    requires IsRaw(raw, n, scanBytes) && DecodedFrom(c, raw, n, scanBytes)
    ensures Encode(c, n, scanBytes, GapOf(raw, n, scanBytes)) == raw
  {
    forall p | 0 <= p < scanBytes
      ensures Encode(c, n, scanBytes, GapOf(raw, n, scanBytes))[p] == raw[p]
    {
      EncodeDecodedByte(c, raw, n, scanBytes, p);
    }
  }

  /** Re-encoding the decoded fields, with the chunk's own unused bytes, gives the chunk back. */
  lemma EncodeDecode(raw: seq<int>, n: int, scanBytes: int)
    requires IsRaw(raw, n, scanBytes)
    ensures Encode(Decode(raw, n, scanBytes), n, scanBytes, GapOf(raw, n, scanBytes)) == raw
  {
    DecodeFields(raw, n, scanBytes);
    EncodeDecodedFrom(Decode(raw, n, scanBytes), raw, n, scanBytes);
  }
}
