/**
 * The C++ port: class `Chirp`, whose constructor runs `init` and whose
 * `getDataOnce` runs the acquisition loop and returns every decoded
 * distance, and `main`, which prints them one line per sensor.
 *
 * The loop differs from the C program's: the result of `read` is never
 * checked, so every readable wake-up decodes the 256-byte `orig_buffer`
 * whatever the read delivered (bytes from earlier reads stay in place);
 * `log_data` is given 225 samples while the library, set up once by
 * `init_algo`, reads 255.
 */
module ChirpDriver {
  import opened Bytes
  import opened Layout
  import opened ChunkDecode
  import opened Window
  import opened Rangefinder
  import opened LogRows
  import opened Memory
  import opened Poll

  /** The sample count `getDataOnce` passes to `log_data`. */
  const LogSample: int := 225

  datatype Status =
    | Running
    | PollEnded(ready: int)   // `poll` returned something other than 1
    | WindowOverflow          // the next store would write past the end of the rows

  /**
   * The loop's variables, the shared arrays, `orig_buffer` as bytes, and
   * the distances pushed onto the result, one list per decoded chunk.
   */
  datatype Loop = Loop(cursor: Cursor, status: Status, mem: Mem, buffer: seq<int>, chunks: seq<seq<int>>)

  /** The part of `iq_buffer` no copy of 225 samples reaches: never written, so zero. */
  predicate IqTailZero(m: Mem)
    requires MemOk(m)
  {
    forall k :: 2 * LogSample <= k < 2 * MaxSamples ==> m.iq[k] == 0
  }

  predicate LoopOk(s: Loop) {
    && MemOk(s.mem) && IqTailZero(s.mem) && s.cursor.index >= 0
    && |s.buffer| == ChirpBufferBytes && AllBytes(s.buffer)
  }

  datatype Params = Params(n: int, scanBytes: int, connection: seq<int>, algo: Algorithm)

  predicate ParamsOk(p: Params) {
    FitsLayout(p.n, p.scanBytes) && p.scanBytes <= ChirpBufferBytes && ConnectionOk(p.connection)
  }

  /** The state `getDataOnce` starts from: `res` holds only `num_sensors` (kept apart). */
  function Initial(mem: Mem, buffer: seq<int>): Loop {
    Loop(Start, Running, mem, buffer, [])
  }

  /** The buffer after a `read` that delivered `ev.data` into it. */
  function ReadInto(buffer: seq<int>, ev: PollEvent): (r: seq<int>)
    requires |ev.data| <= |buffer| && AllBytes(buffer) && AllBytes(ev.data)
    ensures |r| == |buffer| && AllBytes(r)
    ensures r[..|ev.data|] == ev.data && r[|ev.data|..] == buffer[|ev.data|..]
  {
    Overlay(ev.data, buffer)
  }

  /** The timestamp of the chunk at the head of the buffer. */
  function BufferStamp(p: Params, s: Loop): int
    requires ParamsOk(p) && LoopOk(s)
  {
    Timestamp(s.buffer[..p.scanBytes], p.scanBytes)
  }

  /** The arrays once the window rule has run: `log_data` with 225 samples if the window closes. */
  function WindowMem(p: Params, s: Loop): (mem: Mem)
    requires ParamsOk(p) && LoopOk(s)
    ensures MemOk(mem) && IqTailZero(mem)
  {
    RangedResults(s.mem, ChirpInit, p.connection, LogSample, p.algo, p.n);
    if Closes(s.cursor, BufferStamp(p, s))
    then Logged(s.mem, ChirpCpp, ChirpInit, p.n, p.connection, LogSample, s.cursor.last, p.algo)
    else s.mem
  }

  /**
   * The chunk at the head of the buffer placed at cursor `o` over `mem`:
   * stored and its distances pushed if the rows have room, else the loop
   * stops on the overflow.
   */
  function Placed(p: Params, s: Loop, o: Cursor, mem: Mem): (r: Loop)
    requires ParamsOk(p) && LoopOk(s) && MemOk(mem) && IqTailZero(mem) && o.index >= 0
    ensures LoopOk(r)
  {
    if Room(o) then
      var c := Decode(s.buffer[..p.scanBytes], p.n, p.scanBytes);
      s.(cursor := Advance(o), mem := WithChunk(mem, c, p.n, o.index), chunks := s.chunks + [c.distance])
    else s.(cursor := o, mem := mem, status := WindowOverflow)
  }

  lemma PlacedOverflow(p: Params, s: Loop, o: Cursor, mem: Mem)
    requires ParamsOk(p) && LoopOk(s) && MemOk(mem) && IqTailZero(mem) && o.index >= 0 && !Room(o)
    ensures Placed(p, s, o, mem) == s.(cursor := o, mem := mem, status := WindowOverflow)
  {
  }

  lemma PlacedRoom(p: Params, s: Loop, o: Cursor, mem: Mem)
    requires ParamsOk(p) && LoopOk(s) && MemOk(mem) && IqTailZero(mem) && o.index >= 0 && Room(o)
    ensures var c := Decode(s.buffer[..p.scanBytes], p.n, p.scanBytes);
      Placed(p, s, o, mem) == s.(cursor := Advance(o), mem := WithChunk(mem, c, p.n, o.index), chunks := s.chunks + [c.distance])
  {
  }

  /**
   * Decoding the first `scanBytes` bytes of the buffer: the window rule,
   * `log_data` with 225 samples for the window it closes, the store at the
   * cursor, and the chunk's distances pushed onto the result.
   */
  function Decoded(p: Params, s: Loop): (r: Loop)
    requires ParamsOk(p) && LoopOk(s)
    ensures LoopOk(r)
  {
    Placed(p, s, Observe(s.cursor, BufferStamp(p, s)), WindowMem(p, s))
  }

  /** One wake-up: a readable device is read and decoded whatever `read` returned. */
  function Step(p: Params, s: Loop, ev: PollEvent): (r: Loop)
    requires ParamsOk(p) && LoopOk(s) && ReadOk(ev, p.scanBytes)
    ensures LoopOk(r)
  {
    if s.status != Running then s
    else
      var s1 := if ev.readable then Decoded(p, s.(buffer := ReadInto(s.buffer, ev))) else s;
      if s1.status == Running && ev.ready != 1 then s1.(status := PollEnded(ev.ready)) else s1
  }

  function Run(p: Params, s: Loop, events: seq<PollEvent>): (r: Loop)
    requires ParamsOk(p) && LoopOk(s) && EventsOk(events, p.scanBytes)
    ensures LoopOk(r)
  {
    if events == [] then s else Step(p, Run(p, s, events[..|events| - 1]), events[|events| - 1])
  }

  lemma RunSnoc(p: Params, s: Loop, events: seq<PollEvent>, k: int)
    requires ParamsOk(p) && LoopOk(s) && EventsOk(events, p.scanBytes) && 0 <= k < |events|
    ensures Run(p, s, events[..k + 1]) == Step(p, Run(p, s, events[..k]), events[k])
  {
    assert events[..k + 1][..k] == events[..k];
  }

  lemma {:induction false} StopIsFinal(p: Params, s: Loop, events: seq<PollEvent>, k: int)
    requires ParamsOk(p) && LoopOk(s) && EventsOk(events, p.scanBytes) && 0 <= k <= |events|
    requires Run(p, s, events[..k]).status != Running
    ensures Run(p, s, events) == Run(p, s, events[..k])
    decreases |events| - k
  {
    if k < |events| {
      RunSnoc(p, s, events, k);
      StopIsFinal(p, s, events, k + 1);
    } else {
      assert events[..k] == events;
    }
  }

  /** The lists of `chunks` one after the other, as `res` holds them. */
  function Flatten(chunks: seq<seq<int>>): seq<int> {
    if chunks == [] then [] else Flatten(chunks[..|chunks| - 1]) + chunks[|chunks| - 1]
  }

  /** Pushing one more chunk's distances onto `res` keeps it `[n]` and the flattened chunks. */
  lemma PushedChunk(n: int, chunks: seq<seq<int>>, d: seq<int>)
    ensures [n] + Flatten(chunks + [d]) == [n] + Flatten(chunks) + d
  {
    FlattenSnoc(chunks, d);
  }

  lemma FlattenSnoc(chunks: seq<seq<int>>, c: seq<int>)
    ensures Flatten(chunks + [c]) == Flatten(chunks) + c
  {
    assert (chunks + [c])[..|chunks|] == chunks;
  }

  lemma MulMono(a: int, b: int, n: int)
    requires a <= b && n >= 0
    ensures a * n <= b * n
  {
    assert b * n - a * n == (b - a) * n;
  }

  /** Lists of `n` entries each flatten to `n` entries per list. */
  lemma {:induction false} FlattenLength(chunks: seq<seq<int>>, n: nat)
    requires forall t :: 0 <= t < |chunks| ==> |chunks[t]| == n
    ensures |Flatten(chunks)| == n * |chunks|
  {
    if chunks != [] {
      FlattenLength(chunks[..|chunks| - 1], n);
      assert n * |chunks| == n * (|chunks| - 1) + n;
    }
  }

  /** Entry `j` of list `t` sits at `t * n + j` of the flattened lists. */
  lemma {:induction false} FlattenIndex(chunks: seq<seq<int>>, n: nat, t: int, j: int)
    requires forall x :: 0 <= x < |chunks| ==> |chunks[x]| == n
    requires 0 <= t < |chunks| && 0 <= j < n
    ensures t * n + j < |Flatten(chunks)|
    ensures Flatten(chunks)[t * n + j] == chunks[t][j]
  {
    var prefix := chunks[..|chunks| - 1];
    assert Flatten(chunks) == Flatten(prefix) + chunks[|chunks| - 1];
    if t < |prefix| {
      FlattenIndex(prefix, n, t, j);
      assert chunks[t] == prefix[t];
    } else {
      FlattenLength(prefix, n);
      assert t * n == n * |prefix|;
    }
  }

  /** Every decoded chunk contributed one distance per connected sensor, from the chunk's trailer. */
  lemma {:induction false} ChunksHoldDistances(p: Params, s: Loop, events: seq<PollEvent>)
    requires ParamsOk(p) && LoopOk(s) && EventsOk(events, p.scanBytes)
    requires forall t :: 0 <= t < |s.chunks| ==> |s.chunks[t]| == p.n
    ensures |Run(p, s, events).chunks| >= |s.chunks|
    ensures Run(p, s, events).chunks[..|s.chunks|] == s.chunks
    ensures forall t :: 0 <= t < |Run(p, s, events).chunks| ==> |Run(p, s, events).chunks[t]| == p.n
  {
    if events != [] {
      ChunksHoldDistances(p, s, events[..|events| - 1]);
    }
  }

  /**
   * A C++ range call sees the sensor's first 225 (I, Q) pairs followed by
   * 30 pairs of zeros: the library reads the 255 samples `init_algo` gave it,
   * and nothing ever writes `iq_buffer` past the 225 copied.
   */
  lemma ChirpRangeInput(m: Mem, connection: seq<int>, algo: Algorithm, dev: int)
    requires MemOk(m) && IqTailZero(m) && ConnectionOk(connection) && 0 <= dev < MaxSensors
    ensures RangeResult(m, ChirpInit, connection, LogSample, algo, dev)
         == algo(ChirpInitConfig(ChirpAlgoSamples),
                 ChirpRequest(Interleave(m.i[dev][..LogSample], m.q[dev][..LogSample])
                              + seq(2 * (ChirpAlgoSamples - LogSample), _ => 0), ChirpAlgoSamples))
  {
    var iq := Memory.Filled(m, dev, LogSample);
    var want := Interleave(m.i[dev][..LogSample], m.q[dev][..LogSample]) + seq(2 * (ChirpAlgoSamples - LogSample), _ => 0);
    assert iq[..2 * ChirpAlgoSamples] == want;
  }

  /** `(i - 1) % ns + 1`, the sensor number `main` prints for `res[i]`. */
  function SensorIndex(i: int, ns: int): (r: int)
    requires i >= 1 && ns > 0
    ensures 1 <= r <= ns
  {
    (i - 1) % ns + 1
  }

  /**
   * `res[1 + t * n + j]`, the `j`-th distance of the `t`-th chunk, is printed
   * as sensor `j + 1`.
   */
  lemma SensorIndexOfEntry(t: nat, n: int, j: int)
    requires 0 <= j < n
    ensures SensorIndex(1 + t * n + j, n) == j + 1
  {
    var a := t * n + j;
    assert a >= 0 by {
      MulMono(0, t, n);
    }
    var q, r := a / n, a % n;
    assert (q - t) * n == j - r;
    if q - t >= 1 {
      MulMono(1, q - t, n);
    } else if q - t <= -1 {
      MulMono(1, t - q, n);
    }
    assert q == t;
  }

  /** The loop of `main`: one (sensor number, distance) line per entry of `res` after the first. */
  method Report(res: seq<int>) returns (lines: seq<(int, int)>)
    requires |res| >= 1 && (|res| > 1 ==> res[0] > 0)
    ensures |lines| == |res| - 1
    ensures forall i :: 1 <= i < |res| ==> lines[i - 1] == (SensorIndex(i, res[0]), res[i])
  {
    var ns := res[0];
    lines := [];
    for i := 1 to |res|
      invariant |lines| == i - 1
      invariant forall x :: 1 <= x < i ==> lines[x - 1] == (SensorIndex(x, ns), res[x])
    {
      var sensorIndex := (i - 1) % ns + 1;
      lines := lines + [(sensorIndex, res[i])];
    }
  }

  /** Each list's entries paired with their 1-based position in the list, list after list. */
  function Labelled(chunks: seq<seq<int>>): seq<(int, int)> {
    if chunks == [] then []
    else
      var c := chunks[|chunks| - 1];
      Labelled(chunks[..|chunks| - 1]) + seq(|c|, j requires 0 <= j < |c| => (j + 1, c[j]))
  }

  /**
   * `main`'s lines for `num_sensors` followed by the distances of each chunk
   * are each chunk's distances labelled with sensors `1..n`, chunk after chunk.
   */
  lemma {:induction false} ReportLayout(res: seq<int>, chunks: seq<seq<int>>, n: nat, lines: seq<(int, int)>)
    requires forall t :: 0 <= t < |chunks| ==> |chunks[t]| == n
    requires res == [n] + Flatten(chunks) && |lines| == |res| - 1
    requires n > 0 ==> forall i :: 1 <= i < |res| ==> lines[i - 1] == (SensorIndex(i, res[0]), res[i])
    ensures lines == Labelled(chunks)
    decreases |chunks|
  {
    if chunks != [] {
      var prefix, c := chunks[..|chunks| - 1], chunks[|chunks| - 1];
      var front := [n] + Flatten(prefix);
      assert res == front + c;
      FlattenLength(prefix, n);
      var head := lines[..|front| - 1];
      assert n > 0 ==> forall i :: 1 <= i < |front| ==> head[i - 1] == (SensorIndex(i, front[0]), front[i]) by {
        if n > 0 {
          forall i | 1 <= i < |front|
            ensures head[i - 1] == (SensorIndex(i, front[0]), front[i])
          {
            assert res[i] == front[i];
          }
        }
      }
      ReportLayout(front, prefix, n, head);
      var block := seq(|c|, j requires 0 <= j < |c| => (j + 1, c[j]));
      forall j | 0 <= j < n
        ensures lines[|head| + j] == block[j]
      {
        SensorIndexOfEntry(|prefix|, n, j);
        assert lines[|front| + j - 1] == (SensorIndex(|front| + j, n), res[|front| + j]);
      }
      assert lines == head + block;
    }
  }

  class Chirp {
    const g: Globals
    /** `orig_buffer`, 32 `long long`s, as bytes. */
    const buffer: array<int>
    var numSensors: int
    var scanBytes: int
    /** `sensor_connection`. */
    var connection: seq<int>

    ghost predicate Valid()
      reads this, buffer, g, g.I, g.Q, g.iqBuffer, g.distance, g.amplitude, g.mode
    {
      && g.Valid() && MemOk(g.View()) && IqTailZero(g.View())
      && buffer.Length == ChirpBufferBytes && AllBytes(buffer[..])
      && buffer != g.iqBuffer && buffer != g.distance && buffer != g.amplitude && buffer != g.mode
      && 0 <= numSensors <= MaxSensors
      && ParamsOk(Params(numSensors, scanBytes, connection, (_, _) => RangeOutput(0, 0)))
    }

    function LoopParams(algo: Algorithm): Params
      reads this
    {
      Params(numSensors, scanBytes, connection, algo)
    }

    /**
     * `Chirp()`, which runs `init`: find the connected sensors from
     * `op_freq` and size the chunk at 32 bytes per sensor plus 32.
     */
    constructor (opFreq: seq<int>)
      requires |opFreq| == MaxSensors
      ensures Valid() && fresh(g) && fresh(buffer)
      ensures fresh(g.I) && fresh(g.Q) && fresh(g.iqBuffer) && fresh(g.distance) && fresh(g.amplitude) && fresh(g.mode)
      ensures g.View() == ZeroMem() && buffer[..] == seq(ChirpBufferBytes, _ => 0)
      ensures numSensors == CountSet(ConnectedFlags(opFreq), MaxSensors)
      ensures scanBytes == ScanBytesCpp(numSensors)
      ensures connection == SensorConnection(ConnectedFlags(opFreq))
    {
      g := new Globals();
      buffer := new int[ChirpBufferBytes](_ => 0);
      var flags := ConnectedFlags(opFreq);
      var iqBytes, n, conn := DetectSensors(flags);
      numSensors := n;
      scanBytes := iqBytes + 32;
      connection := conn;
      new;
      assert buffer[..] == seq(ChirpBufferBytes, _ => 0);
    }

    /** `read` into `orig_buffer`: the bytes delivered replace its first bytes. */
    method ReadChunk(ev: PollEvent)
      requires Valid() && ReadOk(ev, scanBytes)
      modifies buffer
      ensures Valid() && buffer[..] == ReadInto(old(buffer[..]), ev)
    {
      for x := 0 to |ev.data|
        invariant forall y :: 0 <= y < buffer.Length ==> buffer[y] == if y < x then ev.data[y] else old(buffer[y])
      {
        buffer[x] := ev.data[x];
      }
    }

    /**
     * The window rule on a chunk's timestamp: a moved timestamp closes the
     * window, which `log_data` reports, and starts a new one at index 0.
     */
    method TrackTimestamp(algo: Algorithm, cursor: Cursor, timestamp: int) returns (seen: Cursor)
      requires Valid()
      modifies g, g.iqBuffer, g.distance, g.amplitude
      ensures Valid() && seen == Observe(cursor, timestamp)
      ensures g.View() == if Closes(cursor, timestamp)
        then Logged(old(g.View()), ChirpCpp, ChirpInit, numSensors, connection, LogSample, cursor.last, algo)
        else old(g.View())
    {
      var index, lastTimestamp, fpWrites := cursor.index, cursor.last, cursor.fpWrites;
      if lastTimestamp == 0 {
        lastTimestamp := timestamp;
      }
      if lastTimestamp != timestamp {
        index := index - SamplesPerChunk;
        fpWrites := fpWrites + 1;
        RangedResults(g.View(), ChirpInit, connection, LogSample, algo, numSensors);
        g.LogData(ChirpCpp, ChirpInit, numSensors, connection, LogSample, lastTimestamp, algo);
        index := 0;
        lastTimestamp := timestamp;
      }
      seen := Cursor(index, lastTimestamp, fpWrites);
    }

    /** `res.emplace_back(distance[j])` for each connected sensor. */
    method PushDistances(res: seq<int>) returns (pushed: seq<int>)
      requires Valid()
      ensures pushed == res + g.distance[..numSensors]
    {
      pushed := res;
      for j := 0 to numSensors
        invariant pushed == res + g.distance[..j]
      {
        pushed := pushed + [g.distance[j]];
      }
    }

    /**
     * The body of the loop once `orig_buffer` was read: close the window if
     * the timestamp moved, store the chunk and push its distances onto `res`.
     */
    method DecodeBuffer(algo: Algorithm, ghost s: Loop, cursor: Cursor, res: seq<int>)
      returns (next: Cursor, stored: bool, ghost r: Loop, pushed: seq<int>)
      requires Valid() && s.status == Running && cursor.index >= 0
      requires s == Loop(cursor, Running, g.View(), buffer[..], s.chunks)
      requires res == [numSensors] + Flatten(s.chunks)
      modifies g, g.I, g.Q, g.iqBuffer, g.distance, g.amplitude, g.mode
      ensures Valid() && r == Decoded(LoopParams(algo), s)
      ensures r == Loop(next, r.status, g.View(), buffer[..], r.chunks)
      ensures pushed == [numSensors] + Flatten(r.chunks)
      ensures stored <==> r.status == Running
    {
      var raw := buffer[..scanBytes];
      var timestamp := Timestamp(raw, scanBytes);
      var seen := TrackTimestamp(algo, cursor, timestamp);
      assert g.View() == WindowMem(LoopParams(algo), s);
      next, stored, r, pushed := PlaceChunk(algo, s, seen, res);
    }

    /** The store at cursor `seen`, or the stop when the rows have no room left. */
    method PlaceChunk(algo: Algorithm, ghost s: Loop, seen: Cursor, res: seq<int>)
      returns (next: Cursor, stored: bool, ghost r: Loop, pushed: seq<int>)
      requires Valid() && LoopOk(s) && ParamsOk(LoopParams(algo)) && seen.index >= 0
      requires s.status == Running && s.buffer == buffer[..] && res == [numSensors] + Flatten(s.chunks)
      modifies g.I, g.Q, g.distance, g.amplitude, g.mode
      ensures Valid() && r == Placed(LoopParams(algo), s, seen, old(g.View()))
      ensures r == Loop(next, r.status, g.View(), buffer[..], r.chunks)
      ensures pushed == [numSensors] + Flatten(r.chunks)
      ensures stored <==> r.status == Running
    {
      ghost var p, m0 := LoopParams(algo), g.View();
      if seen.index + SamplesPerChunk > MaxSamples {
        // The source stores at I[j][index..index+6] unchecked: past the rows.
        next, stored, pushed := seen, false, res;
        PlacedOverflow(p, s, seen, m0);
        r := s.(cursor := next, mem := m0, status := WindowOverflow);
      } else {
        ghost var c := Decode(buffer[..scanBytes], numSensors, scanBytes);
        PlacedRoom(p, s, seen, m0);
        next, pushed := StoreAndPush(seen, res);
        stored := true;
        PushedChunk(numSensors, s.chunks, c.distance);
        r := s.(cursor := next, mem := g.View(), chunks := s.chunks + [c.distance]);
      }
    }

    /**
     * The store of the chunk at the head of `orig_buffer` at `seen.index`,
     * `index += 7`, and its distances pushed onto `res`.
     */
    method StoreAndPush(seen: Cursor, res: seq<int>) returns (next: Cursor, pushed: seq<int>)
      requires Valid() && seen.index >= 0 && Room(seen)
      modifies g.I, g.Q, g.distance, g.amplitude, g.mode
      ensures Valid() && next == Advance(seen)
      ensures var c := Decode(buffer[..scanBytes], numSensors, scanBytes);
        && g.View() == WithChunk(old(g.View()), c, numSensors, seen.index)
        && pushed == res + c.distance
    {
      var raw := buffer[..scanBytes];
      ghost var c := Decode(raw, numSensors, scanBytes);
      g.StoreChunk(raw, numSensors, scanBytes, seen.index);
      next := Cursor(seen.index + SamplesPerChunk, seen.last, seen.fpWrites);
      pushed := PushDistances(res);
      OverlayPrefix(c.distance, old(g.View()).distance);
    }

    /**
     * `getDataOnce`: the acquisition loop over the wake-ups `events`. It
     * returns `num_sensors` followed by the distances of every decoded chunk.
     */
    method GetDataOnce(events: seq<PollEvent>, algo: Algorithm) returns (res: seq<int>)
      requires Valid() && EventsOk(events, scanBytes)
      modifies g, g.I, g.Q, g.iqBuffer, g.distance, g.amplitude, g.mode, buffer
      ensures Valid()
      ensures var r := Run(LoopParams(algo), Initial(old(g.View()), old(buffer[..])), events);
        && g.View() == r.mem && buffer[..] == r.buffer
        && res == [numSensors] + Flatten(r.chunks)
    {
      ghost var p := LoopParams(algo);
      ghost var init := Initial(g.View(), buffer[..]);
      res := [numSensors];
      var cursor := Start;
      ghost var s := init;
      var ready := 1;
      var k := 0;
      while ready == 1 && k < |events|
        invariant 0 <= k <= |events| && Valid()
        invariant s == Run(p, init, events[..k])
        invariant s == Loop(cursor, s.status, g.View(), buffer[..], s.chunks)
        invariant s.status == if ready == 1 then Running else PollEnded(ready)
        invariant res == [numSensors] + Flatten(s.chunks)
      {
        var ev := events[k];
        RunSnoc(p, init, events, k);
        k := k + 1;
        ready := ev.ready;
        if ev.readable {
          ReadChunk(ev);
          s := s.(buffer := buffer[..]);
          var stored;
          cursor, stored, s, res := DecodeBuffer(algo, s, cursor, res);
          if !stored {
            break;
          }
        }
        if ready != 1 {
          s := s.(status := PollEnded(ready));
        }
      }
      if s.status != Running {
        StopIsFinal(p, init, events, k);
      } else {
        assert events[..k] == events;
      }
    }
  }

  /**
   * `main`: construct a `Chirp`, run `getDataOnce` and print each distance
   * with its sensor number.
   */
  method ChirpMain(opFreq: seq<int>, events: seq<PollEvent>, algo: Algorithm) returns (lines: seq<(int, int)>)
    requires |opFreq| == MaxSensors
    requires EventsOk(events, ScanBytesCpp(CountSet(ConnectedFlags(opFreq), MaxSensors)))
    ensures var flags := ConnectedFlags(opFreq);
      var n := CountSet(flags, MaxSensors);
      var p := Params(n, ScanBytesCpp(n), SensorConnection(flags), algo);
      var r := Run(p, Initial(ZeroMem(), seq(ChirpBufferBytes, _ => 0)), events);
      && (forall t :: 0 <= t < |r.chunks| ==> |r.chunks[t]| == n)
      && lines == Labelled(r.chunks)
  {
    var chirp := new Chirp(opFreq);
    var res := chirp.GetDataOnce(events, algo);
    ghost var p := chirp.LoopParams(algo);
    ghost var r := Run(p, Initial(ZeroMem(), seq(ChirpBufferBytes, _ => 0)), events);
    ChunksHoldDistances(p, Initial(ZeroMem(), seq(ChirpBufferBytes, _ => 0)), events);
    FlattenLength(r.chunks, chirp.numSensors);
    lines := Report(res);
    ReportLayout(res, r.chunks, chirp.numSensors, lines);
  }
}
