/**
 * The C acquisition program: sensor configuration (`confSensors`), the
 * acquisition loop of `main` and its PASS/FAIL verdict.
 *
 * The loop waits on the IIO device, reads one chunk per wake-up, and for a
 * full chunk applies the window rule (`Window`), calls `log_data` when a
 * window closes, and stores the chunk. A failed read ends the loop, and so
 * does the first short read (see `GivesUp`).
 */
module TdkGetData {
  import opened Bytes
  import opened Layout
  import opened ChunkDecode
  import opened Window
  import opened Rangefinder
  import opened LogRows
  import opened Memory
  import opened Poll

  /** The frequency and sample count `confSensors` clamps to. */
  const MaxFreq: int := 100
  const MaxSample: int := 225
  /** The settings `main` passes to `init`. */
  const MainDur: int := 10
  const MainSample: int := 80
  const MainFreq: int := 5

  /** What `confSensors` leaves behind. */
  datatype Setup = Setup(
    counter: int,        // frames expected: freq * dur
    numSensors: int,
    scanBytes: int,
    connection: seq<int>,
    sysfsSample: int,    // the sample count written to each sensor's sysfs file
    freq: int)           // the frequency written to `sampling_frequency`

  /**
   * `confSensors(dur, sample, freq)` with `op_freq` as read from sysfs: clamp
   * the frequency to 100 and the sample count to 225 (local copies only),
   * find the connected sensors, and size the chunk at 32 bytes per sensor
   * plus 32, or 256 for six sensors.
   */
  method ConfSensors(dur: int, sample: int, freq: int, opFreq: seq<int>) returns (setup: Setup)
    requires |opFreq| == MaxSensors
    ensures setup.freq == if freq > MaxFreq then MaxFreq else freq
    ensures setup.sysfsSample == if sample > MaxSample then MaxSample else sample
    ensures setup.counter == setup.freq * dur
    ensures setup.numSensors == CountSet(ConnectedFlags(opFreq), MaxSensors)
    ensures setup.connection == SensorConnection(ConnectedFlags(opFreq))
    ensures setup.scanBytes == ScanBytesC(setup.numSensors)
    ensures FitsLayout(setup.numSensors, setup.scanBytes)
  {
    var f, s := freq, sample;
    if f > MaxFreq {
      f := MaxFreq;
    }
    if s > MaxSample {
      s := MaxSample;
    }
    var flags := ConnectedFlags(opFreq);
    var counter := f * dur;
    var iqBytes, n, connection := DetectSensors(flags);
    var scan := iqBytes + 32;
    if n == MaxSensors {
      scan := IioBufferMax;
    }
    ChunkSizesFit(n);
    setup := Setup(counter, n, scan, connection, s, f);
  }

  /** Why the loop stopped, or `Running` if it has not. */
  datatype Status =
    | Running
    | PollEnded(ready: int)   // `poll` returned something other than 1
    | ReadFailed              // `read` returned a negative count
    | ShortReadStop           // the retry check broke out of the loop
    | WindowOverflow          // the next store would write past the end of the rows

  /** The loop's variables and the shared arrays. */
  datatype Loop = Loop(cursor: Cursor, retry: int, status: Status, mem: Mem)

  predicate LoopOk(s: Loop) {
    MemOk(s.mem) && s.cursor.index >= 0 && s.retry >= 0
  }

  function Initial(mem: Mem): Loop {
    Loop(Start, 0, Running, mem)
  }

  /** What stays fixed while the loop runs. */
  datatype Params = Params(n: int, scanBytes: int, connection: seq<int>, opFreq: seq<int>, sample: int, algo: Algorithm)

  predicate ParamsOk(p: Params) {
    FitsLayout(p.n, p.scanBytes) && ConnectionOk(p.connection) && |p.opFreq| == MaxSensors && 0 <= p.sample <= MaxSamples
  }

  /**
   * The retry test after a short read. The source increments `retry` and
   * breaks out of the loop when `retry < 6`, which is already true after the
   * first short read; the message it prints there ("Max retry reached") and
   * the counter show that it meant to give up once `retry` reaches 6.
   */
  datatype RetryRule = AsWritten | Intended

  predicate GivesUp(rule: RetryRule, retry: int) {
    match rule
    case AsWritten => retry < 6
    case Intended => retry >= 6
  }

  /** The arrays once the window rule has seen `ts`: `log_data` for the window it closes. */
  function WindowMem(p: Params, s: Loop, ts: int): (mem: Mem)
    requires ParamsOk(p) && LoopOk(s)
    ensures MemOk(mem)
  {
    if Closes(s.cursor, ts)
    then Logged(s.mem, GetDataC, LibRange(p.opFreq), p.n, p.connection, p.sample, s.cursor.last, p.algo)
    else s.mem
  }

  /** The chunk `raw` stored at cursor `o` over `mem`, or an overflow if the rows have no room left. */
  function Placed(p: Params, s: Loop, o: Cursor, mem: Mem, raw: seq<int>): (r: Loop)
    requires ParamsOk(p) && LoopOk(s) && MemOk(mem) && o.index >= 0 && IsRaw(raw, p.n, p.scanBytes)
    ensures LoopOk(r) && r.retry == s.retry
  {
    if Room(o) then s.(cursor := Advance(o), mem := WithChunk(mem, Decode(raw, p.n, p.scanBytes), p.n, o.index))
    else s.(cursor := o, mem := mem, status := WindowOverflow)
  }

  lemma PlacedOverflow(p: Params, s: Loop, o: Cursor, mem: Mem, raw: seq<int>)
    requires ParamsOk(p) && LoopOk(s) && MemOk(mem) && o.index >= 0 && IsRaw(raw, p.n, p.scanBytes) && !Room(o)
    ensures Placed(p, s, o, mem, raw) == s.(cursor := o, mem := mem, status := WindowOverflow)
  {
  }

  lemma PlacedRoom(p: Params, s: Loop, o: Cursor, mem: Mem, raw: seq<int>)
    requires ParamsOk(p) && LoopOk(s) && MemOk(mem) && o.index >= 0 && IsRaw(raw, p.n, p.scanBytes) && Room(o)
    ensures Placed(p, s, o, mem, raw)
         == s.(cursor := Advance(o), mem := WithChunk(mem, Decode(raw, p.n, p.scanBytes), p.n, o.index))
  {
  }

  /**
   * A full chunk `raw`: the window rule on its timestamp, `log_data` for the
   * window it closes (stamped with that window's timestamp), then the store
   * at the cursor, or an overflow if the rows have no room left.
   */
  function FullChunk(p: Params, s: Loop, raw: seq<int>): (r: Loop)
    requires ParamsOk(p) && LoopOk(s) && IsRaw(raw, p.n, p.scanBytes)
    ensures LoopOk(r) && r.retry == s.retry
  {
    var ts := Timestamp(raw, p.scanBytes);
    Placed(p, s, Observe(s.cursor, ts), WindowMem(p, s, ts), raw)
  }

  /** What one wake-up of the running loop does before the loop tests `ready`. */
  function Handle(rule: RetryRule, p: Params, s: Loop, ev: PollEvent): (r: Loop)
    requires ParamsOk(p) && LoopOk(s) && ReadOk(ev, p.scanBytes)
    ensures LoopOk(r)
  {
    if !ev.readable then s
    else if ev.bytes < 0 then s.(status := ReadFailed)
    else if ev.bytes == p.scanBytes then FullChunk(p, s, ev.data)
    else
      var retry := s.retry + 1;
      if GivesUp(rule, retry) then s.(retry := retry, status := ShortReadStop) else s.(retry := retry)
  }

  /** One wake-up of the loop. */
  function Step(rule: RetryRule, p: Params, s: Loop, ev: PollEvent): (r: Loop)
    requires ParamsOk(p) && LoopOk(s) && ReadOk(ev, p.scanBytes)
    ensures LoopOk(r)
  {
    if s.status != Running then s
    else
      var s1 := Handle(rule, p, s, ev);
      if s1.status == Running && ev.ready != 1 then s1.(status := PollEnded(ev.ready)) else s1
  }

  function Run(rule: RetryRule, p: Params, s: Loop, events: seq<PollEvent>): (r: Loop)
    requires ParamsOk(p) && LoopOk(s) && EventsOk(events, p.scanBytes)
    ensures LoopOk(r)
  {
    if events == [] then s
    else Step(rule, p, Run(rule, p, s, events[..|events| - 1]), events[|events| - 1])
  }

  lemma RunSnoc(rule: RetryRule, p: Params, s: Loop, events: seq<PollEvent>, k: int)
    requires ParamsOk(p) && LoopOk(s) && EventsOk(events, p.scanBytes) && 0 <= k < |events|
    ensures Run(rule, p, s, events[..k + 1]) == Step(rule, p, Run(rule, p, s, events[..k]), events[k])
  {
    assert events[..k + 1][..k] == events[..k];
  }

  /** Once the loop has stopped, later wake-ups change nothing. */
  lemma {:induction false} StopIsFinal(rule: RetryRule, p: Params, s: Loop, events: seq<PollEvent>, k: int)
    requires ParamsOk(p) && LoopOk(s) && EventsOk(events, p.scanBytes) && 0 <= k <= |events|
    requires Run(rule, p, s, events[..k]).status != Running
    ensures Run(rule, p, s, events) == Run(rule, p, s, events[..k])
    decreases |events| - k
  {
    if k < |events| {
      RunSnoc(rule, p, s, events, k);
      StopIsFinal(rule, p, s, events, k + 1);
      if k + 1 == |events| {
        assert events[..k + 1] == events;
      }
    } else {
      assert events[..k] == events;
    }
  }

  /**
   * The acquisition loop of `main` over the wake-ups `events`, on the
   * shared arrays `g`, with the retry test `rule` (`main` runs the source's
   * own, `AsWritten`). It returns the loop's variables and how it stopped;
   * running out of `events` leaves it `Running`.
   */
  method AcquisitionLoop(rule: RetryRule, g: Globals, p: Params, events: seq<PollEvent>)
    returns (index: int, lastTimestamp: int, fpWrites: int, retry: int, status: Status)
    requires g.Valid() && MemOk(g.View()) && ParamsOk(p) && EventsOk(events, p.scanBytes)
    modifies g, g.I, g.Q, g.iqBuffer, g.distance, g.amplitude, g.mode
    ensures Loop(Cursor(index, lastTimestamp, fpWrites), retry, status, g.View())
         == Run(rule, p, Initial(old(g.View())), events)
  {
    ghost var init := Initial(g.View());
    index, lastTimestamp, fpWrites := 0, 0, 1;
    retry := 0;
    status := Running;
    var ready := 1;
    var k := 0;
    while ready == 1 && k < |events|
      invariant 0 <= k <= |events| && g.Valid()
      invariant status == if ready == 1 then Running else PollEnded(ready)
      invariant Loop(Cursor(index, lastTimestamp, fpWrites), retry, status, g.View()) == Run(rule, p, init, events[..k])
    {
      var ev := events[k];
      RunSnoc(rule, p, init, events, k);
      k := k + 1;
      ready := ev.ready;
      index, lastTimestamp, fpWrites, retry, status := Wake(rule, g, p, ev, index, lastTimestamp, fpWrites, retry);
      if status != Running {
        break;
      }
      status := if ready == 1 then Running else PollEnded(ready);
    }
    if status != Running {
      StopIsFinal(rule, p, init, events, k);
    } else {
      assert events[..k] == events;
    }
  }

  /**
   * The body of the loop for one wake-up: nothing if the descriptor is not
   * readable, otherwise the read and what its byte count calls for.
   */
  method Wake(rule: RetryRule, g: Globals, p: Params, ev: PollEvent, index0: int, last0: int, writes0: int, retry0: int)
    returns (index: int, lastTimestamp: int, fpWrites: int, retry: int, status: Status)
    requires g.Valid() && MemOk(g.View()) && ParamsOk(p) && ReadOk(ev, p.scanBytes)
    requires index0 >= 0 && retry0 >= 0
    modifies g, g.I, g.Q, g.iqBuffer, g.distance, g.amplitude, g.mode
    ensures g.Valid()
    ensures Loop(Cursor(index, lastTimestamp, fpWrites), retry, status, g.View())
         == Handle(rule, p, Loop(Cursor(index0, last0, writes0), retry0, Running, old(g.View())), ev)
  {
    index, lastTimestamp, fpWrites, retry := index0, last0, writes0, retry0;
    status := Running;
    if ev.readable {
      if ev.bytes < 0 {
        status := ReadFailed;
      } else if ev.bytes == p.scanBytes {
        index, lastTimestamp, fpWrites, status := FullRead(g, p, ev.data, index, lastTimestamp, fpWrites, retry);
      } else {
        retry := retry + 1;
        if GivesUp(rule, retry) {
          status := ShortReadStop;
        }
      }
    }
  }

  /**
   * A read that returned a whole chunk `raw`: close the window if the
   * timestamp moved on, then store the chunk at `index` unless the rows are
   * full.
   */
  method FullRead(g: Globals, p: Params, raw: seq<int>, index0: int, last0: int, writes0: int, retry: int)
    returns (index: int, lastTimestamp: int, fpWrites: int, status: Status)
    requires g.Valid() && MemOk(g.View()) && ParamsOk(p) && IsRaw(raw, p.n, p.scanBytes)
    requires index0 >= 0 && retry >= 0
    modifies g, g.I, g.Q, g.iqBuffer, g.distance, g.amplitude, g.mode
    ensures g.Valid()
    ensures Loop(Cursor(index, lastTimestamp, fpWrites), retry, status, g.View())
         == FullChunk(p, Loop(Cursor(index0, last0, writes0), retry, Running, old(g.View())), raw)
  {
    ghost var s := Loop(Cursor(index0, last0, writes0), retry, Running, g.View());
    var timestamp := Timestamp(raw, p.scanBytes);
    var seen := CloseWindow(g, p, Cursor(index0, last0, writes0), timestamp);
    assert g.View() == WindowMem(p, s, timestamp);
    if !Room(seen) {
      // The source stores at I[j][index..index+6] unchecked: past the rows.
      PlacedOverflow(p, s, seen, g.View(), raw);
      index, lastTimestamp, fpWrites := seen.index, seen.last, seen.fpWrites;
      status := WindowOverflow;
    } else {
      ghost var mem := g.View();
      PlacedRoom(p, s, seen, mem, raw);
      g.StoreChunk(raw, p.n, p.scanBytes, seen.index);
      index, lastTimestamp, fpWrites := seen.index + SamplesPerChunk, seen.last, seen.fpWrites;
      status := Running;
    }
  }

  /**
   * The window rule for a chunk stamped `timestamp`: seed `last_timestamp`,
   * and on a change write the closed window with `log_data` and restart the
   * cursor.
   */
  method CloseWindow(g: Globals, p: Params, cursor: Cursor, timestamp: int) returns (seen: Cursor)
    requires g.Valid() && MemOk(g.View()) && ParamsOk(p)
    modifies g, g.iqBuffer, g.distance, g.amplitude
    ensures g.Valid() && seen == Observe(cursor, timestamp)
    ensures g.View() == if Closes(cursor, timestamp)
      then Logged(old(g.View()), GetDataC, LibRange(p.opFreq), p.n, p.connection, p.sample, cursor.last, p.algo)
      else old(g.View())
  {
    var index, lastTimestamp, fpWrites := cursor.index, cursor.last, cursor.fpWrites;
    if lastTimestamp == 0 {
      lastTimestamp := timestamp;
    }
    if lastTimestamp != timestamp {
      index := index - SamplesPerChunk;
      fpWrites := fpWrites + 1;
      g.LogData(GetDataC, LibRange(p.opFreq), p.n, p.connection, p.sample, lastTimestamp, p.algo);
      index := 0;
      lastTimestamp := timestamp;
    }
    seen := Cursor(index, lastTimestamp, fpWrites);
  }

  /** The timestamps of the full chunks among `events`, in order. */
  function Stamps(p: Params, events: seq<PollEvent>): seq<int>
    requires ParamsOk(p) && EventsOk(events, p.scanBytes)
  {
    if events == [] then []
    else
      var ev := events[|events| - 1];
      Stamps(p, events[..|events| - 1]) + if ev.readable && ev.bytes == p.scanBytes then [Timestamp(ev.data, p.scanBytes)] else []
  }

  /**
   * A loop that is still running has seen only wake-ups where `poll`
   * returned 1 and every read delivered a full chunk; its cursor is the one
   * the window rule computes from those chunks' timestamps, and none of
   * them overflowed the rows.
   */
  lemma {:induction false} RunningLoopFollowsWindows(p: Params, m: Mem, events: seq<PollEvent>)
    requires ParamsOk(p) && MemOk(m) && EventsOk(events, p.scanBytes)
    requires Run(AsWritten, p, Initial(m), events).status == Running
    ensures forall k :: 0 <= k < |events| ==>
      events[k].ready == 1 && (events[k].readable ==> events[k].bytes == p.scanBytes)
    ensures Feed(Start, Stamps(p, events)).Filled?
    ensures Run(AsWritten, p, Initial(m), events).cursor == Feed(Start, Stamps(p, events)).cursor
    ensures Run(AsWritten, p, Initial(m), events).retry == 0
  {
    if events != [] {
      var prefix := events[..|events| - 1];
      var ev := events[|events| - 1];
      assert Run(AsWritten, p, Initial(m), prefix).status == Running;
      RunningLoopFollowsWindows(p, m, prefix);
      if ev.readable && ev.bytes == p.scanBytes {
        FeedSnoc(Start, Stamps(p, prefix), Timestamp(ev.data, p.scanBytes));
      } else {
        assert Stamps(p, events) == Stamps(p, prefix);
      }
      forall k | 0 <= k < |events|
        ensures events[k].ready == 1 && (events[k].readable ==> events[k].bytes == p.scanBytes)
      {
        if k < |prefix| {
          assert events[k] == prefix[k];
        }
      }
    }
  }

  /**
   * A wake-up on which `poll` timed out or failed (`ready != 1`) and that
   * reported nothing to read ends a running loop and changes nothing else.
   */
  lemma TimeoutEndsLoop(p: Params, m: Mem, events: seq<PollEvent>, ev: PollEvent)
    requires ParamsOk(p) && MemOk(m) && EventsOk(events, p.scanBytes) && ReadOk(ev, p.scanBytes)
    requires Run(AsWritten, p, Initial(m), events).status == Running
    requires !ev.readable && ev.ready != 1
    ensures EventsOk(events + [ev], p.scanBytes)
    ensures Run(AsWritten, p, Initial(m), events + [ev])
         == Run(AsWritten, p, Initial(m), events).(status := PollEnded(ev.ready))
    ensures Stamps(p, events + [ev]) == Stamps(p, events)
  {
    assert (events + [ev])[..|events|] == events;
  }

  /**
   * A loop that `poll` ended on its last wake-up, `ev`, after running
   * through the others: `ev` was not a short or failed read, and the
   * cursor is still the one the window rule computes from the full chunks'
   * timestamps, `ev`'s own included when it delivered one.
   */
  lemma {:induction false} PollEndFollowsWindows(p: Params, m: Mem, events: seq<PollEvent>, ev: PollEvent)
    requires ParamsOk(p) && MemOk(m) && EventsOk(events, p.scanBytes) && ReadOk(ev, p.scanBytes)
    requires Run(AsWritten, p, Initial(m), events).status == Running
    requires EventsOk(events + [ev], p.scanBytes)
    requires Run(AsWritten, p, Initial(m), events + [ev]).status.PollEnded?
    ensures Run(AsWritten, p, Initial(m), events + [ev]).status == PollEnded(ev.ready) && ev.ready != 1
    ensures ev.readable ==> ev.bytes == p.scanBytes
    ensures Feed(Start, Stamps(p, events + [ev])).Filled?
    ensures Run(AsWritten, p, Initial(m), events + [ev]).cursor == Feed(Start, Stamps(p, events + [ev])).cursor
  {
    var all := events + [ev];
    assert all[..|events|] == events && all[|events|] == ev;
    RunningLoopFollowsWindows(p, m, events);
    if ev.readable && ev.bytes == p.scanBytes {
      FeedSnoc(Start, Stamps(p, events), Timestamp(ev.data, p.scanBytes));
    } else {
      assert Stamps(p, all) == Stamps(p, events);
    }
  }

  /**
   * As written, the loop never retries: `retry` is 1 exactly when the loop
   * was stopped by a short read, and 0 otherwise.
   */
  lemma {:induction false} ShortReadStopsLoop(p: Params, m: Mem, events: seq<PollEvent>)
    requires ParamsOk(p) && MemOk(m) && EventsOk(events, p.scanBytes)
    ensures Run(AsWritten, p, Initial(m), events).retry == if Run(AsWritten, p, Initial(m), events).status == ShortReadStop then 1 else 0
  {
    if events != [] {
      ShortReadStopsLoop(p, m, events[..|events| - 1]);
    }
  }

  /** A wake-up that reads fewer bytes than a chunk. */
  predicate IsShortRead(p: Params, ev: PollEvent) {
    ev.ready == 1 && ev.readable && 0 <= ev.bytes < p.scanBytes
  }

  /** As written, a single short read ends the loop. */
  lemma FirstShortReadStops(p: Params, s: Loop, ev: PollEvent)
    requires ParamsOk(p) && LoopOk(s) && ReadOk(ev, p.scanBytes) && IsShortRead(p, ev)
    requires s.status == Running && s.retry == 0
    ensures Run(AsWritten, p, s, [ev]) == s.(retry := 1, status := ShortReadStop)
  {
    assert [ev][..0] == [];
  }

  /** With the intended test, `k <= 5` short reads in a row only count retries. */
  lemma {:induction false} IntendedRetriesCount(p: Params, s: Loop, ev: PollEvent, k: nat)
    requires ParamsOk(p) && LoopOk(s) && ReadOk(ev, p.scanBytes) && IsShortRead(p, ev)
    requires s.status == Running && s.retry == 0 && k <= 5
    ensures Run(Intended, p, s, Repeat(ev, k)) == s.(retry := k)
  {
    if k > 0 {
      var prev := Repeat(ev, k - 1);
      var events := Repeat(ev, k);
      IntendedRetriesCount(p, s, ev, k - 1);
      assert events == prev + [ev];
      assert events[..k - 1] == prev && events[k - 1] == ev;
      ShortReadStep(Intended, p, s.(retry := k - 1), ev);
      assert Run(Intended, p, s, events) == Step(Intended, p, Run(Intended, p, s, prev), ev);
    }
  }

  /** A short read while the loop runs counts one more retry and applies the retry test. */
  lemma ShortReadStep(rule: RetryRule, p: Params, s: Loop, ev: PollEvent)
    requires ParamsOk(p) && LoopOk(s) && ReadOk(ev, p.scanBytes) && IsShortRead(p, ev)
    requires s.status == Running
    ensures Step(rule, p, s, ev)
         == if GivesUp(rule, s.retry + 1) then s.(retry := s.retry + 1, status := ShortReadStop)
            else s.(retry := s.retry + 1)
  {
    assert Handle(rule, p, s, ev)
        == if GivesUp(rule, s.retry + 1) then s.(retry := s.retry + 1, status := ShortReadStop)
           else s.(retry := s.retry + 1);
  }

  /** With the intended test, the loop survives five short reads and gives up at the sixth. */
  lemma IntendedGivesUpAtSixth(p: Params, s: Loop, ev: PollEvent)
    requires ParamsOk(p) && LoopOk(s) && ReadOk(ev, p.scanBytes) && IsShortRead(p, ev)
    requires s.status == Running && s.retry == 0
    ensures Run(Intended, p, s, Repeat(ev, 5)).status == Running
    ensures Run(Intended, p, s, Repeat(ev, 6)) == s.(retry := 6, status := ShortReadStop)
  {
    IntendedRetriesCount(p, s, ev, 5);
    assert Repeat(ev, 6)[..5] == Repeat(ev, 5);
  }

  /**
   * `main`: configure the sensors with duration 10 s, 80 samples and 5 Hz,
   * run the acquisition loop on zeroed arrays, and report PASS when the
   * count of windows written, `fp_writes`, equals the expected `counter`.
   */
  method GetData(opFreq: seq<int>, events: seq<PollEvent>, algo: Algorithm) returns (passed: bool)
    requires |opFreq| == MaxSensors
    requires EventsOk(events, ScanBytesC(CountSet(ConnectedFlags(opFreq), MaxSensors)))
    ensures var flags := ConnectedFlags(opFreq);
      var n := CountSet(flags, MaxSensors);
      var p := Params(n, ScanBytesC(n), SensorConnection(flags), opFreq, MainSample, algo);
      passed <==> Run(AsWritten, p, Initial(ZeroMem()), events).cursor.fpWrites == MainFreq * MainDur
  {
    var setup := ConfSensors(MainDur, MainSample, MainFreq, opFreq);
    var g := new Globals();
    var p := Params(setup.numSensors, setup.scanBytes, setup.connection, opFreq, MainSample, algo);
    var index, lastTimestamp, fpWrites, retry, status := AcquisitionLoop(AsWritten, g, p, events);
    passed := fpWrites == setup.counter;
  }

  /**
   * For a loop that is still running, or that `poll` ended on its last
   * wake-up (a timeout, the way a healthy run finishes), PASS means exactly
   * that `counter - 1` windows were closed (the last window is never
   * counted as written).
   */
  lemma PassCountsWindows(p: Params, events: seq<PollEvent>, counter: int)
    requires ParamsOk(p) && EventsOk(events, p.scanBytes)
    requires || Run(AsWritten, p, Initial(ZeroMem()), events).status == Running
             || (&& |events| > 0
                 && Run(AsWritten, p, Initial(ZeroMem()), events[..|events| - 1]).status == Running
                 && Run(AsWritten, p, Initial(ZeroMem()), events).status.PollEnded?)
    ensures Run(AsWritten, p, Initial(ZeroMem()), events).cursor.fpWrites == counter
        <==> |Feed(Start, Stamps(p, events)).closed| == counter - 1
  {
    if Run(AsWritten, p, Initial(ZeroMem()), events).status == Running {
      RunningLoopFollowsWindows(p, ZeroMem(), events);
    } else {
      var prefix := events[..|events| - 1];
      assert events == prefix + [events[|events| - 1]];
      PollEndFollowsWindows(p, ZeroMem(), prefix, events[|events| - 1]);
    }
    FpWritesCountsWindows(Start, Stamps(p, events));
  }

  /**
   * A C range call hands `get_lib_range` the sensor's own first `sample`
   * (I, Q) pairs, interleaved as `iq_buffer[2i] = I[dev][i]`,
   * `iq_buffer[2i + 1] = Q[dev][i]`, with the operating frequency of the
   * sensor it is connected to and its mode.
   */
  lemma LibRangeInput(m: Mem, opFreq: seq<int>, connection: seq<int>, sample: int, algo: Algorithm, dev: int)
    requires MemOk(m) && |opFreq| == MaxSensors && ConnectionOk(connection)
    requires 0 <= dev < MaxSensors && 0 <= sample <= MaxSamples
    ensures var req := LibRangeRequest(opFreq[connection[dev]], m.mode[dev],
                                       Interleave(m.i[dev][..sample], m.q[dev][..sample]), sample);
      RangeResult(m, LibRange(opFreq), connection, sample, algo, dev) == algo(req.0, req.1)
  {
    var iq := Interleave(m.i[dev][..sample], m.q[dev][..sample]);
    OverlayPrefix(iq, m.iq);
    assert Memory.Filled(m, dev, sample)[..2 * sample] == iq;
  }
}
