# Ultrasonic IIO acquisition: chunk decoder and window accumulator

This project models the data path of the two acquisition programs for the
CH101/CH201 ultrasonic time-of-flight sensors on an RB5 board. One is the C
tool `tdk-chx01-get-data.c`. The other is the C++ `Chirp` class in
`chirp.cpp`. Both programs:

- find the connected sensors from their operating frequencies;
- size the IIO chunk from the sensor count;
- poll and read the IIO character device one chunk at a time;
- decode each chunk into per-sensor I/Q samples, distances, amplitudes and
  modes, plus a trailing 64-bit timestamp;
- gather the samples of chunks that share a timestamp into one window of the
  global `I`/`Q` arrays (450 samples per sensor);
- when the timestamp changes, hand the closed window to `log_data`. That runs
  the range-finder algorithm and writes one log row per active sensor.

The C++ program also collects every chunk's distances into the vector that
`getDataOnce` returns. Its `main` prints that vector, labelling each entry
with its sensor number.

Modules:

- `Bytes`: two's-complement and little-endian integers. Covers the
  `short value = hi; value <<= 8; value += lo` idiom and the `memcpy` of the
  8-byte timestamp.
- `Layout`: constants, sensor detection (`sensor_connected`,
  `sensor_connection`, `num_sensors`), chunk sizes and byte offsets.
- `ChunkDecode`: a chunk as a value, `Decode` and an `Encode` inverse, and
  both round trips.
- `Window`: the timestamp state machine (`index`, `last_timestamp`,
  `fp_writes`) as a pure cursor. It covers seeding, closing a window,
  resetting the index and overflowing the 450-sample rows.
- `Rangefinder`: requests to the external range-finder library. The library
  itself is a function parameter.
- `LogRows`: which rows `log_data` writes and what each row holds, for both
  dialects (C ids through `port_map`, C++ raw indices).
- `Memory`: the programs' global arrays as the class `Globals`, with methods
  that store a chunk, fill `iq_buffer`, range and log. `Mem` is its value
  view.
- `Poll`: one wake-up of `poll`/`read` as an event value.
- `TdkGetData`: `confSensors`, the C acquisition loop and `main`'s PASS/FAIL
  verdict.
- `ChirpDriver`: the C++ `Chirp` class (`init`, `getDataOnce`) and `main`.

Each loop is a method proved against a pure specification: a `Step` function
folded over the sequence of wake-ups by `Run`. Properties are proved as
lemmas about `Run`, `Decode`, `Feed` and `Logged`.

Plain `char` is read as unsigned throughout. That is its meaning on the
AArch64 target the programs are built for. So every byte is a value in
0..255 and `value += lo` never subtracts.

### Chunk size and short reads

- Both programs read chunks of `32n + 32` bytes for n connected sensors
  (files/tdk-chx01-get-data.c:895-915, src/chirp.cpp:467-484). The C
  program forces 256 bytes for six sensors
  (files/tdk-chx01-get-data.c:917-921). The trailer (distances, amplitudes,
  modes) sits at `28n` to `33n`, and the timestamp fills the last 8 bytes.
- The C loop never resets `retry`, and its test `retry < 6` stops the loop
  at the first short read (see Findings). The C++ loop does not check the
  byte count. It decodes whatever the buffer holds.
- `I` and `Q` are never cleared between windows. `log_data` hands the
  range-finder and the log the first `sample` entries of each row
  (files/tdk-chx01-get-data.c:787-790, 847-854; `sample` is 80 in C and 225
  in C++). When the closed window holds fewer samples, the entries past its
  end are left over from earlier windows, and the model keeps them so.

## Model

| member | source | states |
|---|---|---|
| Bytes.ToShort | files/tdk-chx01-get-data.c:1269-1277 | storing an int into a `short` gives a value in the int16 range that is congruent to it modulo 65536 |
| Bytes.I16 | files/tdk-chx01-get-data.c:1269-1277 | a byte pair decodes to an int16 that is non-negative exactly when the high byte is below 128 |
| Bytes.ShortFromBytesIsI16 | files/tdk-chx01-get-data.c:1269-1277 | `hi`, shifted left 8, plus `lo`, computed in a `short`, is the little-endian signed 16-bit value of (lo, hi) |
| Bytes.UShortFromBytesIsU16 | files/tdk-chx01-get-data.c:1289-1302 | the same idiom in an `unsigned short` (distance, amplitude) is the little-endian unsigned value |
| Bytes.I16Split | files/tdk-chx01-get-data.c:1269-1277 | every int16 is the decoding of its two bytes |
| Bytes.SplitI16 | files/tdk-chx01-get-data.c:1269-1277 | every byte pair is the encoding of its int16 decoding |
| Bytes.U16Split | files/tdk-chx01-get-data.c:1289-1302 | every u16 is the decoding of its two bytes |
| Bytes.SplitU16 | files/tdk-chx01-get-data.c:1289-1302 | every byte pair is the encoding of its u16 decoding |
| Bytes.LeUnsignedBound | files/tdk-chx01-get-data.c:1239-1240 | k little-endian bytes hold a value below 256^k |
| Bytes.LeBytesLeUnsigned | files/tdk-chx01-get-data.c:1239-1240 | decoding the k-byte encoding of a value below 256^k gives back the value |
| Bytes.LeUnsignedLeBytes | files/tdk-chx01-get-data.c:1239-1240 | encoding the decoding of a byte string gives back the string |
| Bytes.I64Split | files/tdk-chx01-get-data.c:1239-1240 | every int64 timestamp survives the 8-byte `memcpy` encoding |
| Bytes.SplitI64 | files/tdk-chx01-get-data.c:1239-1240 | every 8 bytes copied into the `long long` timestamp are its encoding |
| Layout.ConnectedFlags | files/tdk-chx01-get-data.c:440-443 | sensor i is marked connected (1) exactly when its operating frequency is non-zero, and 0 otherwise |
| Layout.Compaction | files/tdk-chx01-get-data.c:899-904 | the compacted list has one entry per connected sensor, each a sensor index below k |
| Layout.CompactionOrdered | files/tdk-chx01-get-data.c:899-904 | the compacted indices are strictly increasing and are exactly the connected sensors |
| Layout.DetectSensors | files/tdk-chx01-get-data.c:895-905 | `num_sensors` counts the connected sensors, the I/Q bytes are 32 per sensor, and `sensor_connection` lists connected indices in order, then zeros |
| Layout.CompactIndices | files/tdk-chx01-get-data.c:899-904 | the second loop writes the ordered connected indices to the front of the zeroed six-entry array |
| Layout.SensorConnectionUnique | files/tdk-chx01-get-data.c:105 | the six-entry array with that prefix and zero tail is unique, so the loops compute `SensorConnection` |
| Layout.SensorConnection | src/chirp.cpp:473-478 | the array has six entries: the ordered connected indices, then zeros, all below 6 |
| Layout.SensorConnectionIncreasing | files/tdk-chx01-get-data.c:899-904 | the connected sensors' entries of `sensor_connection` are strictly increasing, so they never repeat |
| Layout.ScanBytesC | files/tdk-chx01-get-data.c:915-921 | for 0..6 sensors the C chunk size holds the sample blocks, the trailer and the timestamp, and never exceeds the 256-byte IIO buffer |
| Layout.ScanBytesCpp | src/chirp.cpp:484 | for 0..6 sensors the C++ chunk size holds the layout and fits the 256-byte `orig_buffer` |
| Layout.ChunkSizesFit | files/tdk-chx01-get-data.c:1240-1308 | with at least one sensor, the trailer ends before the timestamp bytes in both programs |
| Layout.SampleOffsetsDistinct | files/tdk-chx01-get-data.c:1269-1277 | the I and Q byte offsets of different (sensor, sample) pairs never collide and stay inside the 28n-byte sample region |
| ChunkDecode.SampleRows | files/tdk-chx01-get-data.c:1265-1280 | n rows of 7 values, each an int16 |
| ChunkDecode.TrailerWords | files/tdk-chx01-get-data.c:1288-1303 | n unsigned 16-bit words |
| ChunkDecode.Modes | files/tdk-chx01-get-data.c:1307-1308 | n byte-valued modes |
| ChunkDecode.Decode | files/tdk-chx01-get-data.c:1237-1308 | the decoded chunk is well shaped: n rows of 7 I and Q values, n distances, amplitudes and modes, an int64 timestamp |
| ChunkDecode.Timestamp | files/tdk-chx01-get-data.c:1239-1240 | the timestamp is a signed 64-bit value |
| ChunkDecode.TimestampOfDecode | files/tdk-chx01-get-data.c:1239-1240 | the chunk's timestamp is the little-endian int64 in the last 8 bytes |
| ChunkDecode.DecodeFields | files/tdk-chx01-get-data.c:1265-1308 | each field of the decoded chunk is the little-endian value of the bytes at its layout offset |
| ChunkDecode.DistanceWords | files/tdk-chx01-get-data.c:1289-1291 | distance j is the u16 at bytes 28n+2j, 28n+2j+1 |
| ChunkDecode.AmplitudeWords | files/tdk-chx01-get-data.c:1300-1302 | amplitude j is the u16 at bytes 30n+2j, 30n+2j+1 |
| ChunkDecode.Encode | files/tdk-chx01-get-data.c:1237-1308 | encoding a chunk yields scan_bytes bytes |
| ChunkDecode.DecodeEncode | files/tdk-chx01-get-data.c:1237-1308 | decoding an encoded well-shaped chunk gives it back: the layout loses nothing |
| ChunkDecode.EncodeDecode | files/tdk-chx01-get-data.c:1237-1308 | re-encoding a decoded chunk, with the original unused gap bytes, gives back the exact bytes read |
| ChunkDecode.GapOf | files/tdk-chx01-get-data.c:1237-1308 | the unused bytes between the trailer and the timestamp form a gap of the right length |
| Window.Observe | files/tdk-chx01-get-data.c:1250-1262 | a zero `last_timestamp` is seeded. On a changed timestamp, `fp_writes` grows by one and `index` returns to 0. Otherwise `index` and `fp_writes` stay |
| Window.Advance | files/tdk-chx01-get-data.c:1283 | storing a chunk advances `index` by 7 and nothing else |
| Window.FpWritesCountsWindows | files/tdk-chx01-get-data.c:1253-1262 | `fp_writes` is its start value plus the number of windows closed |
| Window.ClosedWindowsAreWholeChunks | files/tdk-chx01-get-data.c:1253-1283 | every closed window holds a whole number of chunks, between 7 and 448 samples, and the cursor stays reachable |
| Window.ConstantTimestamp | files/tdk-chx01-get-data.c:1250-1283 | k ≤ 64 chunks with one non-zero timestamp close no window and leave `index` at 7k |
| Window.ConstantTimestampOverflows | files/tdk-chx01-get-data.c:1265-1283 | more than 64 chunks with one non-zero timestamp overflow the 450-sample rows at `index` 448 |
| Window.OverflowAtSixtyFifthChunk | files/tdk-chx01-get-data.c:1265-1283 | the 65th chunk sharing a timestamp is the first that does not fit |
| Window.TwoWindows | files/tdk-chx01-get-data.c:1250-1283 | timestamps 100,100,100,200,200 close one 21-sample window and leave 14 samples pending |
| Window.ZeroTimestampReseeds | files/tdk-chx01-get-data.c:1250-1262 | a zero timestamp closes the current window and the next non-zero timestamp re-seeds without closing another |
| Window.FeedSnoc | files/tdk-chx01-get-data.c:1211-1283 | feeding one more timestamp is one more step of the cursor |
| Rangefinder.Interleave | files/invn_algo_rangefinder.h:35 | `iq[2k]` is I[k] and `iq[2k+1]` is Q[k] |
| Rangefinder.InterleaveSplits | files/tdk-chx01-get-data.c:787-790 | the I and Q rows are recovered from the interleaved buffer, so the algorithm sees exactly the first `sample` entries of the sensor's I and Q rows, nothing mixed or reordered |
| Rangefinder.LibRangeRequest | files/tdk-chx01-get-data.c:263-309 | the sensor's frequency and the samples go to the library. TX/RX mode uses the plain configuration with Rx 0; any other mode uses pitch-catch with pre-trigger 0, sensor distance 28 mm and Rx 1 |
| Rangefinder.CliffTxRx | files/tdk-chx01-get-data.c:178-199 | non-RX-only modes are refused. Otherwise the last of the first two sensors in RX-only mode sets Rx, and the last of the other mode sets Tx |
| LogRows.SensorId | files/tdk-chx01-get-data.c:653 | C logs `port_map` of the index (1..6, indices below 3 map to 4..6); C++ logs the index itself |
| LogRows.Transmitters | files/tdk-chx01-get-data.c:826-832 | at most one transmitter id per sensor scanned |
| LogRows.TransmitterListed | files/tdk-chx01-get-data.c:826-832 | every transmitter id in an RX-only row comes from a TX/RX sensor whose index is under the dialect's bound (2 in C, 3 in C++) |
| LogRows.ListedTransmitterIsListed | src/chirp.cpp:366-370 | every such TX/RX sensor appears among the listed transmitter ids |
| LogRows.FirstIdle | files/tdk-chx01-get-data.c:809-812 | the first sensor in mode 0 from the start position, or n |
| LogRows.RowsStopAtFirstIdle | files/tdk-chx01-get-data.c:808-812 | one row per sensor until the first sensor in mode 0 |
| LogRows.RowsInSensorOrder | files/tdk-chx01-get-data.c:808-857 | row k is the row of sensor k |
| LogRows.LoggedRow | files/tdk-chx01-get-data.c:813-856 | a row carries the window timestamp, distance/10 as range, the amplitude, a target flag that is 0 exactly for distance 0 or 0xFFFF, and the first `sample` I and Q values only for sensor indices below 3 |
| LogRows.TransmitterIndices | files/tdk-chx01-get-data.c:826-827 | the scanned indices of listed transmitters lie below k |
| LogRows.TransmitterIndicesOrdered | files/tdk-chx01-get-data.c:826-832 | the transmitter indices are strictly increasing and are exactly the TX/RX sensors under the bound |
| LogRows.TransmittersInSensorOrder | src/chirp.cpp:365-370 | the listed ids are the ids of those indices, in that order |
| LogRows.SensorIdInjective | files/tdk-chx01-get-data.c:653 | distinct sensor indices print distinct ids in both programs |
| LogRows.TransmittersDistinct | files/tdk-chx01-get-data.c:826-832 | when `sensor_connection` does not repeat among the connected sensors, no transmitter id is listed twice |
| LogRows.LoggedIds | files/tdk-chx01-get-data.c:816-835 | TX/RX rows name the sensor twice. RX-only rows list `Transmitters` (in sensor order, see below), then the sensor. Other modes list no id |
| Memory.WriteBlock | files/tdk-chx01-get-data.c:1265-1280 | the first n rows get the chunk's 7 samples at columns index..index+6, and every other cell is unchanged |
| Memory.Overlay | files/tdk-chx01-get-data.c:1288-1308 | the first entries are replaced, the rest kept |
| Memory.OverlayPrefix | files/tdk-chx01-get-data.c:1288-1308 | the replaced prefix reads back as written |
| Memory.WithChunk | files/tdk-chx01-get-data.c:1265-1308 | storing a chunk leaves `iq_buffer` and the log as they were |
| Memory.Filled | files/tdk-chx01-get-data.c:787-790 | `iq_buffer` keeps its 900 entries |
| Memory.RangeOne | files/tdk-chx01-get-data.c:783-806 | ranging one sensor keeps the memory well shaped |
| Memory.Ranged | files/tdk-chx01-get-data.c:783-806 | the range pass keeps the memory well shaped |
| Memory.RangeOneEffect | files/tdk-chx01-get-data.c:783-806 | ranging sensor k changes only its distance and amplitude, and only if it is in TX/RX or RX-only mode with index below 3. The I/Q rows, modes, log and the buffer beyond the window are untouched |
| Memory.RangedResults | files/tdk-chx01-get-data.c:783-806 | after the pass over n sensors, each qualifying sensor holds the library's answer for its own window, truncated to 16 bits, and every other value is unchanged |
| Memory.SameResult | files/tdk-chx01-get-data.c:787-798 | the library's answer for a sensor depends only on I, Q, modes and the unused tail of `iq_buffer`, not on other sensors' results |
| Memory.SnapshotOf | files/tdk-chx01-get-data.c:808-857 | the state `log_data` prints from is well formed |
| Memory.Logged | files/tdk-chx01-get-data.c:778-858 | `log_data` keeps the memory well shaped |
| Memory.LoggedRowCount | files/tdk-chx01-get-data.c:808-812 | `log_data` keeps I, Q and modes and appends at most n rows: one per sensor up to, and not including, the first in mode 0 |
| Memory.LoggedWindowRow | files/tdk-chx01-get-data.c:778-858 | appended row k is sensor k's. Its range and flag come from the distance just computed (or kept), its amplitude likewise, its timestamp is the closed window's, and its samples are the first `sample` entries of the sensor's I/Q rows (which still hold earlier windows' samples past the end of a shorter window) |
| Memory.StoreWords | files/tdk-chx01-get-data.c:1288-1303 | the first n entries of `distance` or `amplitude` get the chunk's words, and the rest is kept |
| Memory.StoreModes | files/tdk-chx01-get-data.c:1307-1308 | the first n entries of `mode` get the chunk's mode bytes, and the rest is kept |
| Memory.Globals.constructor | files/tdk-chx01-get-data.c:649-655 | the zero-initialised globals |
| Memory.Globals.StoreSamples | files/tdk-chx01-get-data.c:1265-1280 | the sample loop writes `WriteBlock` of the decoded rows into I and Q |
| Memory.Globals.StoreSensor | files/tdk-chx01-get-data.c:1267-1279 | one sensor's 7 samples are written at `index`, and nothing else changes |
| Memory.Globals.StoreTrailer | files/tdk-chx01-get-data.c:1285-1308 | `distance`, `amplitude` and `mode` get the decoded trailer over their first n entries |
| Memory.Globals.StoreChunk | files/tdk-chx01-get-data.c:1265-1308 | the new state is `WithChunk` of the old state and the decoded chunk |
| Memory.Globals.FillIq | files/tdk-chx01-get-data.c:787-790 | `iq_buffer` starts with the interleaved first `sample` I/Q values of the sensor, and the rest is kept |
| Memory.Globals.RangeSensor | files/tdk-chx01-get-data.c:784-806 | one iteration of the range loop yields `RangeOne` |
| Memory.Globals.RangePass | files/tdk-chx01-get-data.c:783-806 | the range loop yields `Ranged` |
| Memory.Globals.BuildRow | files/tdk-chx01-get-data.c:813-856 | the row printed for a sensor is `Row` of the snapshot |
| Memory.Globals.EmitFrom | files/tdk-chx01-get-data.c:808-857 | the printing loop appends exactly `Rows` of the snapshot |
| Memory.Globals.EmitRows | files/tdk-chx01-get-data.c:808-857 | the second loop of `log_data` appends `Rows` of the current state |
| Memory.Globals.LogData | files/tdk-chx01-get-data.c:778-858 | `log_data` turns the state into `Logged` of the old state |
| TdkGetData.ConfSensors | files/tdk-chx01-get-data.c:860-921 | frequency clamped to 100 and sample count to 225, `counter` = freq × dur, sensors detected, and chunk size `ScanBytesC` that fits the layout |
| TdkGetData.LibRangeInput | files/tdk-chx01-get-data.c:787-798 | a C range call gives the library the sensor's first `sample` I/Q pairs interleaved (`iq_buffer[2i] = I[dev][i]`, `iq_buffer[2i+1] = Q[dev][i]`), the frequency of its `sensor_connection` entry and its mode |
| TdkGetData.WindowMem | files/tdk-chx01-get-data.c:1253-1262 | closing a window keeps the memory well shaped |
| TdkGetData.Placed | files/tdk-chx01-get-data.c:1265-1308 | placing a chunk keeps the loop state well formed and the retry count |
| TdkGetData.PlacedOverflow | files/tdk-chx01-get-data.c:1265-1283 | a chunk that does not fit stops the loop with `WindowOverflow`, and memory is as the window closing left it |
| TdkGetData.PlacedRoom | files/tdk-chx01-get-data.c:1265-1308 | a chunk that fits is stored at `index`, which then advances by 7 |
| TdkGetData.FullChunk | files/tdk-chx01-get-data.c:1237-1308 | a full read keeps the loop state well formed and does not touch `retry` |
| TdkGetData.Handle | files/tdk-chx01-get-data.c:1227-1319 | every wake-up keeps the loop state well formed |
| TdkGetData.Step | files/tdk-chx01-get-data.c:1211-1222 | every loop iteration keeps the loop state well formed |
| TdkGetData.Run | files/tdk-chx01-get-data.c:1211-1321 | the whole loop keeps the loop state well formed |
| TdkGetData.RunSnoc | files/tdk-chx01-get-data.c:1211 | the loop over k+1 wake-ups is one more iteration of the loop over k |
| TdkGetData.StopIsFinal | files/tdk-chx01-get-data.c:1211 | once the loop has left `Running`, later wake-ups change nothing |
| TdkGetData.CloseWindow | files/tdk-chx01-get-data.c:1250-1262 | the timestamp block yields `Observe`, and runs `log_data` exactly when the window closes |
| TdkGetData.FullRead | files/tdk-chx01-get-data.c:1237-1308 | a full-size read yields `FullChunk` |
| TdkGetData.Wake | files/tdk-chx01-get-data.c:1222-1319 | one poll/read iteration yields `Handle` of the state before it |
| TdkGetData.AcquisitionLoop | files/tdk-chx01-get-data.c:1203-1321 | the `while (ready == 1)` loop leaves exactly `Run` over its wake-ups from `index` 0, `last_timestamp` 0 and `fp_writes` 1 |
| TdkGetData.RunningLoopFollowsWindows | files/tdk-chx01-get-data.c:1211-1321 | a loop still running saw only ready, full reads. Its cursor is the window machine fed the chunks' timestamps, and `retry` is 0 |
| TdkGetData.TimeoutEndsLoop | files/tdk-chx01-get-data.c:1211-1225 | a wake-up with `ready` other than 1 and nothing to read ends a running loop in `PollEnded(ready)` and changes nothing else, and adds no timestamp |
| TdkGetData.PollEndFollowsWindows | files/tdk-chx01-get-data.c:1211-1321 | a loop that `poll` ended on its last wake-up was not stopped by a short or failed read. Its cursor is the window machine fed the full chunks' timestamps, with no overflow |
| TdkGetData.ShortReadStopsLoop | files/tdk-chx01-get-data.c:1310-1319 | `retry` ends at 1 if a short read stopped the loop and at 0 otherwise |
| TdkGetData.FirstShortReadStops | files/tdk-chx01-get-data.c:1313-1317 | as written, the first short read stops the loop |
| TdkGetData.ShortReadStep | files/tdk-chx01-get-data.c:1310-1319 | a short read increments `retry` and stops the loop exactly when the retry rule gives up |
| TdkGetData.IntendedRetriesCount | files/tdk-chx01-get-data.c:1313-1317 | with the intended test, up to 5 short reads only count retries |
| TdkGetData.IntendedGivesUpAtSixth | files/tdk-chx01-get-data.c:1313-1317 | with the intended test, 5 short reads keep running and the sixth stops the loop |
| TdkGetData.GetData | files/tdk-chx01-get-data.c:1017-1328 | `main` passes exactly when `fp_writes` after the loop equals freq × dur = 50 |
| TdkGetData.PassCountsWindows | files/tdk-chx01-get-data.c:1325-1328 | for a loop still running, or one that `poll` ended on its last wake-up (a timeout), PASS means exactly `counter` − 1 windows were closed |
| ChirpDriver.ReadInto | src/chirp.cpp:524-527 | a read overwrites only the prefix it returns; the rest of `orig_buffer` keeps the previous chunk |
| ChirpDriver.WindowMem | src/chirp.cpp:532-540 | closing a window keeps memory well shaped, with the unused tail of `iq_buffer` still zero |
| ChirpDriver.Placed | src/chirp.cpp:541-572 | placing a chunk keeps the loop state well formed |
| ChirpDriver.PlacedOverflow | src/chirp.cpp:541-554 | a chunk that does not fit stops the loop with `WindowOverflow` |
| ChirpDriver.PlacedRoom | src/chirp.cpp:541-572 | a chunk that fits is stored at `index` and its n distances are appended to the result vector |
| ChirpDriver.Decoded | src/chirp.cpp:528-572 | decoding the buffer keeps the loop state well formed |
| ChirpDriver.Step | src/chirp.cpp:513-575 | every loop iteration keeps the loop state well formed |
| ChirpDriver.Run | src/chirp.cpp:513-575 | the whole loop keeps the loop state well formed |
| ChirpDriver.RunSnoc | src/chirp.cpp:513 | the loop over k+1 wake-ups is one more iteration of the loop over k |
| ChirpDriver.StopIsFinal | src/chirp.cpp:513 | once the loop has stopped, later wake-ups change nothing |
| ChirpDriver.PushedChunk | src/chirp.cpp:558-563 | pushing a chunk's distances extends `res` by exactly those distances |
| ChirpDriver.FlattenSnoc | src/chirp.cpp:558-563 | one more chunk appends its entries at the end |
| ChirpDriver.FlattenLength | src/chirp.cpp:558-563 | chunks of n distances give n × (number of chunks) entries |
| ChirpDriver.FlattenIndex | src/chirp.cpp:558-563 | distance j of chunk t sits at position t·n + j of the flattened vector |
| ChirpDriver.ChunksHoldDistances | src/chirp.cpp:558-563 | every chunk contributes exactly n distances, and earlier chunks are never altered |
| ChirpDriver.ChirpRangeInput | src/chirp.cpp:7-22 | `log_data(…, 225, …)` runs the algorithm on 255 samples: the first 225 entries of the sensor's I/Q rows (earlier windows' samples past the end of a shorter window) followed by 30 zero pairs |
| ChirpDriver.SensorIndex | src/chirp.cpp:596 | the printed sensor number lies in 1..ns |
| ChirpDriver.SensorIndexOfEntry | src/chirp.cpp:596 | entry j of any chunk is labelled sensor j + 1 |
| ChirpDriver.Report | src/chirp.cpp:593-598 | one line per entry after the count, labelled `(i - 1) % ns + 1` |
| ChirpDriver.ReportLayout | src/chirp.cpp:590-599 | the printed lines are the chunks' distances in order, each numbered 1..n within its chunk |
| ChirpDriver.Chirp.constructor | src/chirp.cpp:416-487 | zeroed globals and buffer, the detected sensors, their `sensor_connection` and chunk size 32n + 32 |
| ChirpDriver.Chirp.ReadChunk | src/chirp.cpp:524-527 | the buffer becomes `ReadInto` of the old buffer |
| ChirpDriver.Chirp.TrackTimestamp | src/chirp.cpp:528-540 | the timestamp block yields `Observe` and runs `log_data(…, 225, …)` exactly when the window closes |
| ChirpDriver.Chirp.PushDistances | src/chirp.cpp:558-563 | the result vector gains the first n distances in sensor order |
| ChirpDriver.Chirp.StoreAndPush | src/chirp.cpp:541-572 | the decoded chunk is stored at `index`, `index` advances by 7, and its distances are pushed |
| ChirpDriver.Chirp.PlaceChunk | src/chirp.cpp:541-572 | placing the buffer's chunk yields `Placed` and keeps `res` = [n] + the pushed chunks |
| ChirpDriver.Chirp.DecodeBuffer | src/chirp.cpp:528-572 | handling the buffer yields `Decoded` and keeps `res` = [n] + the pushed chunks |
| ChirpDriver.Chirp.GetDataOnce | src/chirp.cpp:489-577 | the loop leaves memory and buffer as `Run` does and returns [n] followed by every stored chunk's distances |
| ChirpDriver.ChirpMain | src/chirp.cpp:590-599 | `main` prints every chunk's n distances in order, numbered 1..n |

## Left out

- Reading sysfs, `find_type_by_name`, `process_sysfs_request`, `switch_streaming`, firmware loading, `print_header`, `setCounter`/`setFreq`/`stopData` and the C++ `setCounter(0)` at the end of each loop iteration: these are file I/O on sysfs. The sensors' operating frequencies are a parameter, and a firmware failure is not modelled.
- `poll` and `read` are a finite sequence of `PollEvent` values. Running out of events leaves the loop in `Running`, which the real loop, blocked in `poll`, never reaches. A real run ends on a `poll` timeout, which `TimeoutEndsLoop`, `PollEndFollowsWindows` and `PassCountsWindows` cover.
- `poll` returning -1 (error) or 0 (timeout) ends the loop like any other value than 1. The 5000 ms timeout itself is not modelled.
- The range-finder, cliff-detection, floor-type and obstacle libraries are foreign code. The range finder is the function parameter `algo`, so the state the C++ library keeps between calls is not modelled. Cliff, floor-type and obstacle detection are never switched on (`do_cliff`, `do_floor_type` and `do_obstacle_detect` stay 0), so they are unreachable. Only the Tx/Rx selection of `get_cliff_detection` is modelled, as `CliffTxRx`.
- Log rows are records, not text. The `%f` timestamp conversion to seconds and console `printf`s are not modelled. C++ `main`'s output is the list of (sensor number, value) pairs.
- C `get_lib_range` reads `outputs.magnitude_of_echo` (files/tdk-chx01-get-data.c:306). The range-finder header defines only `magnitude_of_object` (files/invn_algo_rangefinder.h:49). The model takes the amplitude from `magnitudeOfObject` in both programs.
- `total_bytes` is not modelled. Neither program ever uses it: C adds to it without initialising it (files/tdk-chx01-get-data.c:1238), and C++ only accumulates it.
- Writing past the 450-sample rows, when more than 64 chunks share a timestamp, is undefined behaviour in both programs. The model stops the loop in a `WindowOverflow` state instead of writing out of bounds.
- `Window.Observe` leaves out the dead store `index -= 7` before `index = 0`, since it has no effect on the cursor. The methods `TdkGetData.CloseWindow` and `ChirpDriver.Chirp.TrackTimestamp` execute it as the source does.
- `Chirp::init` and C `loadFirmware` fall off their end without a return value on success. The model's constructor and `ConfSensors` do not model a return value.
- A C++ short or failed read is not checked. The model decodes the buffer as the code does, with the bytes the read returned over the previous buffer contents (`ReadInto`). A negative byte count leaves the buffer untouched.
- Plain `char` is taken as unsigned (AArch64). With a signed `char`, sample and trailer bytes of 128 and above would be sign-extended.
- TdkGetData.Step, ChirpDriver.Step, TdkGetData.Handle, TdkGetData.FullChunk, ChirpDriver.Decoded, TdkGetData.Placed and ChirpDriver.Placed: their own contracts state only the loop invariant. What each step computes is stated by the methods proved equal to them and by the lemmas about `Run`.

## Findings

| source | as written | input that shows it | evidently intended | confidence | as-written member | corrected member |
|---|---|---|---|---|---|---|
| files/tdk-chx01-get-data.c:1313-1317 | `retry++; if (retry < 6) break;` leaves the loop on the very first short read, with `retry` = 1, and prints "Max retry reached" | a single wake-up whose read returns fewer bytes than `scan_bytes`, e.g. 0 bytes when `scan_bytes` = 64 | keep polling through short reads and give up on the sixth (`retry >= 6`) | not executed | TdkGetData.FirstShortReadStops | TdkGetData.IntendedGivesUpAtSixth |

The acquisition loop and its specification `Run` take the retry test as a
parameter (`RetryRule`). `GetData` runs the code as written (`AsWritten`).
The lemmas `IntendedRetriesCount` and `IntendedGivesUpAtSixth` prove the
corrected rule (`Intended`): short reads only count retries until the sixth.
