/**
 * The rows `log_data` writes to the CSV log when a window closes: one row per
 * connected sensor, in sensor order, stopping at the first idle (mode 0)
 * sensor. The C and C++ programs differ only in the sensor ids they print and
 * in which transmitters an RX_ONLY row lists (`Dialect`).
 *
 * A row is kept as its values; the `%f` / `%d` text formatting is not modelled.
 */
module LogRows {
  import opened Bytes
  import opened Layout

  /** `port_map` of the C program: the port number printed for each sensor index. */
  const PortMap: seq<int> := [4, 5, 6, 1, 2, 3]

  datatype Dialect = GetDataC | ChirpCpp

  /** The id printed for a sensor: its port number in C, its raw index in C++. */
  function SensorId(d: Dialect, connection: int): (id: int)
    requires 0 <= connection < MaxSensors
    ensures d == ChirpCpp ==> id == connection
    ensures d == GetDataC ==> 1 <= id <= MaxSensors && (connection < 3 <==> id >= 4)
  {
    if d == GetDataC then PortMap[connection] else connection
  }

  /** The sensor index below which a TX_RX sensor is listed in an RX_ONLY row. */
  function TransmitterBound(d: Dialect): int {
    if d == GetDataC then 2 else DevNumBoundary
  }

  /** What `log_data` reads: the global arrays and the window's timestamp. */
  datatype Snapshot = Snapshot(
    n: int,
    modes: seq<int>,
    connection: seq<int>,
    distance: seq<int>,
    amplitude: seq<int>,
    iRows: seq<seq<int>>,
    qRows: seq<seq<int>>,
    timestamp: int)

  predicate WellFormed(s: Snapshot) {
    && 0 <= s.n <= MaxSensors
    && |s.modes| == MaxSensors && |s.connection| == MaxSensors
    && |s.distance| == MaxSensors && |s.amplitude| == MaxSensors
    && |s.iRows| == MaxSensors && |s.qRows| == MaxSensors
    && (forall j :: 0 <= j < MaxSensors ==> 0 <= s.connection[j] < MaxSensors)
    && (forall j :: 0 <= j < MaxSensors ==> IsU16(s.distance[j]) && IsU16(s.amplitude[j]))
  }

  /**
   * One log line: timestamp, sensor ids, range (distance / 10), amplitude,
   * target flag, then the I and Q samples (empty for sensors at index 3 and up).
   */
  datatype LogRow = LogRow(
    timestamp: int,
    ids: seq<int>,
    range: int,
    amplitude: int,
    targetDetected: int,
    iSamples: seq<int>,
    qSamples: seq<int>)

  /** Whether sensor `j` is a transmitter an RX_ONLY row lists. */
  predicate ListedTransmitter(d: Dialect, s: Snapshot, j: int)
    requires WellFormed(s) && 0 <= j < MaxSensors
  {
    s.modes[j] == TxRxMode && s.connection[j] < TransmitterBound(d)
  }

  /** Ids of the listed transmitters among the first `k` sensors, in sensor order. */
  function Transmitters(d: Dialect, s: Snapshot, k: int): (ids: seq<int>)
    requires WellFormed(s) && 0 <= k <= s.n
    ensures |ids| <= k
  {
    if k == 0 then []
    else
      var j := k - 1;
      Transmitters(d, s, j) + if ListedTransmitter(d, s, j) then [SensorId(d, s.connection[j])] else []
  }

  /** Every id listed is that of a listed transmitter among the first `k` sensors. */
  lemma {:induction false} TransmitterListed(d: Dialect, s: Snapshot, k: int, m: int) returns (j: int)
    requires WellFormed(s) && 0 <= k <= s.n && 0 <= m < |Transmitters(d, s, k)|
    ensures 0 <= j < k && ListedTransmitter(d, s, j) && SensorId(d, s.connection[j]) == Transmitters(d, s, k)[m]
  {
    var prefix := Transmitters(d, s, k - 1);
    if m < |prefix| {
      j := TransmitterListed(d, s, k - 1, m);
    } else {
      j := k - 1;
    }
  }

  /** Every listed transmitter among the first `k` sensors has its id listed. */
  lemma {:induction false} ListedTransmitterIsListed(d: Dialect, s: Snapshot, k: int, j: int)
    requires WellFormed(s) && 0 <= j < k <= s.n && ListedTransmitter(d, s, j)
    ensures SensorId(d, s.connection[j]) in Transmitters(d, s, k)
  {
    if j < k - 1 {
      ListedTransmitterIsListed(d, s, k - 1, j);
    }
  }

  /** Indices of the listed transmitters among the first `k` sensors, in the order `log_data` scans them. */
  function TransmitterIndices(d: Dialect, s: Snapshot, k: int): (js: seq<int>)
    requires WellFormed(s) && 0 <= k <= s.n
    ensures |js| <= k && forall a :: 0 <= a < |js| ==> 0 <= js[a] < k
  {
    if k == 0 then []
    else TransmitterIndices(d, s, k - 1) + if ListedTransmitter(d, s, k - 1) then [k - 1] else []
  }

  /** The transmitter indices are strictly increasing and are exactly the listed transmitters. */
  lemma {:induction false} TransmitterIndicesOrdered(d: Dialect, s: Snapshot, k: int)
    requires WellFormed(s) && 0 <= k <= s.n
    ensures var js := TransmitterIndices(d, s, k);
      && (forall a, b :: 0 <= a < b < |js| ==> js[a] < js[b])
      && (forall j :: 0 <= j < k ==> (j in js <==> ListedTransmitter(d, s, j)))
  {
    if k > 0 {
      TransmitterIndicesOrdered(d, s, k - 1);
    }
  }

  /**
   * The listed ids are those of the listed transmitters taken in increasing
   * sensor index (`TransmitterIndicesOrdered`), each sensor once.
   */
  lemma {:induction false} TransmittersInSensorOrder(d: Dialect, s: Snapshot, k: int)
    requires WellFormed(s) && 0 <= k <= s.n
    ensures var js := TransmitterIndices(d, s, k);
      && |Transmitters(d, s, k)| == |js|
      && (forall m :: 0 <= m < |js| ==> Transmitters(d, s, k)[m] == SensorId(d, s.connection[js[m]]))
  {
    if k > 0 {
      TransmittersInSensorOrder(d, s, k - 1);
      var js, ids := TransmitterIndices(d, s, k - 1), Transmitters(d, s, k - 1);
      if ListedTransmitter(d, s, k - 1) {
        assert TransmitterIndices(d, s, k) == js + [k - 1];
        assert Transmitters(d, s, k) == ids + [SensorId(d, s.connection[k - 1])];
      } else {
        assert TransmitterIndices(d, s, k) == js;
        assert Transmitters(d, s, k) == ids;
      }
    }
  }

  /** Distinct sensor indices print distinct ids, in both programs. */
  lemma SensorIdInjective(d: Dialect, x: int, y: int)
    requires 0 <= x < MaxSensors && 0 <= y < MaxSensors && x != y
    ensures SensorId(d, x) != SensorId(d, y)
  {
  }

  /**
   * With `sensor_connection` free of repeats among the connected sensors (as
   * `confSensors` and `Chirp::init` build it), no transmitter id is listed twice.
   */
  lemma TransmittersDistinct(d: Dialect, s: Snapshot, k: int)
    requires WellFormed(s) && 0 <= k <= s.n
    requires forall a, b :: 0 <= a < b < s.n ==> s.connection[a] != s.connection[b]
    ensures forall a, b :: 0 <= a < b < |Transmitters(d, s, k)| ==> Transmitters(d, s, k)[a] != Transmitters(d, s, k)[b]
  {
    TransmittersInSensorOrder(d, s, k);
    TransmitterIndicesOrdered(d, s, k);
    var js := TransmitterIndices(d, s, k);
    forall a, b | 0 <= a < b < |Transmitters(d, s, k)|
      ensures Transmitters(d, s, k)[a] != Transmitters(d, s, k)[b]
    {
      SensorIdInjective(d, s.connection[js[a]], s.connection[js[b]]);
    }
  }

  /**
   * The ids of sensor `dev`'s row: a TX_RX sensor is printed twice (it sends
   * and receives), an RX_ONLY sensor after every listed transmitter, and a
   * sensor in any other mode not at all.
   */
  function Ids(d: Dialect, s: Snapshot, dev: int): seq<int>
    requires WellFormed(s) && 0 <= dev < s.n
  {
    var own := SensorId(d, s.connection[dev]);
    if s.modes[dev] == TxRxMode then [own, own]
    else if s.modes[dev] == RxOnlyMode then Transmitters(d, s, s.n) + [own]
    else []
  }

  /** The samples a row carries: the sensor's, for a sensor at index below 3. */
  function LoggedSamples(samples: seq<int>, connection: int): seq<int> {
    if connection < DevNumBoundary then samples else []
  }

  function Row(d: Dialect, s: Snapshot, dev: int): LogRow
    requires WellFormed(s) && 0 <= dev < s.n
  {
    var dist := s.distance[dev];
    LogRow(
      s.timestamp,
      Ids(d, s, dev),
      dist / 10,
      s.amplitude[dev],
      if dist == 0xFFFF || dist == 0 then 0 else 1,
      LoggedSamples(s.iRows[dev], s.connection[dev]),
      LoggedSamples(s.qRows[dev], s.connection[dev]))
  }

  /** The rows written for sensors `from..n`, stopping at the first idle one. */
  function Rows(d: Dialect, s: Snapshot, from: int): seq<LogRow>
    requires WellFormed(s) && 0 <= from <= s.n
    decreases s.n - from
  {
    if from == s.n || s.modes[from] == 0 then [] else [Row(d, s, from)] + Rows(d, s, from + 1)
  }

  /** The first idle sensor at or after `from`, or `n` if there is none. */
  function FirstIdle(s: Snapshot, from: int): (r: int)
    requires WellFormed(s) && 0 <= from <= s.n
    ensures from <= r <= s.n
    ensures forall k :: from <= k < r ==> s.modes[k] != 0
    ensures r < s.n ==> s.modes[r] == 0
    decreases s.n - from
  {
    if from == s.n || s.modes[from] == 0 then from else FirstIdle(s, from + 1)
  }

  /**
   * The log gets exactly one row per sensor before the first idle one; the
   * idle sensor and every sensor after it get none.
   */
  lemma {:induction false} RowsStopAtFirstIdle(d: Dialect, s: Snapshot, from: int)
    requires WellFormed(s) && 0 <= from <= s.n
    ensures |Rows(d, s, from)| == FirstIdle(s, from) - from
    decreases s.n - from
  {
    if from < s.n && s.modes[from] != 0 {
      RowsStopAtFirstIdle(d, s, from + 1);
    }
  }

  /** The rows are in sensor order: the `k`-th row written is sensor `from + k`'s. */
  lemma {:induction false} RowsInSensorOrder(d: Dialect, s: Snapshot, from: int, k: int)
    requires WellFormed(s) && 0 <= from <= s.n && 0 <= k < |Rows(d, s, from)|
    ensures from + k < s.n && Rows(d, s, from)[k] == Row(d, s, from + k)
    decreases s.n - from
  {
    assert from < s.n && s.modes[from] != 0;
    var rest := Rows(d, s, from + 1);
    assert Rows(d, s, from) == [Row(d, s, from)] + rest;
    if k > 0 {
      RowsInSensorOrder(d, s, from + 1, k - 1);
    }
  }

  /**
   * The columns of the row logged for sensor `k`: range is distance / 10, the
   * target flag is 0 exactly for the no-target distances 0 and 0xFFFF, the
   * samples are logged only for sensors at index below 3, and the ids follow
   * the sensor's mode.
   */
  lemma LoggedRow(d: Dialect, s: Snapshot, k: int)
    requires WellFormed(s) && 0 <= k < |Rows(d, s, 0)|
    ensures k < s.n && s.modes[k] != 0
    ensures Rows(d, s, 0)[k].timestamp == s.timestamp
    ensures Rows(d, s, 0)[k].range * 10 <= s.distance[k] < Rows(d, s, 0)[k].range * 10 + 10
    ensures Rows(d, s, 0)[k].amplitude == s.amplitude[k]
    ensures Rows(d, s, 0)[k].targetDetected == 0 <==> s.distance[k] == 0 || s.distance[k] == 0xFFFF
    ensures Rows(d, s, 0)[k].targetDetected == 1 <==> s.distance[k] != 0 && s.distance[k] != 0xFFFF
    ensures s.connection[k] < DevNumBoundary ==>
      Rows(d, s, 0)[k].iSamples == s.iRows[k] && Rows(d, s, 0)[k].qSamples == s.qRows[k]
    ensures s.connection[k] >= DevNumBoundary ==>
      Rows(d, s, 0)[k].iSamples == [] && Rows(d, s, 0)[k].qSamples == []
  {
    RowsInSensorOrder(d, s, 0, k);
    RowsStopAtFirstIdle(d, s, 0);
  }

  /**
   * The ids of the row logged for sensor `k`: a TX_RX sensor's own id twice;
   * for an RX_ONLY sensor, its own id last, preceded by `Transmitters` (the
   * ids of the TX_RX sensors below the transmitter bound, in sensor order,
   * see `TransmittersInSensorOrder`); nothing for other modes.
   */
  lemma LoggedIds(d: Dialect, s: Snapshot, k: int)
    requires WellFormed(s) && 0 <= k < |Rows(d, s, 0)|
    ensures k < s.n
    ensures var ids := Rows(d, s, 0)[k].ids;
      && (s.modes[k] == TxRxMode ==> ids == [SensorId(d, s.connection[k]), SensorId(d, s.connection[k])])
      && (s.modes[k] == RxOnlyMode ==>
            && |ids| >= 1 && ids[|ids| - 1] == SensorId(d, s.connection[k])
            && ids[..|ids| - 1] == Transmitters(d, s, s.n)
            && (forall m :: 0 <= m < |ids| - 1 ==>
                  exists j :: 0 <= j < s.n && ListedTransmitter(d, s, j) && SensorId(d, s.connection[j]) == ids[m])
            && (forall j :: 0 <= j < s.n && ListedTransmitter(d, s, j) ==>
                  SensorId(d, s.connection[j]) in ids[..|ids| - 1]))
      && (s.modes[k] != TxRxMode && s.modes[k] != RxOnlyMode ==> ids == [])
  {
    RowsInSensorOrder(d, s, 0, k);
    var ids := Rows(d, s, 0)[k].ids;
    assert ids == Ids(d, s, k);
    if s.modes[k] == RxOnlyMode {
      var ts := Transmitters(d, s, s.n);
      assert ids == ts + [SensorId(d, s.connection[k])];
      assert ids[..|ids| - 1] == ts;
      forall m | 0 <= m < |ids| - 1
        ensures exists j :: 0 <= j < s.n && ListedTransmitter(d, s, j) && SensorId(d, s.connection[j]) == ids[m]
      {
        var j := TransmitterListed(d, s, s.n, m);
        assert ids[m] == ts[m];
        assert 0 <= j < s.n && ListedTransmitter(d, s, j) && SensorId(d, s.connection[j]) == ids[m];
      }
      assert forall m :: 0 <= m < |Rows(d, s, 0)[k].ids| - 1 ==>
        exists j :: 0 <= j < s.n && ListedTransmitter(d, s, j) && SensorId(d, s.connection[j]) == Rows(d, s, 0)[k].ids[m];
      forall j | 0 <= j < s.n && ListedTransmitter(d, s, j)
        ensures SensorId(d, s.connection[j]) in ids[..|ids| - 1]
      {
        ListedTransmitterIsListed(d, s, s.n, j);
      }
    }
  }
}
