/**
 * The boundary to the InvenSense range-finder library, which is foreign code:
 * the library is a function parameter of type `Algorithm`, and this module
 * builds the configuration and input it is called with.
 */
module Rangefinder {
  import opened Layout

  /**
   * Configuration the range finder is initialised with. `get_lib_range`
   * starts from the library's defaults (not visible here) and overrides the
   * fields listed; `Chirp` sets all its fields once in `init_algo`.
   */
  datatype RangeConfig =
    | TxRxConfig(sensorFop: int)
    | PitchCatchConfig(sensorFop: int, preTriggerTime: int, interSensorDistanceMm: int)
    | ChirpConfig(ringdownIndex: int, maintainDistance: int, minScalingFactor: int,
                  maxScalingFactor: int, noiseAmplitude: int, sizeData: int, rangeToMm: int)

  /** InvnAlgoRangeFinderInput: `iq` holds I[k] at 2k and Q[k] at 2k + 1. */
  datatype RangeInput = RangeInput(time: int, iq: seq<int>, nbrSamples: int, tx: int, rx: int)

  datatype RangeOutput = RangeOutput(distanceToObject: int, magnitudeOfObject: int)

  /** `invn_algo_rangefinder_init` followed by `invn_algo_rangefinder_process`. */
  type Algorithm = (RangeConfig, RangeInput) -> RangeOutput

  /** The library's buffer convention: `iq[2k] = I[k]`, `iq[2k + 1] = Q[k]`. */
  function Interleave(iRow: seq<int>, qRow: seq<int>): (iq: seq<int>)
    requires |iRow| == |qRow|
    ensures |iq| == 2 * |iRow|
    ensures forall k :: 0 <= k < |iRow| ==> iq[2 * k] == iRow[k] && iq[2 * k + 1] == qRow[k]
  {
    if iRow == [] then [] else [iRow[0], qRow[0]] + Interleave(iRow[1..], qRow[1..])
  }

  /** The I samples back from an interleaved buffer. */
  function Evens(iq: seq<int>): (r: seq<int>)
    requires |iq| % 2 == 0
    ensures |r| == |iq| / 2
  {
    if iq == [] then [] else [iq[0]] + Evens(iq[2..])
  }

  /** The Q samples back from an interleaved buffer. */
  function Odds(iq: seq<int>): (r: seq<int>)
    requires |iq| % 2 == 0
    ensures |r| == |iq| / 2
  {
    if iq == [] then [] else [iq[1]] + Odds(iq[2..])
  }

  /** Interleaving loses nothing: both rows are recovered from the buffer. */
  lemma {:induction false} InterleaveSplits(iRow: seq<int>, qRow: seq<int>)
    requires |iRow| == |qRow|
    ensures Evens(Interleave(iRow, qRow)) == iRow && Odds(Interleave(iRow, qRow)) == qRow
  {
    if iRow != [] {
      InterleaveSplits(iRow[1..], qRow[1..]);
      assert Interleave(iRow, qRow)[2..] == Interleave(iRow[1..], qRow[1..]);
    }
  }

  /**
   * What `get_lib_range` hands the library for one sensor: a self-echo
   * (TX_RX) sensor is its own transmitter and receiver (Tx = Rx = 0); any
   * other mode is a pitch-catch set-up with Rx = 1, a pre-trigger time of 0
   * and 28 mm between sensors. Both use the sensor's operating frequency.
   */
  function LibRangeRequest(fop: int, sensorMode: int, iq: seq<int>, samples: int): (r: (RangeConfig, RangeInput))
    ensures r.1.iq == iq && r.1.nbrSamples == samples && r.1.time == 0 && r.1.tx == 0
    ensures sensorMode == TxRxMode <==> r.0.TxRxConfig?
    ensures !r.0.ChirpConfig? && r.0.sensorFop == fop
    ensures r.1.rx == if sensorMode == TxRxMode then 0 else 1
    ensures r.0.PitchCatchConfig? ==> r.0.preTriggerTime == 0 && r.0.interSensorDistanceMm == 28
  {
    if sensorMode == TxRxMode then
      (TxRxConfig(fop), RangeInput(0, iq, samples, 0, 0))
    else
      (PitchCatchConfig(fop, 0, 28), RangeInput(0, iq, samples, 0, 1))
  }

  /** The configuration `init_algo` sets up in the C++ program. */
  function ChirpInitConfig(samples: int): RangeConfig {
    ChirpConfig(19, 3, 137, 400, 500, samples, 770)
  }

  /**
   * The C++ program's `inputs`: `nbr_samples` and the buffer pointer are set
   * once by `init_algo`; time, Tx and Rx are never set and stay 0.
   */
  function ChirpRequest(iq: seq<int>, samples: int): RangeInput {
    RangeInput(0, iq, samples, 0, 0)
  }

  /** Samples `init_algo` is given in the C++ program, both as `sizeData` and `nbr_samples`. */
  const ChirpAlgoSamples: int := 255

  /**
   * How a program calls the library for one sensor: the C program builds a
   * fresh request from the sensor's frequency and mode (`get_lib_range`); the
   * C++ program reuses the configuration and input `init_algo` set up.
   */
  datatype Ranging = LibRange(opFreq: seq<int>) | ChirpInit

  predicate RangingOk(r: Ranging) {
    r.LibRange? ==> |r.opFreq| == MaxSensors
  }

  /**
   * The request for the sensor with mode `sensorMode` at index `connection`,
   * given the `iq_buffer` contents `iq` after its samples were copied in:
   * the library reads `2 * nbr_samples` entries of the buffer.
   */
  function Request(r: Ranging, sensorMode: int, connection: int, iq: seq<int>, sample: int): (req: (RangeConfig, RangeInput))
    requires RangingOk(r) && 0 <= connection < MaxSensors && |iq| == 2 * MaxSamples
    requires 0 <= sample <= MaxSamples
  {
    match r
    case LibRange(opFreq) => LibRangeRequest(opFreq[connection], sensorMode, iq[..2 * sample], sample)
    case ChirpInit => (ChirpInitConfig(ChirpAlgoSamples), ChirpRequest(iq[..2 * ChirpAlgoSamples], ChirpAlgoSamples))
  }

  /** The sensors the range algorithm is run for: a transmit or receive mode and index below 3. */
  predicate RunsRange(sensorMode: int, connection: int) {
    (sensorMode == RxOnlyMode || sensorMode == TxRxMode) && connection < DevNumBoundary
  }

  /** The cliff-detection link: transmitting and receiving sensor indices. */
  datatype CliffLink = Rejected | Link(tx: int, rx: int)

  /**
   * The mode gate and Tx/Rx choice of `get_cliff_detection`: a sensor not in
   * receive-only mode is refused (-EINVAL); otherwise the first two slots are
   * scanned and a receive-only slot sets Rx, any other sets Tx. `previous` is
   * the link the static `inputs` held from the call before, which a slot pair
   * that sets only one of the two leaves in place.
   */
  method CliffTxRx(sensorMode: int, modes: seq<int>, connection: seq<int>, previous: CliffLink)
    returns (r: CliffLink)
    requires |modes| == MaxSensors && |connection| == MaxSensors && previous.Link?
    ensures sensorMode != RxOnlyMode <==> r.Rejected?
    ensures r.Link? ==> r.rx == (if modes[1] == RxOnlyMode then connection[1]
                                 else if modes[0] == RxOnlyMode then connection[0]
                                 else previous.rx)
    ensures r.Link? ==> r.tx == (if modes[1] != RxOnlyMode then connection[1]
                                 else if modes[0] != RxOnlyMode then connection[0]
                                 else previous.tx)
  {
    if sensorMode != RxOnlyMode {
      return Rejected;
    }
    var tx, rx := previous.tx, previous.rx;
    for devNum := 0 to 2
      invariant devNum >= 1 ==> rx == (if modes[devNum - 1] == RxOnlyMode then connection[devNum - 1]
                                       else if devNum == 2 && modes[0] == RxOnlyMode then connection[0]
                                       else previous.rx)
      invariant devNum >= 1 ==> tx == (if modes[devNum - 1] != RxOnlyMode then connection[devNum - 1]
                                       else if devNum == 2 && modes[0] != RxOnlyMode then connection[0]
                                       else previous.tx)
      invariant devNum == 0 ==> tx == previous.tx && rx == previous.rx
    {
      if modes[devNum] == RxOnlyMode {
        rx := connection[devNum];
      } else {
        tx := connection[devNum];
      }
    }
    r := Link(tx, rx);
  }
}
