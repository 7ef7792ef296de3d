/**
 * The device file as the acquisition loops see it. `poll` and `read` are
 * system calls, so each wake-up of a loop is an input value: what `poll`
 * returned, whether it reported the device readable, and what `read`
 * returned with the bytes it delivered.
 */
module Poll {
  import opened Bytes

  datatype PollEvent = PollEvent(ready: int, readable: bool, bytes: int, data: seq<int>)

  /**
   * A `read` of at most `target` bytes: a negative count delivers nothing,
   * otherwise `data` holds the bytes delivered.
   */
  predicate ReadOk(ev: PollEvent, target: int) {
    && ev.bytes <= target
    && |ev.data| == (if ev.bytes > 0 then ev.bytes else 0)
    && AllBytes(ev.data)
  }

  predicate EventsOk(events: seq<PollEvent>, target: int) {
    forall k :: 0 <= k < |events| ==> ReadOk(events[k], target)
  }
}
