/**
 * What one firing of a producer's stream timer (`sendNextChunk`) does, and
 * the stream the three producers aim at: while the connection stays live,
 * `max` chunks and then the `STREAM_END` sentinel, after which the timer is
 * not rescheduled.
 */
module Streaming {
  import opened Types

  /** The strings one firing sends, and the count it reschedules itself with (`None`: the handle is dropped). */
  datatype StepOutcome = StepOutcome(sends: seq<string>, next: Option<nat>)

  /** A firing on a live connection, `sent` chunks into a stream of `max`. */
  function CountedStep(max: nat, sent: nat, chunk: string): StepOutcome {
    if sent >= max then StepOutcome([STREAM_END], None) else StepOutcome([chunk], Some(sent + 1))
  }

  /**
   * The strings sent by `fuel` consecutive firings of a live stream timer
   * from count `sent` on, with nothing in between; the firing that sends a
   * chunk sends the next element of `chunks` (the random generator's output).
   */
  function Run(max: nat, sent: nat, chunks: seq<string>, fuel: nat): seq<string>
    decreases fuel
  {
    if fuel == 0 then []
    else
      var o := CountedStep(max, sent, if chunks == [] then "" else chunks[0]);
      o.sends + if o.next.None? then [] else Run(max, o.next.value, if chunks == [] then [] else chunks[1..], fuel - 1)
  }

  /**
   * Completion law: a stream started at count `sent` and left alone sends
   * exactly the next `max - sent` chunks in order, then one sentinel, and
   * nothing after that however often the timer is fired again.
   */
  lemma {:induction false} RunCompletes(max: nat, sent: nat, chunks: seq<string>, fuel: nat)
    requires sent <= max && |chunks| >= max - sent && fuel > max - sent
    ensures Run(max, sent, chunks, fuel) == chunks[..max - sent] + [STREAM_END]
    decreases max - sent
  {
    if sent < max {
      RunCompletes(max, sent + 1, chunks[1..], fuel - 1);
      assert chunks[..max - sent] == [chunks[0]] + chunks[1..][..max - (sent + 1)];
    }
  }
}
