/**
 * The per-connection handler of the real streaming server: a greeting on
 * connection, a 50-chunk stream started by `START_STREAM` and ended by
 * `STREAM_END`, and the stream timer cleared when the connection closes or
 * fails.  There is no stop command: every message but `START_STREAM` is
 * ignored.  The transport is a ready state plus the list of strings sent.
 */
module StreamServer {
  import opened Types
  import opened Timers
  import opened Streaming

  /** `maxMessagesToSend`. */
  const MAX_MESSAGES: nat := 50
  /** The string sent as soon as a client connects. */
  const GREETING: string := "웹소켓 서버에 연결되었습니다! \"메세지 받기\" 버튼을 누르면 랜덤 스트림을 시작합니다."

  /** `sendNextChunk`, with the `messagesSent` its closure has counted so far. */
  datatype Task = StreamStep(sent: nat)

  /**
   * One firing of `sendNextChunk`: the count is checked before the socket
   * state, so the sentinel is skipped (but the stream still ends) on a
   * socket that is no longer OPEN.
   */
  function RealStep(sent: nat, open: bool, chunk: string): StepOutcome {
    if sent >= MAX_MESSAGES then StepOutcome(if open then [STREAM_END] else [], None)
    else if !open then StepOutcome([], None)
    else StepOutcome([chunk], Some(sent + 1))
  }

  /** On an OPEN socket, a firing is a step of the counted stream of 50. */
  lemma LiveStepIsCounted(sent: nat, chunk: string)
    ensures RealStep(sent, true, chunk) == CountedStep(MAX_MESSAGES, sent, chunk)
  {
  }

  /** On a socket that is not OPEN, a firing sends nothing and ends the stream. */
  lemma DeadStepIsSilent(sent: nat, chunk: string)
    ensures RealStep(sent, false, chunk) == StepOutcome([], None)
  {
  }

  /** An uninterrupted stream: exactly 50 chunks, then one `STREAM_END`, then nothing. */
  lemma UninterruptedStream(chunks: seq<string>, fuel: nat)
    requires |chunks| >= MAX_MESSAGES && fuel > MAX_MESSAGES
    ensures Run(MAX_MESSAGES, 0, chunks, fuel) == chunks[..MAX_MESSAGES] + [STREAM_END]
  {
    RunCompletes(MAX_MESSAGES, 0, chunks, fuel);
  }

  /** One accepted connection (`ws` inside the `connection` handler). */
  class Connection {
    const timers: Scheduler<Task>
    /** The transport's ready state, which the network changes. */
    var readyState: ReadyState
    /** `ws.streamTimeoutId`. */
    var streamTimeoutId: Option<nat>
    /** Every string `ws.send` has been given, in order. */
    var sent: seq<string>

    /** Every pending stream step is the one the handle names: at most one stream runs. */
    ghost predicate Valid()
      reads this, timers
    {
      && timers.Valid()
      && (forall id :: id in timers.pending ==> streamTimeoutId == Some(id))
    }

    /** The `connection` handler: no stream timer yet, and the greeting is sent. */
    constructor ()
      ensures Valid() && fresh(timers) && timers.pending == map[]
      ensures readyState == Open && streamTimeoutId == None && sent == [GREETING]
    {
      timers := new Scheduler();
      readyState := Open;
      streamTimeoutId := None;
      sent := [GREETING];
    }

    /**
     * The `message` handler: `START_STREAM` clears and drops a running
     * stream and schedules the first step of a new one; anything else,
     * `STOP_STREAM` included, changes nothing.
     */
    method OnMessage(message: string)
      requires Valid()
      modifies this, timers
      ensures Valid()
      ensures message != START_STREAM ==> unchanged(this) && timers.pending == old(timers.pending)
      ensures message == START_STREAM ==>
        && streamTimeoutId == Some(old(timers.next))
        && timers.pending == ClearedOf(old(timers.pending), old(streamTimeoutId))[old(timers.next) := StreamStep(0)]
        && timers.pending.Keys == {old(timers.next)}
      ensures readyState == old(readyState) && sent == old(sent)
    {
      if message == START_STREAM {
        if streamTimeoutId.Some? {
          timers.ClearTimeout(streamTimeoutId.value);
          streamTimeoutId := None;
        }
        var id := timers.SetTimeout(StreamStep(0));
        streamTimeoutId := Some(id);
      }
    }

    /** The stream timer fires: the outcome is `RealStep` of the count so far and the socket state. */
    method FireStream(id: nat, chunk: string)
      requires Valid() && id in timers.pending
      modifies this, timers
      ensures Valid()
      ensures var o := RealStep(old(timers.pending[id]).sent, old(readyState) == Open, chunk);
        && sent == old(sent) + o.sends
        && (o.next.None? ==> streamTimeoutId == None && timers.pending == map[])
        && (o.next.Some? ==>
              && streamTimeoutId == Some(old(timers.next))
              && timers.pending == map[old(timers.next) := StreamStep(o.next.value)])
      ensures readyState == old(readyState)
    {
      var task := timers.Expire(id);
      var messagesSent := task.sent;
      if messagesSent >= MAX_MESSAGES {
        if readyState == Open {
          sent := sent + [STREAM_END];
        }
        streamTimeoutId := None;
        return;
      }
      if readyState != Open {
        if streamTimeoutId.Some? {
          timers.ClearTimeout(streamTimeoutId.value);
        }
        streamTimeoutId := None;
        return;
      }
      sent := sent + [chunk];
      messagesSent := messagesSent + 1;
      var next := timers.SetTimeout(StreamStep(messagesSent));
      streamTimeoutId := Some(next);
    }

    /** The `close` handler: a pending stream timer is cleared and dropped. */
    method OnClose()
      requires Valid()
      modifies this, timers
      ensures Valid()
      ensures streamTimeoutId == None && timers.pending == map[]
      ensures readyState == old(readyState) && sent == old(sent)
    {
      if streamTimeoutId.Some? {
        timers.ClearTimeout(streamTimeoutId.value);
        streamTimeoutId := None;
      }
    }

    /** The `error` handler: like `close`, a pending stream timer is cleared and dropped. */
    method OnError()
      requires Valid()
      modifies this, timers
      ensures Valid()
      ensures streamTimeoutId == None && timers.pending == map[]
      ensures readyState == old(readyState) && sent == old(sent)
    {
      if streamTimeoutId.Some? {
        timers.ClearTimeout(streamTimeoutId.value);
        streamTimeoutId := None;
      }
    }

    /** The network moves the socket to another ready state. */
    method SetReadyState(state: ReadyState)
      modifies this
      ensures readyState == state
      ensures streamTimeoutId == old(streamTimeoutId) && sent == old(sent)
    {
      readyState := state;
    }
  }

  /** Two pending stream timers of a valid connection are the same timer, the one its handle names. */
  lemma AtMostOneStreamTimer(c: Connection, a: nat, b: nat)
    requires c.Valid() && a in c.timers.pending && b in c.timers.pending
    ensures a == b && c.streamTimeoutId == Some(a)
  {
  }

  /**
   * A started stream on a connection that stays OPEN, fired until it stops
   * rescheduling itself, sends exactly the first 50 chunks it is given and
   * then one `STREAM_END`.
   */
  method DeliverWholeStream(c: Connection, chunks: seq<string>)
    requires c.Valid() && c.readyState == Open && |chunks| >= MAX_MESSAGES
    requires c.streamTimeoutId.Some? && c.timers.pending == map[c.streamTimeoutId.value := StreamStep(0)]
    modifies c, c.timers
    ensures c.Valid() && c.streamTimeoutId == None && c.timers.pending == map[]
    ensures c.sent == old(c.sent) + chunks[..MAX_MESSAGES] + [STREAM_END]
  {
    var k := 0;
    while c.streamTimeoutId.Some?
      invariant c.Valid() && c.readyState == Open && k <= MAX_MESSAGES
      invariant c.streamTimeoutId.Some? ==>
        c.timers.pending == map[c.streamTimeoutId.value := StreamStep(k)]
      invariant c.streamTimeoutId.Some? ==> c.sent == old(c.sent) + chunks[..k]
      invariant c.streamTimeoutId.None? ==>
        c.timers.pending == map[] && c.sent == old(c.sent) + chunks[..MAX_MESSAGES] + [STREAM_END]
      decreases if c.streamTimeoutId.Some? then MAX_MESSAGES + 1 - k else 0
    {
      var chunk := if k < MAX_MESSAGES then chunks[k] else "";
      c.FireStream(c.streamTimeoutId.value, chunk);
      if k < MAX_MESSAGES {
        assert chunks[..k + 1] == chunks[..k] + [chunks[k]];
        k := k + 1;
      }
    }
  }
}
