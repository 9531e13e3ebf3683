/**
 * `MockWebSocket`, the self-contained mock socket of the single-package
 * version: the socket and its fake producer in one object, with a connect
 * timer, a stream timer that delivers at most 30 chunks and then
 * `STREAM_END`, and a delayed close.  Its connect step sets OPEN whatever
 * the state, so a close begun before the connection opens is undone.
 */
module MockSocket {
  import opened Types
  import opened Timers
  import opened SharedEmitter
  import opened Streaming

  /** `maxMessages` of `_startMockStream`. */
  const MAX_MESSAGES: nat := 30
  /** The error `send` reports when the socket is not OPEN. */
  const SEND_NOT_OPEN: string := "연결이, 닫혀있는 상태에서 메시지를 보낼 수 없습니다"
  /** The reason of the close event the delayed close delivers. */
  const NORMAL_CLOSE_REASON: string := "정상 종료"

  /** The callbacks the socket schedules. */
  datatype Task =
    | Connect
      /** `sendNextChunk`, with the `messagesSent` its closure has counted so far. */
    | StreamStep(sent: nat)
    | Teardown

  /** One firing of `sendNextChunk`, given whether the socket is OPEN at that moment. */
  function MockStep(sent: nat, open: bool, chunk: string): StepOutcome {
    if !open then StepOutcome([], None)
    else if sent >= MAX_MESSAGES then StepOutcome([STREAM_END], None)
    else StepOutcome([chunk], Some(sent + 1))
  }

  /** On an OPEN socket, a firing is a step of the counted stream of 30. */
  lemma LiveStepIsCounted(sent: nat, chunk: string)
    ensures MockStep(sent, true, chunk) == CountedStep(MAX_MESSAGES, sent, chunk)
  {
  }

  /** An uninterrupted stream: exactly 30 chunks, then one `STREAM_END`, then nothing. */
  lemma UninterruptedStream(chunks: seq<string>, fuel: nat)
    requires |chunks| >= MAX_MESSAGES && fuel > MAX_MESSAGES
    ensures Run(MAX_MESSAGES, 0, chunks, fuel) == chunks[..MAX_MESSAGES] + [STREAM_END]
  {
    RunCompletes(MAX_MESSAGES, 0, chunks, fuel);
  }

  /** The calls `_trigger` makes for `ev`: each registered listener first, then the `on<type>` property. */
  function Deliveries(handlers: Table<string, nat>, onHandlers: set<string>, ev: SocketEvent): (r: seq<Delivery>)
    ensures |r| == |ListenersOf(handlers, ev.Type())| + (if ev.Type() in onHandlers then 1 else 0)
    ensures ev.Type() in onHandlers ==> r[|r| - 1] == ToOnHandler(ev)
  {
    ListenerCalls(ListenersOf(handlers, ev.Type()), ev) + (if ev.Type() in onHandlers then [ToOnHandler(ev)] else [])
  }

  /** The four listener lists `_handlers` starts with. */
  const EMPTY_LISTS: Table<string, nat> := map["open" := [], "message" := [], "close" := [], "error" := []]

  /** With no listener added, `_trigger` reaches the application only through the `on<type>` property. */
  lemma OnlyOnHandlerIsCalled(onHandlers: set<string>, ev: SocketEvent)
    ensures Deliveries(EMPTY_LISTS, onHandlers, ev) == if ev.Type() in onHandlers then [ToOnHandler(ev)] else []
  {
    assert ListenersOf(EMPTY_LISTS, ev.Type()) == [];
  }

  /** The calls `deliver(x)` makes for each `x` of `xs`, one after the other. */
  function ConcatMap(deliver: string -> seq<Delivery>, xs: seq<string>): seq<Delivery> {
    if xs == [] then [] else deliver(xs[0]) + ConcatMap(deliver, xs[1..])
  }

  /** Delivering two runs one after the other makes the calls of each, in order. */
  lemma {:induction false} ConcatMapAppend(deliver: string -> seq<Delivery>, a: seq<string>, b: seq<string>)
    ensures ConcatMap(deliver, a + b) == ConcatMap(deliver, a) + ConcatMap(deliver, b)
  {
    if a == [] {
      assert a + b == b;
    } else {
      assert (a + b)[0] == a[0] && (a + b)[1..] == a[1..] + b;
      ConcatMapAppend(deliver, a[1..], b);
    }
  }

  /** `_trigger('message', …)` for one string. */
  function DeliverMessage(handlers: Table<string, nat>, onHandlers: set<string>): string -> seq<Delivery> {
    data => Deliveries(handlers, onHandlers, MessageEvent(data))
  }

  /** The calls that deliver the strings `sends` as message events, in order. */
  function MessageDeliveries(handlers: Table<string, nat>, onHandlers: set<string>, sends: seq<string>): seq<Delivery> {
    ConcatMap(DeliverMessage(handlers, onHandlers), sends)
  }

  /** Delivering one string makes exactly the calls of its message event. */
  lemma MessageDeliveriesOne(handlers: Table<string, nat>, onHandlers: set<string>, data: string)
    ensures MessageDeliveries(handlers, onHandlers, [data]) == Deliveries(handlers, onHandlers, MessageEvent(data))
  {
    var deliver := DeliverMessage(handlers, onHandlers);
    assert deliver(data) == Deliveries(handlers, onHandlers, MessageEvent(data));
    assert [data][1..] == [];
    assert ConcatMap(deliver, [data]) == deliver(data) + ConcatMap(deliver, []);
  }

  /** Delivering two runs of messages one after the other makes the calls of each, in order. */
  lemma MessageDeliveriesAppend(handlers: Table<string, nat>, onHandlers: set<string>, a: seq<string>, b: seq<string>)
    ensures MessageDeliveries(handlers, onHandlers, a + b) ==
            MessageDeliveries(handlers, onHandlers, a) + MessageDeliveries(handlers, onHandlers, b)
  {
    ConcatMapAppend(DeliverMessage(handlers, onHandlers), a, b);
  }

  /** Appending one more message's calls to a log of delivered messages extends the log of the longer run. */
  lemma DeliveriesAccumulate(log: seq<Delivery>, handlers: Table<string, nat>, onHandlers: set<string>,
                             shown: seq<string>, chunk: string)
    ensures (log + MessageDeliveries(handlers, onHandlers, shown)) + MessageDeliveries(handlers, onHandlers, [chunk])
         == log + MessageDeliveries(handlers, onHandlers, shown + [chunk])
  {
    MessageDeliveriesAppend(handlers, onHandlers, shown, [chunk]);
  }

  class MockWebSocket {
    const timers: Scheduler<Task>
    var readyState: ReadyState
    /** `_handlers`: listener ids by event type, in registration order. */
    var handlers: Table<string, nat>
    var streamTimeoutId: Option<nat>
    var connectTimeout: Option<nat>
    /** The event types whose `on<type>` property currently holds a function. */
    var onHandlers: set<string>
    /** Every call `_trigger` has made to the application, in order. */
    var calls: seq<Delivery>

    /** Every pending stream (connect) step is the one the stream (connect) handle names. */
    ghost predicate Valid()
      reads this, timers
    {
      && timers.Valid()
      && (forall id :: id in timers.pending && timers.pending[id].StreamStep? ==> streamTimeoutId == Some(id))
      && (forall id :: id in timers.pending && timers.pending[id].Connect? ==> connectTimeout == Some(id))
    }

    /** A new socket is CONNECTING, with its connect timer pending and four empty listener lists. */
    constructor ()
      ensures Valid() && fresh(timers)
      ensures readyState == Connecting && streamTimeoutId == None
      ensures connectTimeout.Some? && timers.pending == map[connectTimeout.value := Connect]
      ensures handlers == EMPTY_LISTS
      ensures onHandlers == {} && calls == []
    {
      readyState := Connecting;
      handlers := EMPTY_LISTS;
      streamTimeoutId := None;
      onHandlers := {};
      calls := [];
      timers := new Scheduler();
      new;
      var id := timers.SetTimeout(Connect);
      connectTimeout := Some(id);
    }

    /** `addEventListener`: appends the listener to its type's list (a listener may be added twice). */
    method AddEventListener(kind: string, handler: nat)
      modifies this
      ensures handlers == Add(old(handlers), kind, handler)
      ensures readyState == old(readyState) && onHandlers == old(onHandlers) && calls == old(calls)
      ensures streamTimeoutId == old(streamTimeoutId) && connectTimeout == old(connectTimeout)
    {
      handlers := Add(handlers, kind, handler);
    }

    /** The application assigns a function (or `null`) to `on<kind>`. */
    method SetOnHandler(kind: string, present: bool)
      modifies this
      ensures onHandlers == if present then old(onHandlers) + {kind} else old(onHandlers) - {kind}
      ensures readyState == old(readyState) && handlers == old(handlers) && calls == old(calls)
      ensures streamTimeoutId == old(streamTimeoutId) && connectTimeout == old(connectTimeout)
    {
      if present {
        onHandlers := onHandlers + {kind};
      } else {
        onHandlers := onHandlers - {kind};
      }
    }

    /** `_trigger`: every listener of the type's list, in order, then the `on<type>` property. */
    method Trigger(ev: SocketEvent)
      modifies this
      ensures calls == old(calls) + Deliveries(handlers, onHandlers, ev)
      ensures readyState == old(readyState) && handlers == old(handlers) && onHandlers == old(onHandlers)
      ensures streamTimeoutId == old(streamTimeoutId) && connectTimeout == old(connectTimeout)
    {
      var hs := ListenersOf(handlers, ev.Type());
      ghost var before := calls;
      for i := 0 to |hs|
        invariant |calls| == |before| + i && calls[..|before|] == before
        invariant forall j :: 0 <= j < i ==> calls[|before| + j] == ToListener(hs[j], ev)
        invariant readyState == old(readyState) && handlers == old(handlers) && onHandlers == old(onHandlers)
        invariant streamTimeoutId == old(streamTimeoutId) && connectTimeout == old(connectTimeout)
      {
        calls := calls + [ToListener(hs[i], ev)];
      }
      assert calls == before + ListenerCalls(hs, ev);
      if ev.Type() in onHandlers {
        calls := calls + [ToOnHandler(ev)];
      }
    }

    /**
     * `send`: when not OPEN only an error event is delivered (the socket is
     * not closed).  When OPEN, `START_STREAM` (re)starts the stream and
     * `STOP_STREAM` clears it; any other message has no effect.
     */
    method Send(message: string)
      requires Valid()
      modifies this, timers
      ensures Valid()
      ensures readyState == old(readyState) && handlers == old(handlers) && onHandlers == old(onHandlers)
      ensures connectTimeout == old(connectTimeout)
      ensures old(readyState) != Open ==>
        && calls == old(calls) + Deliveries(handlers, onHandlers, ErrorEvent(SEND_NOT_OPEN))
        && streamTimeoutId == old(streamTimeoutId) && timers.pending == old(timers.pending)
      ensures old(readyState) == Open ==> calls == old(calls)
      ensures old(readyState) == Open && message == START_STREAM ==>
        && streamTimeoutId == Some(old(timers.next))
        && timers.pending == ClearedOf(old(timers.pending), old(streamTimeoutId))[old(timers.next) := StreamStep(0)]
      ensures old(readyState) == Open && message == STOP_STREAM ==>
        && streamTimeoutId == None
        && timers.pending == ClearedOf(old(timers.pending), old(streamTimeoutId))
      ensures old(readyState) == Open && message != START_STREAM && message != STOP_STREAM ==>
        streamTimeoutId == old(streamTimeoutId) && timers.pending == old(timers.pending)
    {
      if readyState != Open {
        Trigger(ErrorEvent(SEND_NOT_OPEN));
        return;
      }
      if message == START_STREAM {
        StartMockStream();
      } else if message == STOP_STREAM {
        if streamTimeoutId.Some? {
          timers.ClearTimeout(streamTimeoutId.value);
          streamTimeoutId := None;
        }
      }
    }

    /** `_startMockStream`: clears a running stream timer and schedules the first step of a new one. */
    method StartMockStream()
      requires Valid()
      modifies this, timers
      ensures Valid()
      ensures streamTimeoutId == Some(old(timers.next))
      ensures timers.pending == ClearedOf(old(timers.pending), old(streamTimeoutId))[old(timers.next) := StreamStep(0)]
      ensures readyState == old(readyState) && handlers == old(handlers) && onHandlers == old(onHandlers)
      ensures calls == old(calls) && connectTimeout == old(connectTimeout)
    {
      if streamTimeoutId.Some? {
        timers.ClearTimeout(streamTimeoutId.value);
      }
      var id := timers.SetTimeout(StreamStep(0));
      streamTimeoutId := Some(id);
    }

    /** `close`: ignored from CLOSING on; otherwise CLOSING, with a teardown scheduled whose handle is not kept. */
    method Close()
      requires Valid()
      modifies this, timers
      ensures Valid()
      ensures old(readyState.Value()) >= Closing.Value() ==> unchanged(this) && timers.pending == old(timers.pending)
      ensures old(readyState.Value()) < Closing.Value() ==>
        && readyState == Closing
        && timers.pending == old(timers.pending)[old(timers.next) := Teardown]
      ensures handlers == old(handlers) && onHandlers == old(onHandlers) && calls == old(calls)
      ensures streamTimeoutId == old(streamTimeoutId) && connectTimeout == old(connectTimeout)
    {
      if readyState.Value() >= Closing.Value() {
        return;
      }
      readyState := Closing;
      var _ := timers.SetTimeout(Teardown);
    }

    /** The connect timer fires: OPEN whatever the state, and the open event; the handle is kept. */
    method FireConnect(id: nat)
      requires Valid() && id in timers.pending && timers.pending[id].Connect?
      modifies this, timers
      ensures Valid()
      ensures readyState == Open && calls == old(calls) + Deliveries(handlers, onHandlers, OpenEvent)
      ensures timers.pending == old(timers.pending) - {id} && timers.next == old(timers.next)
      ensures handlers == old(handlers) && onHandlers == old(onHandlers)
      ensures streamTimeoutId == old(streamTimeoutId) && connectTimeout == old(connectTimeout)
    {
      var _ := timers.Expire(id);
      readyState := Open;
      Trigger(OpenEvent);
    }

    /**
     * The stream timer fires: the outcome is `MockStep` of the count so far;
     * a step on a socket that is not OPEN does nothing at all (its handle
     * stays), the last step drops the handle, a chunk step reschedules.
     */
    method FireStream(id: nat, chunk: string)
      requires Valid() && id in timers.pending && timers.pending[id].StreamStep?
      modifies this, timers
      ensures Valid()
      ensures var o := MockStep(old(timers.pending[id]).sent, old(readyState) == Open, chunk);
        && calls == old(calls) + MessageDeliveries(handlers, onHandlers, o.sends)
        && (old(readyState) != Open ==> streamTimeoutId == old(streamTimeoutId) && timers.pending == old(timers.pending) - {id})
        && (old(readyState) == Open && o.next.None? ==> streamTimeoutId == None && timers.pending == old(timers.pending) - {id})
        && (o.next.Some? ==>
              && streamTimeoutId == Some(old(timers.next))
              && timers.pending == (old(timers.pending) - {id})[old(timers.next) := StreamStep(o.next.value)])
      ensures readyState == old(readyState) && handlers == old(handlers) && onHandlers == old(onHandlers)
      ensures connectTimeout == old(connectTimeout)
    {
      var task := timers.Expire(id);
      var messagesSent := task.sent;
      if readyState != Open {
        return;
      }
      if messagesSent >= MAX_MESSAGES {
        Trigger(MessageEvent(STREAM_END));
        MessageDeliveriesOne(handlers, onHandlers, STREAM_END);
        streamTimeoutId := None;
        return;
      }
      Trigger(MessageEvent(chunk));
      MessageDeliveriesOne(handlers, onHandlers, chunk);
      messagesSent := messagesSent + 1;
      var next := timers.SetTimeout(StreamStep(messagesSent));
      streamTimeoutId := Some(next);
    }

    /** The delayed close fires: CLOSED whatever the state, the close event, then both timers cleared and dropped. */
    method FireTeardown(id: nat)
      requires Valid() && id in timers.pending && timers.pending[id].Teardown?
      modifies this, timers
      ensures Valid()
      ensures readyState == Closed
      ensures calls == old(calls) + Deliveries(handlers, onHandlers, CloseEvent(NORMAL_CLOSURE, NORMAL_CLOSE_REASON))
      ensures streamTimeoutId == None && connectTimeout == None
      ensures timers.pending == ClearedOf(ClearedOf(old(timers.pending) - {id}, old(streamTimeoutId)), old(connectTimeout))
      ensures forall i :: i in timers.pending ==> timers.pending[i].Teardown?
      ensures handlers == old(handlers) && onHandlers == old(onHandlers)
    {
      var _ := timers.Expire(id);
      readyState := Closed;
      Trigger(CloseEvent(NORMAL_CLOSURE, NORMAL_CLOSE_REASON));
      if streamTimeoutId.Some? {
        timers.ClearTimeout(streamTimeoutId.value);
        streamTimeoutId := None;
      }
      if connectTimeout.Some? {
        timers.ClearTimeout(connectTimeout.value);
        connectTimeout := None;
      }
    }
  }

  /** Two pending stream timers of a valid socket are the same timer. */
  lemma AtMostOneStreamTimer(s: MockWebSocket, a: nat, b: nat)
    requires s.Valid()
    requires a in s.timers.pending && s.timers.pending[a].StreamStep?
    requires b in s.timers.pending && s.timers.pending[b].StreamStep?
    ensures a == b
  {
  }

  /** One firing of a running stream on an OPEN socket, `k` chunks in. */
  method FireLiveStream(s: MockWebSocket, k: nat, chunk: string)
    requires s.Valid() && s.readyState == Open
    requires s.streamTimeoutId.Some? && s.timers.pending == map[s.streamTimeoutId.value := StreamStep(k)]
    modifies s, s.timers
    ensures s.Valid() && s.readyState == Open
    ensures s.handlers == old(s.handlers) && s.onHandlers == old(s.onHandlers)
    ensures k < MAX_MESSAGES ==>
      && s.streamTimeoutId.Some? && s.timers.pending == map[s.streamTimeoutId.value := StreamStep(k + 1)]
      && s.calls == old(s.calls) + MessageDeliveries(s.handlers, s.onHandlers, [chunk])
    ensures k >= MAX_MESSAGES ==>
      && s.streamTimeoutId.None? && s.timers.pending == map[]
      && s.calls == old(s.calls) + MessageDeliveries(s.handlers, s.onHandlers, [STREAM_END])
  {
    s.FireStream(s.streamTimeoutId.value, chunk);
  }

  /**
   * A started stream on a socket that stays OPEN, fired until it stops
   * rescheduling itself, delivers exactly the first 30 chunks it is given
   * and then one `STREAM_END`, as message events.
   */
  method DeliverWholeStream(s: MockWebSocket, chunks: seq<string>)
    requires s.Valid() && s.readyState == Open && |chunks| >= MAX_MESSAGES
    requires s.streamTimeoutId.Some? && s.timers.pending == map[s.streamTimeoutId.value := StreamStep(0)]
    modifies s, s.timers
    ensures s.Valid() && s.readyState == Open && s.streamTimeoutId == None && s.timers.pending == map[]
    ensures s.calls == old(s.calls) + MessageDeliveries(s.handlers, s.onHandlers, chunks[..MAX_MESSAGES] + [STREAM_END])
    ensures s.handlers == old(s.handlers) && s.onHandlers == old(s.onHandlers)
  {
    ghost var h, on := s.handlers, s.onHandlers;
    ghost var shown: seq<string> := [];
    var k := 0;
    while s.streamTimeoutId.Some?
      invariant s.Valid() && s.readyState == Open && k <= MAX_MESSAGES
      invariant s.handlers == h && s.onHandlers == on
      invariant s.calls == old(s.calls) + MessageDeliveries(h, on, shown)
      invariant s.streamTimeoutId.Some? ==>
        s.timers.pending == map[s.streamTimeoutId.value := StreamStep(k)] && shown == chunks[..k]
      invariant s.streamTimeoutId.None? ==>
        s.timers.pending == map[] && shown == chunks[..MAX_MESSAGES] + [STREAM_END]
      decreases if s.streamTimeoutId.Some? then MAX_MESSAGES + 1 - k else 0
    {
      var chunk := if k < MAX_MESSAGES then chunks[k] else STREAM_END;
      ghost var before := s.calls;
      FireLiveStream(s, k, chunk);
      assert s.calls == before + MessageDeliveries(h, on, [chunk]);
      DeliveriesAccumulate(old(s.calls), h, on, shown, chunk);
      shown := shown + [chunk];
      if k < MAX_MESSAGES {
        assert shown == chunks[..k + 1];
        k := k + 1;
      }
    }
  }

  /**
   * A close requested before the connection opens is undone: the connect
   * timer still fires and the socket ends up OPEN, with the teardown still
   * pending.  An `onclose` property is set and nothing has been delivered.
   */
  method CloseBeforeOpenReopens() returns (s: MockWebSocket, teardown: nat)
    ensures fresh(s) && fresh(s.timers)
    ensures s.Valid() && s.readyState == Open
    ensures s.timers.pending == map[teardown := Teardown]
    ensures s.handlers == EMPTY_LISTS && s.onHandlers == {"close"} && s.calls == []
    ensures s.streamTimeoutId == None && s.connectTimeout.Some? && s.connectTimeout.value < s.timers.next
  {
    s := new MockWebSocket();
    s.SetOnHandler("close", true);
    OnlyOnHandlerIsCalled({"close"}, OpenEvent);
    assert "open" !in {"close"};
    var connect := s.connectTimeout.value;
    teardown := s.timers.next;
    assert connect < teardown;
    s.Close();
    assert s.readyState == Closing && s.timers.pending == map[connect := Connect, teardown := Teardown];
    s.FireConnect(connect);
    assert s.timers.pending == map[connect := Connect, teardown := Teardown] - {connect};
  }

  /**
   * Because the socket can go back to OPEN, it can be closed twice, and an
   * `onclose` property then receives two close events.
   */
  method CloseTwiceDeliversTwoCloseEvents() returns (s: MockWebSocket)
    ensures s.Valid() && s.readyState == Closed
    ensures var c := ToOnHandler(CloseEvent(NORMAL_CLOSURE, NORMAL_CLOSE_REASON));
      s.calls == [c, c]
  {
    var c := ToOnHandler(CloseEvent(NORMAL_CLOSURE, NORMAL_CLOSE_REASON));
    var first;
    s, first := CloseBeforeOpenReopens();
    OnlyOnHandlerIsCalled({"close"}, CloseEvent(NORMAL_CLOSURE, NORMAL_CLOSE_REASON));
    var second := s.timers.next;
    s.Close();
    assert s.readyState == Closing && s.timers.pending == map[first := Teardown, second := Teardown];
    s.FireTeardown(first);
    assert s.calls == [c] && second in s.timers.pending;
    s.FireTeardown(second);
  }
}
