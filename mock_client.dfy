/**
 * The mock client socket of the mock version: a `WebSocket` look-alike that
 * talks to its producer only through the shared bus.  Its ready state moves
 * forward only, and it reaches CLOSED only when a `server-close` arrives.
 */
module MockClient {
  import opened Types
  import opened SharedEmitter

  /** The reason `close` uses by default. */
  const DEFAULT_CLOSE_REASON: string := "클라이언트 정상 종료"
  /** The error `send` reports when the socket is not OPEN. */
  const SEND_NOT_OPEN: string := "연결이 열려있지 않은 상태에서 메시지를 보낼 수 없습니다."

  /** The reason of the close an error forces. */
  function ErrorCloseReason(message: string): (r: string)
    ensures |r| == |"오류 발생: "| + |message| && r[|"오류 발생: "|..] == message
  {
    "오류 발생: " + message
  }

  /** The four listener lists `_handlers` starts with; nothing ever adds to them. */
  const EMPTY_HANDLERS: map<string, seq<nat>> :=
    map["open" := [], "message" := [], "close" := [], "error" := []]

  class WebSocket {
    const url: string
    const emitter: EventEmitter<Listener>
    /** `_handlers`: listener lists by event type. */
    const handlers: map<string, seq<nat>>
    var readyState: ReadyState
    /** The event types whose `on<type>` property currently holds a function. */
    var onHandlers: set<string>
    /** Every call `_trigger` has made to the application, in order. */
    var calls: seq<Delivery>

    /** The four bus subscriptions the constructor makes and `cleanup` undoes. */
    function Subscriptions(): seq<Subscription<EventName, Listener>> {
      [ Sub(ServerOpen, Listener(this, Handler.HandleServerOpen)),
        Sub(ServerMessage, Listener(this, Handler.HandleServerMessage)),
        Sub(ServerClose, Listener(this, Handler.HandleServerClose)),
        Sub(ServerError, Listener(this, Handler.HandleServerError)) ]
    }

    /** The listeners `_trigger` copies for an event type; a missing list counts as none. */
    function ListenersFor(kind: string): seq<nat>
      reads this
    {
      if kind in handlers then handlers[kind] else []
    }

    /** The calls `_trigger` makes for `ev`: the `on<type>` property first, then each listener. */
    function Deliveries(ev: SocketEvent): (r: seq<Delivery>)
      reads this
      ensures |r| == (if ev.Type() in onHandlers then 1 else 0) + |ListenersFor(ev.Type())|
      ensures ev.Type() in onHandlers ==> r[0] == ToOnHandler(ev)
      ensures forall d :: d in r ==> d.event == ev
    {
      (if ev.Type() in onHandlers then [ToOnHandler(ev)] else []) + ListenerCalls(ListenersFor(ev.Type()), ev)
    }

    /**
     * Subscribes the four handlers, asks the bus for a producer for the URL
     * and then for a connection; the socket starts CONNECTING.
     */
    constructor (url: string, emitter: EventEmitter<Listener>)
      modifies emitter
      ensures this.url == url && this.emitter == emitter && handlers == EMPTY_HANDLERS
      ensures readyState == Connecting && onHandlers == {} && calls == []
      ensures emitter.listeners == AddEach(old(emitter.listeners), Subscriptions())
      ensures emitter.log == old(emitter.log) +
        [BusEvent(CreateServerInstance, url, NoArgs), BusEvent(ServerInitiateConnection, url, NoArgs)]
    {
      this.url := url;
      this.emitter := emitter;
      handlers := EMPTY_HANDLERS;
      readyState := Connecting;
      onHandlers := {};
      calls := [];
      new;
      Subscribe();
      ghost var log0 := emitter.log;
      var create, connect := BusEvent(CreateServerInstance, url, NoArgs), BusEvent(ServerInitiateConnection, url, NoArgs);
      EmitQuiet(emitter, create);
      EmitQuiet(emitter, connect);
      assert emitter.log == (log0 + [create]) + [connect];
      assert (log0 + [create]) + [connect] == log0 + [create, connect];
    }

    /** The four `on` calls of the constructor, in the order of `Subscriptions`. */
    method Subscribe()
      modifies emitter
      ensures emitter.listeners == AddEach(old(emitter.listeners), Subscriptions())
      ensures emitter.log == old(emitter.log)
    {
      ghost var subs := Subscriptions();
      emitter.On(ServerOpen, Listener(this, Handler.HandleServerOpen));
      ghost var t1 := emitter.listeners;
      emitter.On(ServerMessage, Listener(this, Handler.HandleServerMessage));
      ghost var t2 := emitter.listeners;
      emitter.On(ServerClose, Listener(this, Handler.HandleServerClose));
      ghost var t3 := emitter.listeners;
      emitter.On(ServerError, Listener(this, Handler.HandleServerError));
      assert subs[1..][1..][1..][1..] == [];
      assert AddEach(t3, subs[1..][1..][1..]) == emitter.listeners;
      assert AddEach(t2, subs[1..][1..]) == emitter.listeners;
      assert AddEach(t1, subs[1..]) == emitter.listeners;
    }

    /** The application assigns a function (or `null`) to `on<kind>`. */
    method SetOnHandler(kind: string, present: bool)
      modifies this
      ensures onHandlers == if present then old(onHandlers) + {kind} else old(onHandlers) - {kind}
      ensures readyState == old(readyState) && calls == old(calls)
    {
      if present {
        onHandlers := onHandlers + {kind};
      } else {
        onHandlers := onHandlers - {kind};
      }
    }

    /** Listener of `server-open`: reacts only to its own URL. */
    method HandleServerOpen(eventUrl: string)
      modifies this
      ensures eventUrl != url ==> unchanged(this)
      ensures eventUrl == url && old(readyState) == Connecting ==>
        readyState == Open && calls == old(calls) + Deliveries(OpenEvent)
      ensures eventUrl == url && old(readyState) != Connecting ==> unchanged(this)
      ensures onHandlers == old(onHandlers) && NotBackward(old(readyState), readyState)
    {
      if eventUrl == url {
        ReceiveOpen();
      }
    }

    /** Listener of `server-message`: reacts only to its own URL. */
    method HandleServerMessage(eventUrl: string, data: string)
      modifies this
      ensures readyState == old(readyState) && onHandlers == old(onHandlers)
      ensures calls == old(calls) + (if eventUrl == url && readyState == Open then Deliveries(MessageEvent(data)) else [])
    {
      if eventUrl == url {
        ReceiveMessage(data);
      }
    }

    /** Listener of `server-close`: reacts only to its own URL. */
    method HandleServerClose(eventUrl: string, code: int, reason: string)
      modifies this, emitter
      ensures eventUrl != url || old(readyState) == Closed ==>
        && unchanged(this)
        && emitter.listeners == old(emitter.listeners) && emitter.log == old(emitter.log)
      ensures eventUrl == url && old(readyState) != Closed ==>
        && readyState == Closed
        && calls == old(calls) + Deliveries(CloseEvent(code, reason))
        && emitter.listeners == RemoveEach(old(emitter.listeners), Subscriptions())
        && emitter.log == old(emitter.log) + [BusEvent(DestroyServerInstance, url, NoArgs)]
      ensures onHandlers == old(onHandlers) && NotBackward(old(readyState), readyState)
    {
      if eventUrl == url {
        ReceiveClose(code, reason);
      }
    }

    /** Listener of `server-error`: reacts only to its own URL. */
    method HandleServerError(eventUrl: string, message: string)
      modifies this, emitter
      ensures eventUrl != url ==>
        && unchanged(this)
        && emitter.listeners == old(emitter.listeners) && emitter.log == old(emitter.log)
      ensures eventUrl == url ==>
        && calls == old(calls) + Deliveries(ErrorEvent(message))
        && emitter.listeners == old(emitter.listeners)
        && (old(readyState) in {Connecting, Open} ==>
              && readyState == Closing
              && emitter.log == old(emitter.log) +
                   [BusEvent(ClientClose, url, CloseInfo(ABNORMAL_CLOSURE, ErrorCloseReason(message)))])
        && (old(readyState) in {Closing, Closed} ==>
              readyState == old(readyState) && emitter.log == old(emitter.log))
      ensures onHandlers == old(onHandlers) && NotBackward(old(readyState), readyState)
    {
      if eventUrl == url {
        ReceiveError(message);
      }
    }

    /** `send`: a `client-message` when OPEN; otherwise an error, which then closes the socket abnormally. */
    method Send(message: string)
      modifies this, emitter
      ensures emitter.listeners == old(emitter.listeners) && onHandlers == old(onHandlers)
      ensures old(readyState) == Open ==>
        && readyState == Open && calls == old(calls)
        && emitter.log == old(emitter.log) + [BusEvent(ClientMessage, url, Text(message))]
      ensures old(readyState) != Open ==>
        && calls == old(calls) + Deliveries(ErrorEvent(SEND_NOT_OPEN))
        && (old(readyState) == Connecting ==>
              && readyState == Closing
              && emitter.log == old(emitter.log) +
                   [BusEvent(ClientClose, url, CloseInfo(ABNORMAL_CLOSURE, ErrorCloseReason(SEND_NOT_OPEN)))])
        && (old(readyState) in {Closing, Closed} ==>
              readyState == old(readyState) && emitter.log == old(emitter.log))
      ensures NotBackward(old(readyState), readyState)
    {
      if readyState != Open {
        ReceiveError(SEND_NOT_OPEN);
        return;
      }
      EmitQuiet(emitter, BusEvent(ClientMessage, url, Text(message)));
    }

    /**
     * `close`: ignored while CLOSING or CLOSED; otherwise the socket becomes
     * CLOSING and a `client-close` goes out.  CLOSED is left to `server-close`.
     */
    method Close(code: int := NORMAL_CLOSURE, reason: string := DEFAULT_CLOSE_REASON)
      modifies this, emitter
      ensures old(readyState) in {Closing, Closed} ==>
        unchanged(this) && emitter.log == old(emitter.log)
      ensures old(readyState) in {Connecting, Open} ==>
        && readyState == Closing
        && emitter.log == old(emitter.log) + [BusEvent(ClientClose, url, CloseInfo(code, reason))]
      ensures calls == old(calls) && onHandlers == old(onHandlers)
      ensures emitter.listeners == old(emitter.listeners)
      ensures NotBackward(old(readyState), readyState)
    {
      if readyState == Closing || readyState == Closed {
        return;
      }
      readyState := Closing;
      EmitQuiet(emitter, BusEvent(ClientClose, url, CloseInfo(code, reason)));
    }

    /** `_receiveOpen`: only a CONNECTING socket opens; in any other state the event is ignored. */
    method ReceiveOpen()
      modifies this
      ensures old(readyState) == Connecting ==> readyState == Open && calls == old(calls) + Deliveries(OpenEvent)
      ensures old(readyState) != Connecting ==> unchanged(this)
      ensures onHandlers == old(onHandlers) && NotBackward(old(readyState), readyState)
    {
      if readyState == Connecting {
        readyState := Open;
        Trigger(OpenEvent);
      }
    }

    /** `_receiveMessage`: delivered only while OPEN, dropped otherwise. */
    method ReceiveMessage(data: string)
      modifies this
      ensures readyState == old(readyState) && onHandlers == old(onHandlers)
      ensures calls == old(calls) + (if readyState == Open then Deliveries(MessageEvent(data)) else [])
    {
      if readyState == Open {
        Trigger(MessageEvent(data));
      }
    }

    /**
     * `_receiveClose`: the only way to CLOSED.  Delivers the close event,
     * unsubscribes from the bus and asks for the producer's destruction;
     * a second close is ignored.
     */
    method ReceiveClose(code: int, reason: string)
      modifies this, emitter
      ensures old(readyState) == Closed ==>
        && unchanged(this)
        && emitter.listeners == old(emitter.listeners) && emitter.log == old(emitter.log)
      ensures old(readyState) != Closed ==>
        && readyState == Closed
        && calls == old(calls) + Deliveries(CloseEvent(code, reason))
        && emitter.listeners == RemoveEach(old(emitter.listeners), Subscriptions())
        && emitter.log == old(emitter.log) + [BusEvent(DestroyServerInstance, url, NoArgs)]
      ensures onHandlers == old(onHandlers) && NotBackward(old(readyState), readyState)
    {
      if readyState != Closed {
        readyState := Closed;
        Trigger(CloseEvent(code, reason));
        Cleanup();
      }
    }

    /** `_receiveError`: the error is always delivered; a socket not yet closing is then closed with 1006. */
    method ReceiveError(message: string)
      modifies this, emitter
      ensures calls == old(calls) + Deliveries(ErrorEvent(message))
      ensures old(readyState) in {Connecting, Open} ==>
        && readyState == Closing
        && emitter.log == old(emitter.log) +
             [BusEvent(ClientClose, url, CloseInfo(ABNORMAL_CLOSURE, ErrorCloseReason(message)))]
      ensures old(readyState) in {Closing, Closed} ==>
        readyState == old(readyState) && emitter.log == old(emitter.log)
      ensures emitter.listeners == old(emitter.listeners) && onHandlers == old(onHandlers)
      ensures NotBackward(old(readyState), readyState)
    {
      Trigger(ErrorEvent(message));
      if readyState != Closed && readyState != Closing {
        Close(ABNORMAL_CLOSURE, ErrorCloseReason(message));
      }
    }

    /**
     * `_trigger`: calls the `on<type>` property when it holds a function, then
     * every listener of a copy of the list; a throwing call is isolated, so
     * every call is made.
     */
    method Trigger(ev: SocketEvent)
      modifies this
      ensures calls == old(calls) + Deliveries(ev)
      ensures readyState == old(readyState) && onHandlers == old(onHandlers)
    {
      var hs := ListenersFor(ev.Type());
      ghost var before, listenerPart := calls, ListenerCalls(hs, ev);
      ghost var onPart := if ev.Type() in onHandlers then [ToOnHandler(ev)] else [];
      if ev.Type() in onHandlers {
        calls := calls + [ToOnHandler(ev)];
      }
      assert calls == before + onPart;
      CallListeners(hs, ev);
      assert calls == (before + onPart) + listenerPart;
      assert (before + onPart) + listenerPart == before + (onPart + listenerPart);
      assert Deliveries(ev) == onPart + listenerPart;
    }

    /** The `forEach` of `_trigger` over its copy `hs` of the listener list. */
    method CallListeners(hs: seq<nat>, ev: SocketEvent)
      modifies this
      ensures calls == old(calls) + ListenerCalls(hs, ev)
      ensures readyState == old(readyState) && onHandlers == old(onHandlers)
    {
      ghost var before := calls;
      for i := 0 to |hs|
        invariant |calls| == |before| + i && calls[..|before|] == before
        invariant forall j :: 0 <= j < i ==> calls[|before| + j] == ToListener(hs[j], ev)
        invariant readyState == old(readyState) && onHandlers == old(onHandlers)
      {
        calls := calls + [ToListener(hs[i], ev)];
      }
    }

    /** `cleanup`: unsubscribes the four handlers and emits `destroy-server-instance`. */
    method Cleanup()
      modifies emitter
      ensures emitter.listeners == RemoveEach(old(emitter.listeners), Subscriptions())
      ensures emitter.log == old(emitter.log) + [BusEvent(DestroyServerInstance, url, NoArgs)]
    {
      ghost var subs := Subscriptions();
      ghost var t0 := emitter.listeners;
      emitter.Off(ServerOpen, Listener(this, Handler.HandleServerOpen));
      ghost var t1 := emitter.listeners;
      emitter.Off(ServerMessage, Listener(this, Handler.HandleServerMessage));
      ghost var t2 := emitter.listeners;
      emitter.Off(ServerClose, Listener(this, Handler.HandleServerClose));
      ghost var t3 := emitter.listeners;
      emitter.Off(ServerError, Listener(this, Handler.HandleServerError));
      assert subs[1..][1..][1..][1..] == [];
      assert RemoveEach(t3, subs[1..][1..][1..]) == emitter.listeners;
      assert RemoveEach(t2, subs[1..][1..]) == emitter.listeners;
      assert RemoveEach(t1, subs[1..]) == emitter.listeners;
      EmitQuiet(emitter, BusEvent(DestroyServerInstance, url, NoArgs));
    }
  }

  /** With `_handlers` as it starts, `_trigger` reaches the application only through `on<type>`. */
  lemma OnlyOnHandlerIsCalled(ws: WebSocket, ev: SocketEvent)
    requires ws.handlers == EMPTY_HANDLERS
    ensures ws.Deliveries(ev) == if ev.Type() in ws.onHandlers then [ToOnHandler(ev)] else []
  {
    assert ws.ListenersFor(ev.Type()) == [];
  }
}
