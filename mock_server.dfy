/**
 * The mock producer of the mock version (`ws` in the mock app's server
 * file): one server object per URL, created and destroyed by a registry
 * that listens on the bus, with a connect timer, a stream timer that sends
 * at most 30 chunks followed by `STREAM_END`, and a delayed teardown.
 */
module MockServer {
  import opened Types
  import opened Timers
  import opened SharedEmitter
  import opened Streaming

  /** `maxMessages` of `_startStream`. */
  const MAX_MESSAGES: nat := 30
  /** The reason `forceClose` uses by default. */
  const FORCE_CLOSE_REASON: string := "서버 강제 종료"

  /** The callbacks a server schedules. */
  datatype Task =
    | Connect
      /** `sendNextChunk`, with the `messagesSent` its closure has counted so far. */
    | StreamStep(sent: nat)
    | Teardown(code: int, reason: string, notifyClient: bool)

  /** One firing of `sendNextChunk`, given the flags at that moment. */
  function StreamStepOutcome(sent: nat, connected: bool, closing: bool, chunk: string): StepOutcome {
    if !connected || closing then StepOutcome([], None)
    else if sent >= MAX_MESSAGES then StepOutcome([STREAM_END], None)
    else StepOutcome([chunk], Some(sent + 1))
  }

  /** On a connected server that is not closing, a firing is a step of the counted stream of 30. */
  lemma LiveStepIsCounted(sent: nat, chunk: string)
    ensures StreamStepOutcome(sent, true, false, chunk) == CountedStep(MAX_MESSAGES, sent, chunk)
  {
  }

  /** On a server that is disconnected or closing, a firing sends nothing and drops the handle. */
  lemma DeadStepIsSilent(sent: nat, connected: bool, closing: bool, chunk: string)
    requires !connected || closing
    ensures StreamStepOutcome(sent, connected, closing, chunk) == StepOutcome([], None)
  {
  }

  /** An uninterrupted stream: exactly 30 chunks, then one `STREAM_END`, then nothing. */
  lemma UninterruptedStream(chunks: seq<string>, fuel: nat)
    requires |chunks| >= MAX_MESSAGES && fuel > MAX_MESSAGES
    ensures Run(MAX_MESSAGES, 0, chunks, fuel) == chunks[..MAX_MESSAGES] + [STREAM_END]
  {
    RunCompletes(MAX_MESSAGES, 0, chunks, fuel);
  }

  /** The emissions that carry `sends` to the client of `url`, in order. */
  function Messages(url: string, sends: seq<string>): (r: seq<BusEvent>)
    ensures |r| == |sends|
    ensures forall i :: 0 <= i < |sends| ==> r[i] == BusEvent(ServerMessage, url, Text(sends[i]))
  {
    if sends == [] then [] else [BusEvent(ServerMessage, url, Text(sends[0]))] + Messages(url, sends[1..])
  }

  /** The emissions of two runs of sends, one after the other, are those of the joined run. */
  lemma {:induction false} MessagesAppend(url: string, a: seq<string>, b: seq<string>)
    ensures Messages(url, a + b) == Messages(url, a) + Messages(url, b)
  {
    if a != [] {
      assert (a + b)[1..] == a[1..] + b;
      MessagesAppend(url, a[1..], b);
    }
  }

  /** A log that holds the emissions of `shown` holds those of `shown + [chunk]` after one more send. */
  lemma LogAccumulates(log0: seq<BusEvent>, url: string, shown: seq<string>, chunk: string)
    ensures (log0 + Messages(url, shown)) + Messages(url, [chunk]) == log0 + Messages(url, shown + [chunk])
  {
    MessagesAppend(url, shown, [chunk]);
  }

  class Server {
    const url: string
    const emitter: EventEmitter<Listener>
    const timers: Scheduler<Task>
    var isConnected: bool
    var isClosing: bool
    var streamTimeoutId: Option<nat>
    var connectTimeout: Option<nat>

    /**
     * Every pending stream step is the one `streamTimeoutId` names, and every
     * pending connect step the one `connectTimeout` names: at most one of each.
     */
    ghost predicate Valid()
      reads this, timers
    {
      && timers.Valid()
      && (forall id :: id in timers.pending && timers.pending[id].StreamStep? ==> streamTimeoutId == Some(id))
      && (forall id :: id in timers.pending && timers.pending[id].Connect? ==> connectTimeout == Some(id))
    }

    /** Connected and not closing: the condition every client-facing action checks. */
    predicate Accepting()
      reads this
    {
      isConnected && !isClosing
    }

    /** The three bus subscriptions the constructor makes and `cleanupInternal` undoes. */
    function Subscriptions(): seq<Subscription<EventName, Listener>> {
      [ Sub(ClientMessage, Listener(this, Handler.HandleClientMessage)),
        Sub(ClientClose, Listener(this, Handler.HandleClientCloseEvent)),
        Sub(ServerInitiateConnection, Listener(this, Handler.HandleConnectionRequest)) ]
    }

    constructor (url: string, emitter: EventEmitter<Listener>)
      modifies emitter
      ensures this.url == url && this.emitter == emitter && fresh(timers)
      ensures Valid() && timers.pending == map[]
      ensures !isConnected && !isClosing && streamTimeoutId == None && connectTimeout == None
      ensures emitter.listeners == AddEach(old(emitter.listeners), Subscriptions())
      ensures emitter.log == old(emitter.log)
    {
      this.url := url;
      this.emitter := emitter;
      timers := new Scheduler();
      isConnected, isClosing := false, false;
      streamTimeoutId, connectTimeout := None, None;
      new;
      ghost var subs := Subscriptions();
      ghost var t0 := emitter.listeners;
      emitter.On(ClientMessage, Listener(this, Handler.HandleClientMessage));
      ghost var t1 := emitter.listeners;
      emitter.On(ClientClose, Listener(this, Handler.HandleClientCloseEvent));
      ghost var t2 := emitter.listeners;
      emitter.On(ServerInitiateConnection, Listener(this, Handler.HandleConnectionRequest));
      assert subs[1..][1..][1..] == [];
      assert AddEach(t2, subs[1..][1..]) == emitter.listeners;
      assert AddEach(t1, subs[1..]) == emitter.listeners;
      assert AddEach(t0, subs) == AddEach(Add(t0, subs[0].name, subs[0].listener), subs[1..]);
    }

    /** Listener of `server-initiate-connection`: only this server's URL starts `connection`. */
    method HandleConnectionRequest(eventUrl: string)
      requires Valid()
      modifies this, timers
      ensures Valid()
      ensures eventUrl != url ==> unchanged(this) && timers.pending == old(timers.pending)
      ensures eventUrl == url ==>
        && connectTimeout == Some(old(timers.next))
        && timers.pending == ClearedOf(old(timers.pending), old(connectTimeout))[old(timers.next) := Connect]
      ensures isConnected == old(isConnected) && isClosing == old(isClosing)
      ensures streamTimeoutId == old(streamTimeoutId)
    {
      if eventUrl == url {
        Connection();
      }
    }

    /** `connection`: replaces any pending connect timer by a new one. */
    method Connection()
      requires Valid()
      modifies this, timers
      ensures Valid()
      ensures connectTimeout == Some(old(timers.next))
      ensures timers.pending == ClearedOf(old(timers.pending), old(connectTimeout))[old(timers.next) := Connect]
      ensures isConnected == old(isConnected) && isClosing == old(isClosing)
      ensures streamTimeoutId == old(streamTimeoutId)
    {
      if connectTimeout.Some? {
        timers.ClearTimeout(connectTimeout.value);
      }
      var id := timers.SetTimeout(Connect);
      connectTimeout := Some(id);
    }

    /**
     * The connect timer fires: nothing happens if a close has begun (and the
     * handle keeps naming the fired timer); otherwise the server is connected
     * and `server-open` is emitted.
     */
    method FireConnect(id: nat)
      requires Valid() && id in timers.pending && timers.pending[id].Connect?
      modifies this, timers, emitter
      ensures Valid()
      ensures timers.pending == old(timers.pending) - {id}
      ensures old(isClosing) ==>
        && isConnected == old(isConnected) && connectTimeout == old(connectTimeout)
        && emitter.log == old(emitter.log)
      ensures !old(isClosing) ==>
        && isConnected && connectTimeout == None
        && emitter.log == old(emitter.log) + [BusEvent(ServerOpen, url, NoArgs)]
      ensures isClosing == old(isClosing) && streamTimeoutId == old(streamTimeoutId)
      ensures emitter.listeners == old(emitter.listeners)
    {
      var _ := timers.Expire(id);
      if isClosing {
        return;
      }
      isConnected := true;
      connectTimeout := None;
      EmitQuiet(emitter, BusEvent(ServerOpen, url, NoArgs));
    }

    /** Listener of `client-message`: acts only for this URL while accepting. */
    method HandleClientMessage(eventUrl: string, message: string)
      requires Valid()
      modifies this, timers
      ensures Valid()
      ensures isConnected == old(isConnected) && isClosing == old(isClosing)
      ensures connectTimeout == old(connectTimeout)
      ensures eventUrl != url || !old(Accepting()) || (message != START_STREAM && message != STOP_STREAM) ==>
        unchanged(this) && timers.pending == old(timers.pending)
      ensures eventUrl == url && old(Accepting()) && message == START_STREAM ==>
        && streamTimeoutId == Some(old(timers.next))
        && timers.pending == ClearedOf(old(timers.pending), old(streamTimeoutId))[old(timers.next) := StreamStep(0)]
      ensures eventUrl == url && old(Accepting()) && message == STOP_STREAM ==>
        && streamTimeoutId == None
        && timers.pending == ClearedOf(old(timers.pending), old(streamTimeoutId))
    {
      if eventUrl != url {
        return;
      }
      if !isConnected || isClosing {
        return;
      }
      if message == START_STREAM {
        StartStream();
      } else if message == STOP_STREAM {
        StopStream();
      }
    }

    /** Listener of `client-close`: a client-initiated close does not notify the client back. */
    method HandleClientCloseEvent(eventUrl: string, code: int, reason: string)
      requires Valid()
      modifies this, timers
      ensures Valid()
      ensures eventUrl != url || !old(Accepting()) ==> unchanged(this) && timers.pending == old(timers.pending)
      ensures eventUrl == url && old(Accepting()) ==>
        && isConnected && isClosing && streamTimeoutId == None && connectTimeout == None
        && timers.pending ==
             ClearedOf(ClearedOf(old(timers.pending), old(streamTimeoutId)), old(connectTimeout))
               [old(timers.next) := Teardown(code, reason, false)]
    {
      if eventUrl != url {
        return;
      }
      if !isConnected || isClosing {
        return;
      }
      InitiateServerClose(code, reason, false);
    }

    /** `_sendMessageToClient`: a `server-message` only while accepting. */
    method SendMessageToClient(data: string)
      modifies emitter
      ensures Accepting() ==> emitter.log == old(emitter.log) + [BusEvent(ServerMessage, url, Text(data))]
      ensures !Accepting() ==> emitter.log == old(emitter.log)
      ensures emitter.listeners == old(emitter.listeners)
    {
      if !isConnected || isClosing {
        return;
      }
      EmitQuiet(emitter, BusEvent(ServerMessage, url, Text(data)));
    }

    /**
     * `_initiateServerClose`: ignored unless accepting; otherwise marks the
     * server closing, stops the stream, clears and drops the connect timer,
     * and only then schedules the teardown (whose handle is not kept).
     */
    method InitiateServerClose(code: int, reason: string, notifyClient: bool)
      requires Valid()
      modifies this, timers
      ensures Valid()
      ensures !old(Accepting()) ==> unchanged(this) && timers.pending == old(timers.pending)
      ensures old(Accepting()) ==>
        && isConnected && isClosing && streamTimeoutId == None && connectTimeout == None
        && timers.pending ==
             ClearedOf(ClearedOf(old(timers.pending), old(streamTimeoutId)), old(connectTimeout))
               [old(timers.next) := Teardown(code, reason, notifyClient)]
    {
      if !isConnected || isClosing {
        return;
      }
      isClosing := true;
      StopStream();
      if connectTimeout.Some? {
        timers.ClearTimeout(connectTimeout.value);
        connectTimeout := None;
      }
      var _ := timers.SetTimeout(Teardown(code, reason, notifyClient));
    }

    /**
     * The teardown fires: both flags reset, `server-close` emitted only when
     * the close was meant to notify the client, then `cleanupInternal`.
     */
    method FireTeardown(id: nat)
      requires Valid() && id in timers.pending && timers.pending[id].Teardown?
      modifies this, timers, emitter
      ensures Valid()
      ensures !isConnected && !isClosing && streamTimeoutId == None
      ensures connectTimeout == old(connectTimeout)
      ensures timers.pending ==
        ClearedOf(ClearedOf(old(timers.pending) - {id}, old(connectTimeout)), old(streamTimeoutId))
      ensures var t := old(timers.pending[id]);
        emitter.log == old(emitter.log) +
          (if t.notifyClient then [BusEvent(ServerClose, url, CloseInfo(t.code, t.reason))] else [])
      ensures emitter.listeners == RemoveEach(old(emitter.listeners), Subscriptions())
    {
      var task := timers.Expire(id);
      isConnected := false;
      isClosing := false;
      if task.notifyClient {
        EmitQuiet(emitter, BusEvent(ServerClose, url, CloseInfo(task.code, task.reason)));
      }
      CleanupInternal();
    }

    /** `_startStream`: stops any running stream first, so one stream timer at most is ever pending. */
    method StartStream()
      requires Valid()
      modifies this, timers
      ensures Valid()
      ensures streamTimeoutId == Some(old(timers.next))
      ensures timers.pending == ClearedOf(old(timers.pending), old(streamTimeoutId))[old(timers.next) := StreamStep(0)]
      ensures isConnected == old(isConnected) && isClosing == old(isClosing)
      ensures connectTimeout == old(connectTimeout)
    {
      StopStream();
      var id := timers.SetTimeout(StreamStep(0));
      streamTimeoutId := Some(id);
    }

    /**
     * The stream timer fires: the outcome is `StreamStepOutcome` of the
     * count so far and the flags; a chunk step reschedules itself with the
     * count one higher, any other step drops the handle.
     */
    method FireStream(id: nat, chunk: string)
      requires Valid() && id in timers.pending && timers.pending[id].StreamStep?
      modifies this, timers, emitter
      ensures Valid()
      ensures var o := StreamStepOutcome(old(timers.pending[id]).sent, old(isConnected), old(isClosing), chunk);
        && emitter.log == old(emitter.log) + Messages(url, o.sends)
        && (o.next.None? ==> streamTimeoutId == None && timers.pending == old(timers.pending) - {id})
        && (o.next.Some? ==>
              && streamTimeoutId == Some(old(timers.next))
              && timers.pending == (old(timers.pending) - {id})[old(timers.next) := StreamStep(o.next.value)])
      ensures isConnected == old(isConnected) && isClosing == old(isClosing)
      ensures connectTimeout == old(connectTimeout)
      ensures emitter.listeners == old(emitter.listeners)
    {
      var task := timers.Expire(id);
      var messagesSent := task.sent;
      if !isConnected || isClosing {
        streamTimeoutId := None;
        return;
      }
      if messagesSent >= MAX_MESSAGES {
        SendMessageToClient(STREAM_END);
        streamTimeoutId := None;
        return;
      }
      SendMessageToClient(chunk);
      messagesSent := messagesSent + 1;
      var next := timers.SetTimeout(StreamStep(messagesSent));
      streamTimeoutId := Some(next);
    }

    /** `_stopStream`: clears and drops a pending stream timer; sends nothing, no sentinel either. */
    method StopStream()
      requires Valid()
      modifies this, timers
      ensures Valid()
      ensures streamTimeoutId == None
      ensures timers.pending == ClearedOf(old(timers.pending), old(streamTimeoutId)) && timers.next == old(timers.next)
      ensures forall i :: i in timers.pending ==> !timers.pending[i].StreamStep?
      ensures isConnected == old(isConnected) && isClosing == old(isClosing)
      ensures connectTimeout == old(connectTimeout)
    {
      if streamTimeoutId.Some? {
        timers.ClearTimeout(streamTimeoutId.value);
        streamTimeoutId := None;
      }
    }

    /** `forceClose`: a server-initiated close that notifies the client. */
    method ForceClose(code: int := ABNORMAL_CLOSURE, reason: string := FORCE_CLOSE_REASON)
      requires Valid()
      modifies this, timers
      ensures Valid()
      ensures !old(Accepting()) ==> unchanged(this) && timers.pending == old(timers.pending)
      ensures old(Accepting()) ==>
        && isClosing && streamTimeoutId == None && connectTimeout == None
        && timers.pending ==
             ClearedOf(ClearedOf(old(timers.pending), old(streamTimeoutId)), old(connectTimeout))
               [old(timers.next) := Teardown(code, reason, true)]
    {
      InitiateServerClose(code, reason, true);
    }

    /**
     * `cleanupInternal`: clears the connect timer without dropping its handle,
     * stops the stream and unsubscribes the three listeners.  A pending
     * teardown is not cleared: its handle was never kept.
     */
    method CleanupInternal()
      requires Valid()
      modifies this, timers, emitter
      ensures Valid()
      ensures streamTimeoutId == None && connectTimeout == old(connectTimeout)
      ensures isConnected == old(isConnected) && isClosing == old(isClosing)
      ensures timers.pending == ClearedOf(ClearedOf(old(timers.pending), old(connectTimeout)), old(streamTimeoutId))
      ensures forall i :: i in timers.pending ==> timers.pending[i].Teardown?
      ensures emitter.listeners == RemoveEach(old(emitter.listeners), Subscriptions())
      ensures emitter.log == old(emitter.log)
    {
      if connectTimeout.Some? {
        timers.ClearTimeout(connectTimeout.value);
      }
      StopStream();
      ghost var subs := Subscriptions();
      ghost var t0 := emitter.listeners;
      emitter.Off(ClientMessage, Listener(this, Handler.HandleClientMessage));
      ghost var t1 := emitter.listeners;
      emitter.Off(ClientClose, Listener(this, Handler.HandleClientCloseEvent));
      ghost var t2 := emitter.listeners;
      emitter.Off(ServerInitiateConnection, Listener(this, Handler.HandleConnectionRequest));
      assert subs[1..][1..][1..] == [];
      assert RemoveEach(t2, subs[1..][1..]) == emitter.listeners;
      assert RemoveEach(t1, subs[1..]) == emitter.listeners;
      assert RemoveEach(t0, subs) == RemoveEach(Remove(t0, subs[0].name, subs[0].listener), subs[1..]);
    }
  }

  /** Two pending stream timers of a valid server are the same timer. */
  lemma AtMostOneStreamTimer(s: Server, a: nat, b: nat)
    requires s.Valid()
    requires a in s.timers.pending && s.timers.pending[a].StreamStep?
    requires b in s.timers.pending && s.timers.pending[b].StreamStep?
    ensures a == b
  {
  }

  /** One firing of a running stream on a connected server that is not closing, `k` chunks in. */
  method FireLiveStream(s: Server, k: nat, chunk: string)
    requires s.Valid() && s.Accepting()
    requires s.streamTimeoutId.Some? && s.timers.pending == map[s.streamTimeoutId.value := StreamStep(k)]
    modifies s, s.timers, s.emitter
    ensures s.Valid() && s.Accepting() && s.emitter.listeners == old(s.emitter.listeners)
    ensures k < MAX_MESSAGES ==>
      && s.streamTimeoutId.Some? && s.timers.pending == map[s.streamTimeoutId.value := StreamStep(k + 1)]
      && s.emitter.log == old(s.emitter.log) + Messages(s.url, [chunk])
    ensures k >= MAX_MESSAGES ==>
      && s.streamTimeoutId.None? && s.timers.pending == map[]
      && s.emitter.log == old(s.emitter.log) + Messages(s.url, [STREAM_END])
  {
    s.FireStream(s.streamTimeoutId.value, chunk);
  }

  /**
   * A started stream on a server that stays connected and is not closing,
   * fired until it stops rescheduling itself, emits exactly the first 30
   * chunks it is given and then one `STREAM_END`, all for its URL.
   */
  method DeliverWholeStream(s: Server, chunks: seq<string>)
    requires s.Valid() && s.Accepting() && |chunks| >= MAX_MESSAGES
    requires s.streamTimeoutId.Some? && s.timers.pending == map[s.streamTimeoutId.value := StreamStep(0)]
    modifies s, s.timers, s.emitter
    ensures s.Valid() && s.Accepting() && s.streamTimeoutId == None && s.timers.pending == map[]
    ensures s.emitter.log == old(s.emitter.log) + Messages(s.url, chunks[..MAX_MESSAGES] + [STREAM_END])
    ensures s.emitter.listeners == old(s.emitter.listeners)
  {
    ghost var shown: seq<string> := [];
    var k := 0;
    while s.streamTimeoutId.Some?
      invariant s.Valid() && s.Accepting() && k <= MAX_MESSAGES
      invariant s.emitter.listeners == old(s.emitter.listeners)
      invariant s.emitter.log == old(s.emitter.log) + Messages(s.url, shown)
      invariant s.streamTimeoutId.Some? ==>
        s.timers.pending == map[s.streamTimeoutId.value := StreamStep(k)] && shown == chunks[..k]
      invariant s.streamTimeoutId.None? ==>
        s.timers.pending == map[] && shown == chunks[..MAX_MESSAGES] + [STREAM_END]
      decreases if s.streamTimeoutId.Some? then MAX_MESSAGES + 1 - k else 0
    {
      var chunk := if k < MAX_MESSAGES then chunks[k] else STREAM_END;
      FireLiveStream(s, k, chunk);
      LogAccumulates(old(s.emitter.log), s.url, shown, chunk);
      shown := shown + [chunk];
      if k < MAX_MESSAGES {
        assert shown == chunks[..k + 1];
        k := k + 1;
      }
    }
  }

  /** The `serverInstances` registry: at most one server per URL, created and destroyed through the bus. */
  class Registry {
    const emitter: EventEmitter<Listener>
    var servers: map<string, Server>

    ghost function Footprint(): set<object>
      reads this
    {
      (set u | u in servers :: servers[u] as object) + (set u | u in servers :: servers[u].timers as object)
    }

    ghost predicate Valid()
      reads this, Footprint()
    {
      && (forall u :: u in servers ==> servers[u].url == u && servers[u].emitter == emitter && servers[u].Valid())
      && (forall u, v :: u in servers && v in servers && u != v ==>
            servers[u] != servers[v] && servers[u].timers != servers[v].timers)
    }

    /** A registry holding one valid server, registered under its own URL on the same bus, is valid. */
    lemma OneServerValid(url: string, server: Server)
      requires servers == map[url := server] && server.url == url && server.emitter == emitter && server.Valid()
      ensures Valid()
    {
    }

    constructor (emitter: EventEmitter<Listener>)
      modifies emitter
      ensures this.emitter == emitter && servers == map[] && Valid()
      ensures emitter.listeners ==
        Add(Add(old(emitter.listeners), CreateServerInstance, Listener(this, CreateInstance)),
            DestroyServerInstance, Listener(this, DestroyInstance))
      ensures emitter.log == old(emitter.log)
    {
      this.emitter := emitter;
      servers := map[];
      new;
      emitter.On(CreateServerInstance, Listener(this, CreateInstance));
      emitter.On(DestroyServerInstance, Listener(this, DestroyInstance));
    }

    /** Listener of `create-server-instance`: a new server only for a URL that has none. */
    method HandleCreate(url: string)
      requires Valid()
      modifies this, emitter
      ensures Valid()
      ensures url in old(servers) ==> servers == old(servers) && emitter.listeners == old(emitter.listeners)
      ensures url !in old(servers) ==>
        && url in servers && servers == old(servers)[url := servers[url]]
        && fresh(servers[url]) && fresh(servers[url].timers)
        && servers[url].timers.pending == map[]
        && !servers[url].isConnected && !servers[url].isClosing
        && servers[url].streamTimeoutId == None && servers[url].connectTimeout == None
        && emitter.listeners == AddEach(old(emitter.listeners), servers[url].Subscriptions())
      ensures emitter.log == old(emitter.log)
    {
      if url !in servers {
        var s := new Server(url, emitter);
        servers := servers[url := s];
      }
    }

    /** Listener of `destroy-server-instance`: runs that server's `cleanupInternal` and forgets it; no-op for an absent URL. */
    method HandleDestroy(url: string)
      requires Valid()
      modifies this, emitter, if url in servers then {servers[url] as object, servers[url].timers} else {}
      ensures Valid()
      ensures servers == old(servers) - {url}
      ensures url !in old(servers) ==> emitter.listeners == old(emitter.listeners)
      ensures url in old(servers) ==>
        var s := old(servers[url]);
        && s.Valid() && s.streamTimeoutId == None
        && s.isConnected == old(s.isConnected) && s.isClosing == old(s.isClosing)
        && s.connectTimeout == old(s.connectTimeout)
        && s.timers.pending == ClearedOf(ClearedOf(old(s.timers.pending), old(s.connectTimeout)), old(s.streamTimeoutId))
        && (forall i :: i in s.timers.pending ==> s.timers.pending[i].Teardown?)
        && emitter.listeners == RemoveEach(old(emitter.listeners), s.Subscriptions())
      ensures emitter.log == old(emitter.log)
    {
      if url in servers {
        var s := servers[url];
        s.CleanupInternal();
        servers := servers - {url};
      }
    }
  }
}
