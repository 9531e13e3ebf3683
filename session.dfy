/**
 * Whole sessions of the mock version: a client socket, the registry and
 * the server it creates, all on one bus.  Every emission is delivered to
 * the listeners subscribed for it, in emission order, by the steps below.
 */
module MockSession {
  import opened Types
  import opened SharedEmitter
  import MockServer
  import MockClient

  /**
   * Builds a bus, a registry and a client for `url`, and delivers the
   * client's two requests: the registry creates the server, which then
   * schedules its connect step.
   */
  method Start(url: string)
    returns (bus: EventEmitter<Listener>, registry: MockServer.Registry,
             client: MockClient.WebSocket, server: MockServer.Server)
    ensures fresh(bus) && fresh(registry) && fresh(client) && fresh(server) && fresh(server.timers)
    ensures registry.Valid() && registry.emitter == bus && registry.servers == map[url := server]
    ensures client.url == url && client.emitter == bus && client.readyState == Connecting
    ensures bus.log == [BusEvent(CreateServerInstance, url, NoArgs), BusEvent(ServerInitiateConnection, url, NoArgs)]
    ensures server.url == url && server.emitter == bus && server.Valid()
    ensures !server.isConnected && !server.isClosing && server.streamTimeoutId == None
    ensures server.connectTimeout.Some?
    ensures server.timers.pending == map[server.connectTimeout.value := MockServer.Connect]
  {
    bus := new EventEmitter();
    registry := new MockServer.Registry(bus);
    client := new MockClient.WebSocket(url, bus);
    ghost var log := bus.log;
    assert log == [BusEvent(CreateServerInstance, url, NoArgs), BusEvent(ServerInitiateConnection, url, NoArgs)];
    registry.HandleCreate(url);
    server := registry.servers[url];
    assert bus.log == log;
    server.HandleConnectionRequest(url);
    assert bus.log == log;
    registry.OneServerValid(url, server);
  }

  /**
   * Connects a started session: the server's connect step fires and its
   * `server-open` reaches the client, which becomes OPEN.
   */
  method Connected(url: string)
    returns (bus: EventEmitter<Listener>, registry: MockServer.Registry,
             client: MockClient.WebSocket, server: MockServer.Server)
    ensures fresh(bus) && fresh(registry) && fresh(client) && fresh(server) && fresh(server.timers)
    ensures registry.Valid() && registry.emitter == bus && registry.servers == map[url := server]
    ensures client.url == url && client.emitter == bus && client.readyState == Open
    ensures bus.log == [BusEvent(CreateServerInstance, url, NoArgs), BusEvent(ServerInitiateConnection, url, NoArgs),
                        BusEvent(ServerOpen, url, NoArgs)]
    ensures server.url == url && server.emitter == bus && server.Valid()
    ensures server.isConnected && !server.isClosing && server.streamTimeoutId == None
    ensures server.connectTimeout == None && server.timers.pending == map[]
  {
    bus, registry, client, server := Start(url);
    server.FireConnect(server.connectTimeout.value);
    client.HandleServerOpen(url);
  }

  /**
   * A close the client starts never completes: the server tears down
   * without emitting `server-close` and takes its listeners off the bus, so
   * nothing the client sends reaches it again; nothing is left pending, and
   * the client stays CLOSING, with the server still registered for its URL.
   */
  method ClientCloseStalls(url: string)
    returns (bus: EventEmitter<Listener>, registry: MockServer.Registry,
             client: MockClient.WebSocket, server: MockServer.Server)
    ensures client.readyState == Closing
    ensures server.timers.pending == map[] && !server.isConnected && !server.isClosing
    ensures forall i :: 0 <= i < |bus.log| ==> bus.log[i].name != ServerClose
    ensures registry.servers == map[url := server]
    ensures forall i :: 0 <= i < |server.Subscriptions()| ==>
      server.Subscriptions()[i].listener !in ListenersOf(bus.listeners, server.Subscriptions()[i].name)
  {
    bus, registry, client, server := Connected(url);
    assert forall i :: 0 <= i < |bus.log| ==> bus.log[i].name != ServerClose;
    client.Close();
    ghost var t := server.timers.next;
    server.HandleClientCloseEvent(url, NORMAL_CLOSURE, MockClient.DEFAULT_CLOSE_REASON);
    assert t in server.timers.pending;
    var teardown :| teardown in server.timers.pending;
    ghost var before := bus.listeners;
    server.FireTeardown(teardown);
    RemoveEachUnsubscribes(before, server.Subscriptions());
  }

  /**
   * A forced close of a connected server: its teardown fires, the server
   * drops its flags and timers, and `server-close` goes out on the bus.
   */
  method ServerTornDown(url: string)
    returns (bus: EventEmitter<Listener>, registry: MockServer.Registry,
             client: MockClient.WebSocket, server: MockServer.Server)
    ensures fresh(bus) && fresh(registry) && fresh(client) && fresh(server) && fresh(server.timers)
    ensures registry.emitter == bus && registry.servers == map[url := server]
    ensures client.url == url && client.emitter == bus && client.readyState == Open
    ensures bus.log == [BusEvent(CreateServerInstance, url, NoArgs), BusEvent(ServerInitiateConnection, url, NoArgs),
                        BusEvent(ServerOpen, url, NoArgs),
                        BusEvent(ServerClose, url, CloseInfo(ABNORMAL_CLOSURE, MockServer.FORCE_CLOSE_REASON))]
    ensures server.url == url && server.emitter == bus && server.Valid()
    ensures server.timers.pending == map[] && !server.isConnected && !server.isClosing
  {
    bus, registry, client, server := Connected(url);
    var teardown := server.timers.next;
    server.ForceClose();
    assert server.timers.pending ==
      map[teardown := MockServer.Teardown(ABNORMAL_CLOSURE, MockServer.FORCE_CLOSE_REASON, true)];
    server.FireTeardown(teardown);
    assert server.timers.pending == map[];
  }

  /**
   * A close the server starts does complete: `server-close` reaches the
   * client, which becomes CLOSED, cleans up and has the registry forget
   * the server.
   */
  method ServerCloseCompletes(url: string)
    returns (bus: EventEmitter<Listener>, registry: MockServer.Registry,
             client: MockClient.WebSocket, server: MockServer.Server)
    ensures client.readyState == Closed
    ensures registry.Valid() && registry.servers == map[]
    ensures server.timers.pending == map[] && !server.isConnected && !server.isClosing
  {
    bus, registry, client, server := ServerTornDown(url);
    client.HandleServerClose(url, ABNORMAL_CLOSURE, MockServer.FORCE_CLOSE_REASON);
    assert client.readyState == Closed;
    assert registry.servers == map[url := server];
    registry.OneServerValid(url, server);
    registry.HandleDestroy(url);
    assert url !in registry.servers;
  }
}
