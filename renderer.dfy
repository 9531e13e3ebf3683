/**
 * The chunk renderer of the streaming client: chunks received from the
 * socket wait in a FIFO queue; one at a time the head is taken and revealed
 * one character per tick of a single interval timer.  React state updates
 * are applied at once, in the order the source issues them, and the
 * queue effect is an explicit step the environment takes.
 */
module Renderer {
  import opened Types
  import opened Timers

  /** The text shown once the socket opens (it replaces everything shown before). */
  const CONNECTED_TEXT: string := "서버에 연결되었습니다.\n"
  /** The status line appended when the socket reports an error. */
  const ERROR_LINE: string := "\n--- 웹소켓 오류 발생 ---"

  /** The markup around a message the user submits. */
  const USER_LINE_OPEN: string := "\n<div style=\"text-align: right; font-weight: bold;\">"
  const USER_LINE_CLOSE: string := "</div>"

  /** The line `handleSubmit` appends for `message`: the message, verbatim, inside the markup. */
  function UserLine(message: string): (r: string)
    ensures |r| == |USER_LINE_OPEN| + |message| + |USER_LINE_CLOSE|
    ensures r[|USER_LINE_OPEN|..|USER_LINE_OPEN| + |message|] == message
  {
    USER_LINE_OPEN + message + USER_LINE_CLOSE
  }

  /** The status line appended when the socket closes with `code`. */
  function CloseLine(code: int): string {
    "\n--- 서버 연결 끊김 (코드: " + Decimal(code) + ") ---"
  }

  /** The decimal digits of `n`, as a template literal renders a number. */
  function Decimal(n: int): string {
    if n < 0 then "-" + Digits(-n) else Digits(n)
  }

  function Digits(n: nat): string
    decreases n
  {
    var d := ['0', '1', '2', '3', '4', '5', '6', '7', '8', '9'][n % 10];
    if n < 10 then [d] else Digits(n / 10) + [d]
  }

  /** The updater `prev => prev + nextChar`. */
  function AppendChar(prev: string, c: char): (r: string)
    ensures |r| == |prev| + 1 && r[..|prev|] == prev && r[|prev|] == c
  {
    prev + [c]
  }

  /** The updater `prev => [...prev, data]`. */
  function EnqueueChunk(prev: seq<string>, data: string): (r: seq<string>)
    ensures |r| == |prev| + 1 && r[..|prev|] == prev && r[|prev|] == data
  {
    prev + [data]
  }

  /** The updater `prev => prev.slice(1)`: the head is gone, the rest keeps its order; an empty queue stays empty. */
  function DropHead(prev: seq<string>): (r: seq<string>)
    ensures prev == [] ==> r == []
    ensures prev != [] ==> [prev[0]] + r == prev
  {
    if prev == [] then [] else prev[1..]
  }

  /** The chunks joined in order. */
  function Concat(chunks: seq<string>): string {
    if chunks == [] then "" else chunks[0] + Concat(chunks[1..])
  }

  /** Joining one more chunk appends exactly that chunk. */
  lemma {:induction false} ConcatAppend(chunks: seq<string>, c: string)
    ensures Concat(chunks + [c]) == Concat(chunks) + c
  {
    if chunks != [] {
      assert (chunks + [c])[1..] == chunks[1..] + [c];
      ConcatAppend(chunks[1..], c);
    }
  }

  /** Joining two runs of chunks joins their texts. */
  lemma {:induction false} ConcatSplit(a: seq<string>, b: seq<string>)
    ensures Concat(a + b) == Concat(a) + Concat(b)
  {
    if a != [] {
      assert (a + b)[1..] == a[1..] + b;
      ConcatSplit(a[1..], b);
    } else {
      assert a + b == b;
    }
  }

  /** Taking the head of the queue into the rendering keeps the text owed and what arrived. */
  lemma TakeHead(shown: string, base: string, taken: seq<string>, queue: seq<string>, arrived: seq<string>)
    requires shown == base + Concat(taken) && taken + queue == arrived && queue != []
    ensures shown + queue[0] == base + Concat(taken + [queue[0]])
    ensures (taken + [queue[0]]) + DropHead(queue) == arrived
  {
    ConcatAppend(taken, queue[0]);
    assert queue == [queue[0]] + queue[1..];
  }

  /** Moving one character from the unrevealed rest of a chunk to the text shown keeps their concatenation. */
  lemma RevealShift(shown: string, chunk: string, i: nat)
    requires i < |chunk|
    ensures AppendChar(shown, chunk[i]) + chunk[i + 1..] == shown + chunk[i..]
  {
    assert chunk[i..] == [chunk[i]] + chunk[i + 1..];
  }

  /** The only callback the renderer schedules: `renderNextChar`, on an interval. */
  datatype Tick = RenderNextChar

  /** What the renderer asks of its socket. */
  datatype SocketCall = SendCall(data: string) | CloseCall

  class App {
    const timers: Scheduler<Tick>
    var displayedText: string
    var isConnected: bool
    var isStreaming: bool
    var chunkQueue: seq<string>
    /** `ws.current`: no socket, or one in the given ready state. */
    var socket: Option<ReadyState>
    /** Every `send`/`close` made on the current socket, in order. */
    var socketCalls: seq<SocketCall>
    /** `charRenderIntervalId.current`. */
    var intervalId: Option<nat>
    /** `currentChunkRef.current`. */
    var currentChunk: Option<string>
    /** `currentCharIndexRef.current`. */
    var charIndex: nat
    /**
     * `chunkQueue` has been given a new array since the queue effect last
     * ran.  React runs that effect (dependencies `[chunkQueue, renderNextChar]`,
     * the second one stable) only after such a render.
     */
    var queueChanged: bool

    /** The text shown when the current run of rendering began (after the last reset). */
    ghost var baseText: string
    /** The chunks taken from the queue since then, in order (the first may be the unrevealed rest of a chunk). */
    ghost var taken: seq<string>
    /** Everything owed to the screen since then: `taken` followed by the queue. */
    ghost var arrived: seq<string>

    /** The characters of the current chunk not yet revealed. */
    function Remainder(): string
      reads this
    {
      match currentChunk
      case None => ""
      case Some(c) => if charIndex <= |c| then c[charIndex..] else ""
    }

    /**
     * One interval at most, running exactly while a chunk is being revealed;
     * the cursor stays inside the chunk; and the text shown plus what is left
     * of the current chunk is the text at the last reset followed by the
     * taken chunks, which with the queue make up everything that arrived.
     */
    ghost predicate Valid()
      reads this, timers
    {
      && timers.Valid()
      && (forall id :: id in timers.pending ==> intervalId == Some(id))
      && (intervalId.Some? <==> currentChunk.Some?)
      && (currentChunk.Some? ==> charIndex <= |currentChunk.value|)
      && (currentChunk.None? ==> charIndex == 0)
      && displayedText + Remainder() == baseText + Concat(taken)
      && taken + chunkQueue == arrived
    }

    /** Starts the current run of rendering afresh from the present state. */
    ghost method Restart()
      modifies this
      ensures baseText == displayedText && taken == (if currentChunk.Some? then [Remainder()] else [])
      ensures arrived == taken + chunkQueue
      ensures unchanged(this`displayedText, this`isConnected, this`isStreaming, this`chunkQueue, this`socket)
      ensures unchanged(this`socketCalls, this`intervalId, this`currentChunk, this`charIndex, this`queueChanged)
    {
      baseText := displayedText;
      taken := if currentChunk.Some? then [Remainder()] else [];
      arrived := taken + chunkQueue;
    }

    /** The first render: nothing shown, queued or running, no socket yet, and the effects still to run. */
    constructor ()
      ensures Valid() && fresh(timers) && timers.pending == map[]
      ensures displayedText == "" && !isConnected && !isStreaming && chunkQueue == []
      ensures socket == None && socketCalls == []
      ensures intervalId == None && currentChunk == None && charIndex == 0 && queueChanged
    {
      timers := new Scheduler();
      displayedText := "";
      isConnected, isStreaming := false, false;
      chunkQueue := [];
      socket := None;
      socketCalls := [];
      intervalId, currentChunk, charIndex := None, None, 0;
      queueChanged := true;
      baseText, taken, arrived := "", [], [];
    }

    /**
     * `clearCharRenderInterval`: the interval (if any) is cleared and
     * dropped, and the cursor reset.  Text and queue are not touched.  When
     * the current chunk was fully revealed the run of rendering goes on;
     * when its rest is dropped a new run starts.
     */
    method ClearCharRenderInterval()
      requires Valid()
      modifies this, timers
      ensures Valid()
      ensures intervalId == None && currentChunk == None && charIndex == 0
      ensures timers.pending == ClearedOf(old(timers.pending), old(intervalId)) && timers.pending == map[]
      ensures displayedText == old(displayedText) && chunkQueue == old(chunkQueue)
      ensures isConnected == old(isConnected) && isStreaming == old(isStreaming)
      ensures socket == old(socket) && socketCalls == old(socketCalls) && queueChanged == old(queueChanged)
      ensures old(Remainder()) == "" ==> baseText == old(baseText) && taken == old(taken) && arrived == old(arrived)
    {
      ghost var finished := Remainder() == "";
      if intervalId.Some? {
        timers.ClearTimeout(intervalId.value);
        intervalId := None;
      }
      currentChunk := None;
      charIndex := 0;
      if !finished {
        Restart();
      }
    }

    /**
     * The interval fires (`renderNextChar`): with characters left, exactly
     * the next one is appended and the cursor advances; otherwise (no chunk,
     * or a fully revealed one) the interval is cleared and the cursor reset.
     */
    method Tick(id: nat)
      requires Valid() && id in timers.pending
      modifies this, timers
      ensures Valid()
      ensures old(currentChunk).Some? && old(charIndex) < |old(currentChunk).value| ==>
        && displayedText == old(displayedText) + [old(currentChunk).value[old(charIndex)]]
        && charIndex == old(charIndex) + 1 && currentChunk == old(currentChunk)
        && intervalId == old(intervalId) && timers.pending == old(timers.pending)
      ensures !(old(currentChunk).Some? && old(charIndex) < |old(currentChunk).value|) ==>
        && displayedText == old(displayedText)
        && intervalId == None && currentChunk == None && charIndex == 0 && timers.pending == map[]
      ensures chunkQueue == old(chunkQueue) && isConnected == old(isConnected) && isStreaming == old(isStreaming)
      ensures socket == old(socket) && socketCalls == old(socketCalls) && queueChanged == old(queueChanged)
      ensures baseText == old(baseText) && taken == old(taken) && arrived == old(arrived)
    {
      if currentChunk.None? || currentChunk.value == "" || charIndex >= |currentChunk.value| {
        assert Remainder() == "";
        ClearCharRenderInterval();
      } else {
        RevealNextChar();
      }
    }

    /** The branch of `renderNextChar` with characters left: the next one is appended and the cursor advances. */
    method RevealNextChar()
      requires Valid() && currentChunk.Some? && charIndex < |currentChunk.value|
      modifies this
      ensures Valid()
      ensures displayedText == old(displayedText) + [old(currentChunk).value[old(charIndex)]]
      ensures charIndex == old(charIndex) + 1 && currentChunk == old(currentChunk) && intervalId == old(intervalId)
      ensures chunkQueue == old(chunkQueue) && isConnected == old(isConnected) && isStreaming == old(isStreaming)
      ensures socket == old(socket) && socketCalls == old(socketCalls) && queueChanged == old(queueChanged)
      ensures baseText == old(baseText) && taken == old(taken) && arrived == old(arrived)
    {
      var chunk := currentChunk.value;
      var nextChar := chunk[charIndex];
      ghost var rest := chunk[charIndex + 1..];
      RevealShift(displayedText, chunk, charIndex);
      displayedText := AppendChar(displayedText, nextChar);
      charIndex := charIndex + 1;
      assert Remainder() == rest;
    }

    /**
     * The chunk-queue effect, at a point where React may run it: it runs
     * only if the queue was given a new array since its last run.  Then,
     * with no interval running and a non-empty queue, the head is taken (and
     * removed, exactly once, by a new array, so the effect will run again),
     * becomes the current chunk from index 0, and the interval starts.
     */
    method QueueEffect()
      requires Valid()
      modifies this, timers
      ensures Valid()
      ensures !old(queueChanged) ==> unchanged(this) && timers.pending == old(timers.pending)
      ensures old(queueChanged) && (old(intervalId).Some? || old(chunkQueue) == []) ==>
        && !queueChanged && chunkQueue == old(chunkQueue) && taken == old(taken)
        && intervalId == old(intervalId) && currentChunk == old(currentChunk) && charIndex == old(charIndex)
        && timers.pending == old(timers.pending)
      ensures old(queueChanged) && old(intervalId).None? && old(chunkQueue) != [] ==>
        && currentChunk == Some(old(chunkQueue)[0]) && charIndex == 0
        && chunkQueue == old(chunkQueue)[1..] && queueChanged
        && intervalId == Some(old(timers.next))
        && timers.pending == map[old(timers.next) := RenderNextChar]
        && taken == old(taken) + [old(chunkQueue)[0]]
      ensures displayedText == old(displayedText) && isConnected == old(isConnected) && isStreaming == old(isStreaming)
      ensures socket == old(socket) && socketCalls == old(socketCalls)
      ensures baseText == old(baseText) && arrived == old(arrived)
    {
      if !queueChanged {
        return;
      }
      queueChanged := false;
      if intervalId.None? && |chunkQueue| > 0 {
        TakeNextChunk();
      }
    }

    /** The body of the queue effect when its guard holds; the slice gives the queue a new array. */
    method TakeNextChunk()
      requires Valid() && intervalId.None? && chunkQueue != []
      modifies this, timers
      ensures Valid()
      ensures currentChunk == Some(old(chunkQueue)[0]) && charIndex == 0
      ensures chunkQueue == old(chunkQueue)[1..] && queueChanged
      ensures intervalId == Some(old(timers.next)) && timers.pending == map[old(timers.next) := RenderNextChar]
      ensures taken == old(taken) + [old(chunkQueue)[0]]
      ensures displayedText == old(displayedText) && isConnected == old(isConnected) && isStreaming == old(isStreaming)
      ensures socket == old(socket) && socketCalls == old(socketCalls)
      ensures baseText == old(baseText) && arrived == old(arrived)
    {
      assert displayedText == baseText + Concat(taken) && timers.pending == map[];
      var nextChunk := chunkQueue[0];
      TakeHead(displayedText, baseText, taken, chunkQueue, arrived);
      var id := timers.SetTimeout(RenderNextChar);
      chunkQueue, currentChunk, charIndex, intervalId, queueChanged, taken :=
        DropHead(chunkQueue), Some(nextChunk), 0, Some(id), true, taken + [nextChunk];
      assert Remainder() == nextChunk;
    }

    /** `onopen`: connected, and the text is replaced by the connection notice; rendering goes on. */
    method OnOpen()
      requires Valid()
      modifies this
      ensures Valid()
      ensures isConnected && displayedText == CONNECTED_TEXT
      ensures isStreaming == old(isStreaming) && chunkQueue == old(chunkQueue) && queueChanged == old(queueChanged)
      ensures intervalId == old(intervalId) && currentChunk == old(currentChunk) && charIndex == old(charIndex)
      ensures socket == old(socket) && socketCalls == old(socketCalls)
    {
      isConnected := true;
      displayedText := CONNECTED_TEXT;
      Restart();
    }

    /** `onmessage` with a string: `STREAM_END` only ends streaming; anything else joins the queue's tail. */
    method OnMessage(data: string)
      requires Valid()
      modifies this
      ensures Valid()
      ensures data == STREAM_END ==>
        !isStreaming && chunkQueue == old(chunkQueue) && queueChanged == old(queueChanged) && arrived == old(arrived)
      ensures data != STREAM_END ==>
        && isStreaming == old(isStreaming) && chunkQueue == old(chunkQueue) + [data] && queueChanged
        && arrived == old(arrived) + [data]
      ensures displayedText == old(displayedText) && isConnected == old(isConnected)
      ensures intervalId == old(intervalId) && currentChunk == old(currentChunk) && charIndex == old(charIndex)
      ensures socket == old(socket) && socketCalls == old(socketCalls)
      ensures baseText == old(baseText) && taken == old(taken)
    {
      if data == STREAM_END {
        isStreaming := false;
      } else {
        chunkQueue, queueChanged := EnqueueChunk(chunkQueue, data), true;
        arrived := arrived + [data];
      }
    }

    /** `onclose`: both flags off, the cursor cleared, and a status line appended to what is shown. */
    method OnClose(code: int)
      requires Valid()
      modifies this, timers
      ensures Valid()
      ensures !isConnected && !isStreaming
      ensures intervalId == None && currentChunk == None && charIndex == 0 && timers.pending == map[]
      ensures displayedText == old(displayedText) + CloseLine(code)
      ensures chunkQueue == old(chunkQueue) && queueChanged == old(queueChanged)
      ensures socket == old(socket) && socketCalls == old(socketCalls)
    {
      isConnected := false;
      isStreaming := false;
      ClearCharRenderInterval();
      displayedText := displayedText + CloseLine(code);
      Restart();
    }

    /** `onerror`: like `onclose`, with the error line. */
    method OnError()
      requires Valid()
      modifies this, timers
      ensures Valid()
      ensures !isConnected && !isStreaming
      ensures intervalId == None && currentChunk == None && charIndex == 0 && timers.pending == map[]
      ensures displayedText == old(displayedText) + ERROR_LINE
      ensures chunkQueue == old(chunkQueue) && queueChanged == old(queueChanged)
      ensures socket == old(socket) && socketCalls == old(socketCalls)
    {
      isConnected := false;
      isStreaming := false;
      ClearCharRenderInterval();
      displayedText := displayedText + ERROR_LINE;
      Restart();
    }

    /**
     * `connectWebSocket`: everything is reset first; then, unless a socket
     * that is CONNECTING or OPEN already exists, a new CONNECTING socket
     * replaces the old one.
     */
    method Connect()
      requires Valid()
      modifies this, timers
      ensures Valid()
      ensures displayedText == "" && chunkQueue == [] && queueChanged && !isStreaming && !isConnected
      ensures intervalId == None && currentChunk == None && charIndex == 0 && timers.pending == map[]
      ensures old(socket).Some? && old(socket).value.Value() < Closing.Value() ==>
        socket == old(socket) && socketCalls == old(socketCalls)
      ensures !(old(socket).Some? && old(socket).value.Value() < Closing.Value()) ==>
        socket == Some(Connecting) && socketCalls == []
    {
      ClearCharRenderInterval();
      displayedText := "";
      chunkQueue, queueChanged := [], true;
      isStreaming := false;
      isConnected := false;
      Restart();
      if socket.Some? && socket.value.Value() < Closing.Value() {
        return;
      }
      socket := Some(Connecting);
      socketCalls := [];
    }

    /**
     * `startStreaming`: only with an OPEN socket; empties the queue, clears
     * the cursor, appends a line break to what is shown, asks for a stream
     * and marks streaming.  Otherwise nothing changes.
     */
    method StartStreaming()
      requires Valid()
      modifies this, timers
      ensures Valid()
      ensures old(socket) != Some(Open) ==> unchanged(this) && timers.pending == old(timers.pending)
      ensures old(socket) == Some(Open) ==>
        && chunkQueue == [] && queueChanged && intervalId == None && currentChunk == None && charIndex == 0
        && timers.pending == map[]
        && displayedText == old(displayedText) + "\n"
        && socketCalls == old(socketCalls) + [SendCall(START_STREAM)]
        && isStreaming
      ensures isConnected == old(isConnected) && socket == old(socket)
    {
      if socket != Some(Open) {
        return;
      }
      ClearCharRenderInterval();
      chunkQueue, queueChanged, displayedText := [], true, displayedText + "\n";
      socketCalls, isStreaming := socketCalls + [SendCall(START_STREAM)], true;
      Restart();
      assert taken == [] && Remainder() == "" && Concat(taken) == "";
    }

    /**
     * `stopStreaming`: only with an OPEN socket; asks the producer to stop,
     * clears streaming and the cursor, and leaves the queue as it is.
     */
    method StopStreaming()
      requires Valid()
      modifies this, timers
      ensures Valid()
      ensures old(socket) != Some(Open) ==> unchanged(this) && timers.pending == old(timers.pending)
      ensures old(socket) == Some(Open) ==>
        && socketCalls == old(socketCalls) + [SendCall(STOP_STREAM)]
        && !isStreaming && intervalId == None && currentChunk == None && charIndex == 0
        && timers.pending == map[]
      ensures chunkQueue == old(chunkQueue) && queueChanged == old(queueChanged) && displayedText == old(displayedText)
      ensures isConnected == old(isConnected) && socket == old(socket)
    {
      if socket != Some(Open) {
        return;
      }
      socketCalls := socketCalls + [SendCall(STOP_STREAM)];
      isStreaming := false;
      ClearCharRenderInterval();
    }

    /**
     * `handleSubmit`: the submitted message is appended to what is shown
     * whatever the socket's state, then `startStreaming` runs.
     */
    method HandleSubmit(message: string)
      requires Valid()
      modifies this, timers
      ensures Valid()
      ensures old(socket) != Some(Open) ==>
        && displayedText == old(displayedText) + UserLine(message)
        && chunkQueue == old(chunkQueue) && queueChanged == old(queueChanged)
        && isStreaming == old(isStreaming) && socketCalls == old(socketCalls)
        && intervalId == old(intervalId) && currentChunk == old(currentChunk) && charIndex == old(charIndex)
        && timers.pending == old(timers.pending)
      ensures old(socket) == Some(Open) ==>
        && displayedText == old(displayedText) + UserLine(message) + "\n"
        && chunkQueue == [] && queueChanged && intervalId == None && currentChunk == None && charIndex == 0
        && timers.pending == map[]
        && socketCalls == old(socketCalls) + [SendCall(START_STREAM)]
        && isStreaming
      ensures isConnected == old(isConnected) && socket == old(socket)
    {
      displayedText := displayedText + UserLine(message);
      Restart();
      StartStreaming();
    }

    /** The mount effect's cleanup: the cursor is cleared, and an OPEN socket is asked to close. */
    method Unmount()
      requires Valid()
      modifies this, timers
      ensures Valid()
      ensures intervalId == None && currentChunk == None && charIndex == 0 && timers.pending == map[]
      ensures socketCalls == old(socketCalls) + (if old(socket) == Some(Open) then [CloseCall] else [])
      ensures displayedText == old(displayedText) && chunkQueue == old(chunkQueue) && queueChanged == old(queueChanged)
      ensures isConnected == old(isConnected) && isStreaming == old(isStreaming) && socket == old(socket)
    {
      ClearCharRenderInterval();
      if socket == Some(Open) {
        socketCalls := socketCalls + [CloseCall];
      }
    }

    /** The socket moves to another ready state. */
    method SetSocketState(state: ReadyState)
      requires Valid() && socket.Some?
      modifies this
      ensures Valid() && socket == Some(state)
      ensures displayedText == old(displayedText) && chunkQueue == old(chunkQueue) && socketCalls == old(socketCalls)
      ensures intervalId == old(intervalId) && currentChunk == old(currentChunk) && charIndex == old(charIndex)
      ensures isConnected == old(isConnected) && isStreaming == old(isStreaming) && queueChanged == old(queueChanged)
      ensures baseText == old(baseText) && taken == old(taken) && arrived == old(arrived)
    {
      socket := Some(state);
    }
  }

  /** Two pending intervals of a valid renderer are the same interval, and it is the one `intervalId` names. */
  lemma AtMostOneInterval(app: App, a: nat, b: nat)
    requires app.Valid() && a in app.timers.pending && b in app.timers.pending
    ensures a == b && app.intervalId == Some(a) && app.currentChunk.Some?
  {
  }

  /**
   * No loss, duplication or reordering: once everything that arrived since
   * the last reset has been taken and fully revealed, the text shown is the
   * text at the reset followed by all of it, joined in arrival order.
   */
  lemma DrainedShowsAll(app: App)
    requires app.Valid() && app.currentChunk.None? && app.chunkQueue == []
    ensures app.displayedText == app.baseText + Concat(app.arrived)
  {
    assert app.taken + [] == app.taken;
  }

  /**
   * With no interval running, no timer is pending and exactly the queued
   * chunks are missing from the screen: only the queue effect can reveal
   * them, and it runs only after the queue is given a new array.
   */
  lemma IdleOwesQueue(app: App)
    requires app.Valid() && app.intervalId.None?
    ensures app.timers.pending == map[]
    ensures app.displayedText + Concat(app.chunkQueue) == app.baseText + Concat(app.arrived)
  {
    assert app.Remainder() == "" && app.displayedText == app.baseText + Concat(app.taken);
    ConcatSplit(app.taken, app.chunkQueue);
    assert (app.baseText + Concat(app.taken)) + Concat(app.chunkQueue) == app.baseText + (Concat(app.taken) + Concat(app.chunkQueue));
  }

  /**
   * Chunk "ab" is being revealed (nothing shown yet) and chunk "c" arrives
   * during its interval: the queue effect runs, finds the interval, and is
   * not due again until the queue changes.
   */
  method ChunkArrivesDuringInterval() returns (app: App, id: nat)
    ensures fresh(app) && fresh(app.timers)
    ensures app.Valid() && app.intervalId == Some(id) && id in app.timers.pending
    ensures app.currentChunk == Some("ab") && app.charIndex == 0 && app.displayedText == ""
    ensures app.chunkQueue == ["c"] && !app.queueChanged
  {
    app := new App();
    app.QueueEffect();
    app.OnMessage("ab");
    app.QueueEffect();
    id := app.intervalId.value;
    app.QueueEffect();
    app.OnMessage("c");
    app.QueueEffect();
  }

  /**
   * The last chunk arrives while an interval runs and the stream then ends:
   * when the interval ends, the queue effect is not due (the queue has not
   * changed since it last ran), no timer is pending, and the chunk stays
   * queued and unrevealed.
   */
  method LastChunkStalls() returns (app: App)
    ensures app.Valid() && app.intervalId.None? && app.timers.pending == map[] && !app.queueChanged
    ensures app.chunkQueue == ["c"] && app.displayedText == "ab" && !app.isStreaming
  {
    var id;
    app, id := ChunkArrivesDuringInterval();
    app.OnMessage(STREAM_END);
    app.Tick(id);
    app.Tick(id);
    app.Tick(id);
    app.QueueEffect();
  }
}
