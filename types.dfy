/**
 * The vocabulary shared by every part of the streaming system: the socket
 * ready states, the events carried by the in-process bus of the mock
 * version, the events an endpoint delivers to its application handlers, and
 * the in-band control strings.
 */
module Types {

  datatype Option<T> = None | Some(value: T)

  /** The four socket ready states, numbered as the `ReadyState` enum numbers them. */
  datatype ReadyState = Connecting | Open | Closing | Closed {
    function Value(): nat {
      match this
      case Connecting => 0
      case Open => 1
      case Closing => 2
      case Closed => 3
    }
  }

  /** `after` is not an earlier state than `before`. */
  predicate NotBackward(before: ReadyState, after: ReadyState) {
    before.Value() <= after.Value()
  }

  /** Each state of a run is not earlier than the one before it. */
  ghost predicate StepsNeverBackward(states: seq<ReadyState>) {
    forall i :: 0 <= i < |states| - 1 ==> NotBackward(states[i], states[i + 1])
  }

  /**
   * Steps compose: in a run whose every step keeps or advances the ready
   * state, no state is earlier than any state before it.
   */
  lemma {:induction false} NeverBackwardOverRun(states: seq<ReadyState>)
    requires StepsNeverBackward(states)
    ensures forall i, j :: 0 <= i <= j < |states| ==> NotBackward(states[i], states[j])
  {
    if |states| > 1 {
      NeverBackwardOverRun(states[1..]);
      forall i, j | 0 <= i <= j < |states|
        ensures NotBackward(states[i], states[j])
      {
        if 0 < i {
          assert states[i] == states[1..][i - 1] && states[j] == states[1..][j - 1];
        } else if 0 < j {
          assert states[1] == states[1..][0] && states[j] == states[1..][j - 1];
        }
      }
    }
  }

  /** Client to producer: start a stream (a running one is restarted). */
  const START_STREAM: string := "START_STREAM"
  /** Client to producer: stop the running stream, silently. */
  const STOP_STREAM: string := "STOP_STREAM"
  /** Producer to client: the stream completed normally. */
  const STREAM_END: string := "STREAM_END"

  const NORMAL_CLOSURE: int := 1000
  const ABNORMAL_CLOSURE: int := 1006

  /** The names of the events of the in-process bus (`EmitterEventMap`). */
  datatype EventName =
    | CreateServerInstance
    | DestroyServerInstance
    | ClientMessage
    | ClientClose
    | ServerInitiateConnection
    | ServerOpen
    | ServerMessage
    | ServerClose
    | ServerError

  /** The arguments that follow the URL in an emission. */
  datatype Args = NoArgs | Text(text: string) | CloseInfo(code: int, reason: string)

  /** One emission on the bus: the event name, the URL it concerns and the remaining arguments. */
  datatype BusEvent = BusEvent(name: EventName, url: string, args: Args)

  /** The events an endpoint hands to its application (`WebSocketEventMap`). */
  datatype SocketEvent =
    | OpenEvent
    | MessageEvent(data: string)
    | CloseEvent(code: int, reason: string)
    | ErrorEvent(message: string)
  {
    /** The `type` string of the event, which is also the key of its handler list. */
    function Type(): string {
      match this
      case OpenEvent => "open"
      case MessageEvent(_) => "message"
      case CloseEvent(_, _) => "close"
      case ErrorEvent(_) => "error"
    }
  }

  /** The bound handler functions that the mock endpoints subscribe to the bus. */
  datatype Handler =
    | HandleServerOpen
    | HandleServerMessage
    | HandleServerClose
    | HandleServerError
    | HandleClientMessage
    | HandleClientCloseEvent
    | HandleConnectionRequest
    | CreateInstance
    | DestroyInstance

  /**
   * A listener of the bus.  In the source a listener is a function object
   * bound to its owner (an arrow-function field); two listeners are the same
   * exactly when owner and handler are.
   */
  datatype Listener = Listener(owner: object, handler: Handler)

  /**
   * One call an endpoint makes to its application: to the `on<type>`
   * property, or to a listener registered in its `_handlers` lists
   * (listeners are told apart by an id).
   */
  datatype Delivery = ToOnHandler(event: SocketEvent) | ToListener(id: nat, event: SocketEvent)

  /** The calls made to the listeners `hs` for one event, in order. */
  function ListenerCalls(hs: seq<nat>, ev: SocketEvent): (r: seq<Delivery>)
    ensures |r| == |hs|
    ensures forall i :: 0 <= i < |hs| ==> r[i] == ToListener(hs[i], ev)
  {
    if hs == [] then [] else [ToListener(hs[0], ev)] + ListenerCalls(hs[1..], ev)
  }
}
