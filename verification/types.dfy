/** The shared vocabulary of the rendezvous server: socket ids, the
    server-wide state that the `connection` handlers read and write, and the
    events they emit.

    The server keeps its state on the socket objects themselves
    (`socket.strangerId`, `socket.callType`), in the module-level
    `waitingUsers` array, and in socket.io's table of live sockets. Socket ids
    are unique for the life of the process, so every per-socket field is
    modelled as a map keyed by the socket id.
 */
module Types {

  /** A socket id, assigned by the transport at connect time. */
  type Id = string

  /** The call type a client asks for in `find-stranger` (`data.type`). */
  type CallType = string

  datatype Option<+T> = None | Some(value: T)

  /** The value under `k`, or `None` when `k` has none (JavaScript's
      `undefined` for a property never set, or `null` once cleared). */
  function Lookup<K, V>(m: map<K, V>, k: K): (r: Option<V>)
    ensures r.Some? <==> k in m
    ensures r.Some? ==> r.value == m[k]
  {
    if k in m then Some(m[k]) else None
  }

  /** The whole server state.
      - `live`: ids in socket.io's table of connected sockets
      - `partner`: `socket.strangerId`, for the sockets where it is set
      - `callType`: `socket.callType`, for the sockets where it is set
      - `queue`: the `waitingUsers` array, front first */
  datatype State = State(
    live: set<Id>,
    partner: map<Id, Id>,
    callType: map<Id, CallType>,
    queue: seq<Id>)

  /** The state of a freshly started server. */
  const Init: State := State({}, map[], map[], [])

  /** A WebRTC offer, answer or ICE candidate. The server never looks inside
      one, so the type is left abstract. */
  type Signal(==)

  /** The events the server emits. */
  datatype Outbound =
    | StrangerFound(id: Id, callType: Option<CallType>)
    | RelayedSignal(from: Id, signal: Signal)
    | NewMessage(text: string)
    | StrangerMediaStatus(video: bool)
    | StrangerDisconnected

  /** One emitted event and the socket id it is addressed to. */
  datatype Emit = Emit(to: Id, event: Outbound)

  /** What a handler leaves behind: the new state and the events it emitted,
      in emission order. */
  datatype Reaction = Reaction(state: State, out: seq<Emit>)
}
