/** The three relay handlers. None of them reads or writes server state
    beyond looking up the sender's stranger, and none of them inspects the
    payload it forwards. */
module Relay {
  import opened Types

  /** `webrtc-signal`: forwarded to whatever id the payload names, paired or
      not, tagged with the sender's id. */
  function WebrtcSignal(s: State, id: Id, to: Id, signal: Signal): (r: Reaction)
    ensures r.state == s
    ensures |r.out| == 1
    ensures r.out[0].to == to
    ensures r.out[0].event.RelayedSignal?
    ensures r.out[0].event.from == id && r.out[0].event.signal == signal
  {
    Reaction(s, [Emit(to, RelayedSignal(id, signal))])
  }

  /** `send-message`: forwarded to the sender's stranger, dropped when the
      sender has none. */
  function SendMessage(s: State, id: Id, text: string): (r: Reaction)
    ensures r.state == s
    ensures r.out == [] <==> id !in s.partner
    ensures id in s.partner ==>
      |r.out| == 1 && r.out[0].to == s.partner[id] && r.out[0].event == NewMessage(text)
  {
    match Lookup(s.partner, id)
    case Some(stranger) => Reaction(s, [Emit(stranger, NewMessage(text))])
    case None => Reaction(s, [])
  }

  /** `media-status-changed`: forwarded to the sender's stranger, dropped
      when the sender has none. */
  function MediaStatusChanged(s: State, id: Id, video: bool): (r: Reaction)
    ensures r.state == s
    ensures r.out == [] <==> id !in s.partner
    ensures id in s.partner ==>
      |r.out| == 1 && r.out[0].to == s.partner[id] && r.out[0].event == StrangerMediaStatus(video)
  {
    match Lookup(s.partner, id)
    case Some(stranger) => Reaction(s, [Emit(stranger, StrangerMediaStatus(video))])
    case None => Reaction(s, [])
  }

  /** The signal relay's target and payload do not depend on who is paired
      with whom: a socket can signal any id, including one paired with a
      third socket. */
  lemma SignalIgnoresPairing(s: State, t: State, id: Id, to: Id, signal: Signal)
    ensures WebrtcSignal(s, id, to, signal).out == WebrtcSignal(t, id, to, signal).out
  {
  }
}
