/** The `connection` closure as one step function: each inbound event runs
    its handler to completion against the whole server state, which is how
    Node's event loop serialises them. */
module Server {
  import opened Types
  import Matcher
  import Relay
  import Teardown

  /** The inbound events, with the payload fields the handlers read. */
  datatype Event =
    | Connect
    | FindStranger(kind: CallType)
    | WebrtcSignal(to: Id, signal: Signal)
    | SendMessage(text: string)
    | MediaStatusChanged(video: bool)
    | DisconnectChat
    | Disconnect

  /** An event and the id of the socket it arrived on. */
  datatype Input = Input(from: Id, event: Event)

  /** A new connection: a new socket object enters the live table with no
      `strangerId` and no `callType`. */
  function Accept(s: State, id: Id): (r: Reaction)
    requires id !in s.live
    ensures r.out == []
    ensures r.state.live == s.live + {id}
    ensures id !in r.state.partner && id !in r.state.callType
    ensures forall x :: x != id ==> Lookup(r.state.partner, x) == Lookup(s.partner, x)
    ensures forall x :: x != id ==> Lookup(r.state.callType, x) == Lookup(s.callType, x)
    ensures r.state.queue == s.queue
  {
    Reaction(State(s.live + {id}, s.partner - {id}, s.callType - {id}, s.queue), [])
  }

  /** Dispatch one inbound event to its handler. The transport delivers no
      events for a socket that is not connected, so those change nothing, and
      a connect for an id that is already live changes nothing either. A
      connect for any other id starts a fresh socket object under it. */
  function Step(s: State, input: Input): (r: Reaction)
    ensures input.from !in s.live && !input.event.Connect? ==> r == Reaction(s, [])
    ensures input.event.Connect? && input.from in s.live ==> r == Reaction(s, [])
    ensures input.event.Connect? ==> r.state.live == s.live + {input.from}
  {
    var id := input.from;
    if input.event.Connect? then
      if id in s.live then Reaction(s, []) else Accept(s, id)
    else if id !in s.live then Reaction(s, [])
    else
      match input.event
      case FindStranger(kind) => Matcher.FindStranger(s, id, kind)
      case WebrtcSignal(to, signal) => Relay.WebrtcSignal(s, id, to, signal)
      case SendMessage(text) => Relay.SendMessage(s, id, text)
      case MediaStatusChanged(video) => Relay.MediaStatusChanged(s, id, video)
      case DisconnectChat => Teardown.HandleDisconnect(s, id)
      case Disconnect => Teardown.Disconnect(s, id)
  }

  /** Handle a sequence of events in order, collecting everything emitted. */
  function Run(s: State, inputs: seq<Input>): (r: Reaction)
    decreases |inputs|
  {
    if |inputs| == 0 then Reaction(s, [])
    else
      var first := Step(s, inputs[0]);
      var rest := Run(first.state, inputs[1..]);
      Reaction(rest.state, first.out + rest.out)
  }

  /** `a` and `b` hold each other as strangers. */
  predicate Paired(s: State, a: Id, b: Id) {
    a in s.partner && s.partner[a] == b && b in s.partner && s.partner[b] == a
  }

  /** What holds of every state the server can reach: at most one socket is
      waiting, and a waiting socket is connected and has a call type. */
  predicate Inv(s: State) {
    && |s.queue| <= 1
    && (forall x :: x in s.queue ==> x in s.live && x in s.callType)
  }

  lemma StepPreservesInv(s: State, input: Input)
    requires Inv(s)
    ensures Inv(Step(s, input).state)
  {
    var id := input.from;
    var r := Step(s, input);
    if id in s.live && input.event.FindStranger? && |s.queue| == 1 {
      // the pushed pair is taken whole, so nothing is left waiting
      var pushed := s.queue + [id];
      assert pushed == [pushed[0], pushed[1]] + r.state.queue;
    } else if id in s.live && (input.event.DisconnectChat? || input.event.Disconnect?) {
      // teardown only removes entries
      forall x | x in r.state.queue ensures x in s.queue {
        assert multiset(r.state.queue)[x] > 0;
      }
    }
  }

  /** Every state reached from one satisfying `Inv` satisfies it. */
  lemma {:induction false} RunPreservesInv(s: State, inputs: seq<Input>)
    requires Inv(s)
    ensures Inv(Run(s, inputs).state)
    decreases |inputs|
  {
    if |inputs| > 0 {
      StepPreservesInv(s, inputs[0]);
      RunPreservesInv(Step(s, inputs[0]).state, inputs[1..]);
    }
  }

  /** From a fresh server, at most one socket is ever left waiting. */
  lemma QueueHoldsAtMostOne(inputs: seq<Input>)
    ensures |Run(Init, inputs).state.queue| <= 1
  {
    RunPreservesInv(Init, inputs);
  }

  /** A `stranger-found` event never carries an undefined call type. */
  predicate CallTypesDefined(out: seq<Emit>) {
    forall i :: 0 <= i < |out| && out[i].event.StrangerFound? ==> out[i].event.callType.Some?
  }

  lemma StepCallTypesDefined(s: State, input: Input)
    requires Inv(s)
    ensures CallTypesDefined(Step(s, input).out)
  {
  }

  lemma {:induction false} RunCallTypesDefined(s: State, inputs: seq<Input>)
    requires Inv(s)
    ensures CallTypesDefined(Run(s, inputs).out)
    decreases |inputs|
  {
    if |inputs| > 0 {
      var first := Step(s, inputs[0]);
      StepCallTypesDefined(s, inputs[0]);
      StepPreservesInv(s, inputs[0]);
      RunCallTypesDefined(first.state, inputs[1..]);
      var rest := Run(first.state, inputs[1..]);
      assert Run(s, inputs).out == first.out + rest.out;
    }
  }
}
