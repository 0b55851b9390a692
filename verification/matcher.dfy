/** The `find-stranger` handler: record the requested call type, append the
    caller to the waiting queue, and pair the two oldest waiting sockets as
    soon as two are waiting. */
module Matcher {
  import opened Types

  /** The handler as written. There is no guard against a socket that is
      already paired or already queued, so the pair taken from the front may
      be one socket twice (see `Gaps.RepeatedRequestSelfPairs`). */
  function FindStranger(s: State, id: Id, kind: CallType): (r: Reaction)
    // the socket table is not touched
    ensures r.state.live == s.live
    // the caller's callType becomes the requested type, and no other changes
    ensures id in r.state.callType && r.state.callType[id] == kind
    ensures forall x :: x != id ==> Lookup(r.state.callType, x) == Lookup(s.callType, x)
    // fewer than two waiting after the push: the caller waits at the back
    ensures |s.queue| == 0 ==>
      r.state.queue == s.queue + [id] && r.state.partner == s.partner && r.out == []
    // two or more: the front two leave the queue, the rest keep their order
    ensures |s.queue| >= 1 ==>
      var pushed := s.queue + [id];
      var u1, u2 := pushed[0], pushed[1];
      && pushed == [u1, u2] + r.state.queue
      // each of the two gets the other as its stranger
      && u1 in r.state.partner && r.state.partner[u1] == u2
      && u2 in r.state.partner && r.state.partner[u2] == u1
      // nobody else's strangerId changes
      && (forall x :: x != u1 && x != u2 ==> Lookup(r.state.partner, x) == Lookup(s.partner, x))
      // user1 is told about user2 first, then user2 about user1
      && r.out == [Emit(u1, StrangerFound(u2, Lookup(r.state.callType, u2))),
                   Emit(u2, StrangerFound(u1, Lookup(r.state.callType, u1)))]
  {
    var callType := s.callType[id := kind];
    var waiting := s.queue + [id];
    if |waiting| >= 2 then
      var user1 := waiting[0];
      var user2 := waiting[1];
      var rest := waiting[2..];
      var partner := s.partner[user1 := user2][user2 := user1];
      Reaction(
        State(s.live, partner, callType, rest),
        [Emit(user1, StrangerFound(user2, Lookup(callType, user2))),
         Emit(user2, StrangerFound(user1, Lookup(callType, user1)))])
    else
      Reaction(State(s.live, s.partner, callType, waiting), [])
  }
}
