/** `handleDisconnect`, the teardown bound to both `disconnect-chat` and the
    transport's `disconnect`. */
module Teardown {
  import opened Types

  /** `a` is `b` with some entries dropped and the rest in their order. */
  predicate IsSubsequence(a: seq<Id>, b: seq<Id>)
    decreases |b|
  {
    if |a| == 0 then true
    else if |b| == 0 then false
    else if a[0] == b[0] then IsSubsequence(a[1..], b[1..])
    else IsSubsequence(a, b[1..])
  }

  /** `waitingUsers.filter(user => user.id !== id)`. */
  function Without(q: seq<Id>, id: Id): (r: seq<Id>)
    // every entry with that id is gone, every other entry is kept, as often as before
    ensures id !in r
    ensures multiset(r) == multiset(q)[id := 0]
    // and in the same relative order
    ensures IsSubsequence(r, q)
    ensures |r| <= |q|
    decreases |q|
  {
    if |q| == 0 then []
    else
      assert q == [q[0]] + q[1..];
      if q[0] == id then Without(q[1..], id)
      else [q[0]] + Without(q[1..], id)
  }

  /** Removing an id twice is removing it once. */
  lemma {:induction false} WithoutIdempotent(q: seq<Id>, id: Id)
    ensures Without(Without(q, id), id) == Without(q, id)
    decreases |q|
  {
    if |q| > 0 {
      WithoutIdempotent(q[1..], id);
    }
  }

  /** Removing an id that is not queued leaves the queue as it was. */
  lemma {:induction false} WithoutAbsent(q: seq<Id>, id: Id)
    requires id !in q
    ensures Without(q, id) == q
    decreases |q|
  {
    if |q| > 0 {
      WithoutAbsent(q[1..], id);
      assert [q[0]] + q[1..] == q;
    }
  }

  /** The teardown as written: tell the stranger, clear the stranger's
      `strangerId` only if the stranger is still in the live table, and drop
      the caller from the queue. The caller's own `strangerId` is left set. */
  function HandleDisconnect(s: State, id: Id): (r: Reaction)
    ensures r.state.live == s.live && r.state.callType == s.callType
    // the stranger, and only the stranger, is notified
    ensures id !in s.partner ==> r.out == []
    ensures id in s.partner ==> r.out == [Emit(s.partner[id], StrangerDisconnected)]
    // a live stranger is unpaired; a gone one keeps its (unobservable) field
    ensures id in s.partner && s.partner[id] in s.live ==> s.partner[id] !in r.state.partner
    // no other strangerId changes, the caller's own included
    ensures forall x :: (id !in s.partner || x != s.partner[id] || x !in s.live) ==>
      Lookup(r.state.partner, x) == Lookup(s.partner, x)
    ensures r.state.partner.Keys <= s.partner.Keys
    // the caller leaves the queue, everyone else keeps their place
    ensures id !in r.state.queue
    ensures multiset(r.state.queue) == multiset(s.queue)[id := 0]
    ensures IsSubsequence(r.state.queue, s.queue)
  {
    var partner :=
      match Lookup(s.partner, id)
      case Some(stranger) => if stranger in s.live then s.partner - {stranger} else s.partner
      case None => s.partner;
    var out: seq<Emit> :=
      match Lookup(s.partner, id)
      case Some(stranger) => [Emit(stranger, StrangerDisconnected)]
      case None => [];
    Reaction(State(s.live, partner, s.callType, Without(s.queue, id)), out)
  }

  /** The transport's `disconnect`: socket.io has already dropped the socket
      from its live table when the handler runs, so a stranger that is the
      caller itself is never found there. */
  function Disconnect(s: State, id: Id): (r: Reaction)
    ensures r.state.live == s.live - {id} && r.state.callType == s.callType
    // the caller leaves the queue, everyone else keeps their place
    ensures id !in r.state.queue
    ensures multiset(r.state.queue) == multiset(s.queue)[id := 0]
    ensures IsSubsequence(r.state.queue, s.queue)
    ensures id in s.partner ==> r.out == [Emit(s.partner[id], StrangerDisconnected)]
    ensures id !in s.partner ==> r.out == []
    // nobody's strangerId changes except a live stranger's, which is cleared
    ensures forall x :: x != id && (id !in s.partner || x != s.partner[id] || x !in s.live) ==>
      Lookup(r.state.partner, x) == Lookup(s.partner, x)
    ensures id in s.partner && s.partner[id] != id && s.partner[id] in s.live ==>
      s.partner[id] !in r.state.partner
    ensures Lookup(r.state.partner, id) == Lookup(s.partner, id)
  {
    HandleDisconnect(s.(live := s.live - {id}), id)
  }
}
