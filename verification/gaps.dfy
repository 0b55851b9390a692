/** Behaviour of the handlers as written that an idealised pairing server
    would not show. The code promises neither symmetric pairing nor an
    idempotent teardown; these lemmas pin down where each breaks. */
module Gaps {
  import opened Types
  import opened Server

  /** A socket that asks twice while alone in the queue is paired with
      itself and is told twice that it found itself. */
  lemma RepeatedRequestSelfPairs(s: State, a: Id, k1: CallType, k2: CallType)
    requires a in s.live && s.queue == []
    ensures var r := Run(s, [Input(a, FindStranger(k1)), Input(a, FindStranger(k2))]);
      && Paired(r.state, a, a)
      && r.state.queue == []
      && r.out == [Emit(a, StrangerFound(a, Some(k2))), Emit(a, StrangerFound(a, Some(k2)))]
  {
    var i0, i1 := Input(a, FindStranger(k1)), Input(a, FindStranger(k2));
    var r0 := Step(s, i0);
    assert r0.state.queue == [a] && r0.out == [];
    var r1 := Step(r0.state, i1);
    assert [i0, i1][1..] == [i1] && [i1][1..] == [];
    assert Run(r0.state, [i1]) == Reaction(r1.state, r1.out);
  }

  /** A paired socket that asks again is queued while it still has a
      stranger: being queued and being paired are not exclusive. */
  lemma PairedSocketIsQueued(s: State, a: Id, k: CallType)
    requires a in s.live && a in s.partner && s.queue == []
    ensures var t := Step(s, Input(a, FindStranger(k))).state;
      a in t.queue && a in t.partner && t.partner[a] == s.partner[a]
  {
  }

  /** Ending a chat clears the stranger's link but not the caller's own:
      the pairing becomes one-sided. */
  lemma EndChatIsOneSided(s: State, a: Id, b: Id)
    requires a in s.live && b in s.live && a != b && Paired(s, a, b)
    ensures var t := Step(s, Input(a, DisconnectChat)).state;
      b !in t.partner && a in t.partner && t.partner[a] == b
  {
  }

  /** So the socket that ended the chat can still message its former
      stranger, which can no longer answer. */
  lemma MessageAfterEndChatIsDelivered(s: State, a: Id, b: Id, text: string)
    requires a in s.live && b in s.live && a != b && Paired(s, a, b)
    ensures var r := Run(s, [Input(a, DisconnectChat), Input(a, SendMessage(text)),
                             Input(b, SendMessage(text))]);
      r.out == [Emit(b, StrangerDisconnected), Emit(b, NewMessage(text))]
  {
    var i0, i1, i2 := Input(a, DisconnectChat), Input(a, SendMessage(text)), Input(b, SendMessage(text));
    var r0 := Step(s, i0);
    var r1 := Step(r0.state, i1);
    var r2 := Step(r1.state, i2);
    assert r2.out == [];
    assert [i0, i1, i2][1..] == [i1, i2] && [i1, i2][1..] == [i2] && [i2][1..] == [];
    assert Run(r1.state, [i2]) == Reaction(r2.state, r2.out);
    assert Run(r0.state, [i1, i2]) == Reaction(r2.state, r1.out + r2.out);
  }

  /** Ending the chat and then losing the connection runs the teardown
      twice, and the former stranger is told twice. */
  lemma SecondTeardownNotifiesAgain(s: State, a: Id, b: Id)
    requires a in s.live && b in s.live && a != b && Paired(s, a, b)
    ensures Run(s, [Input(a, DisconnectChat), Input(a, Disconnect)]).out
      == [Emit(b, StrangerDisconnected), Emit(b, StrangerDisconnected)]
  {
    var i0, i1 := Input(a, DisconnectChat), Input(a, Disconnect);
    var r0 := Step(s, i0);
    var r1 := Step(r0.state, i1);
    assert [i0, i1][1..] == [i1] && [i1][1..] == [];
    assert Run(r0.state, [i1]) == Reaction(r1.state, r1.out);
  }

  /** Worse, the stale second teardown reaches a pairing formed in between:
      `b` moves on to `c`, then `a`'s transport disconnect tells `b` its
      stranger left and clears `b`'s link, while `c` still holds `b`. */
  lemma StaleTeardownBreaksNewPair(s: State, a: Id, b: Id, c: Id, kb: CallType, kc: CallType)
    requires a in s.live && b in s.live && c in s.live
    requires a != b && b != c && a != c
    requires Paired(s, a, b) && s.queue == []
    ensures var r := Run(s, [Input(a, DisconnectChat), Input(b, FindStranger(kb)),
                             Input(c, FindStranger(kc)), Input(a, Disconnect)]);
      && b !in r.state.partner
      && c in r.state.partner && r.state.partner[c] == b
      && r.out[|r.out| - 1] == Emit(b, StrangerDisconnected)
  {
    var i0, i1, i2, i3 := Input(a, DisconnectChat), Input(b, FindStranger(kb)),
                          Input(c, FindStranger(kc)), Input(a, Disconnect);
    var r0 := Step(s, i0);
    assert r0.state.queue == [] && a in r0.state.partner && r0.state.partner[a] == b;
    var r1 := Step(r0.state, i1);
    assert r1.state.queue == [b] && r1.state.partner[a] == b;
    var r2 := Step(r1.state, i2);
    assert Paired(r2.state, b, c) && r2.state.partner[a] == b;
    var r3 := Step(r2.state, i3);
    assert [i0, i1, i2, i3][1..] == [i1, i2, i3] && [i1, i2, i3][1..] == [i2, i3];
    assert [i2, i3][1..] == [i3] && [i3][1..] == [];
    assert Run(r2.state, [i3]) == Reaction(r3.state, r3.out);
    assert Run(r1.state, [i2, i3]) == Reaction(r3.state, r2.out + r3.out);
    assert Run(r0.state, [i1, i2, i3]) == Reaction(r3.state, r1.out + r2.out + r3.out);
  }
}
