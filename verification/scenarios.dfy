/** The behaviour the server is meant to show to two well-behaved clients:
    strict arrival-order pairing, relaying to the stranger only, and the
    stranger being unpaired when its partner leaves. */
module Scenarios {
  import opened Types
  import opened Server

  /** Four requests on an empty queue pair the first two, then the last
      two, each side learning the other's call type. */
  lemma FifoPairing(s: State, a: Id, b: Id, c: Id, d: Id, ka: CallType, kb: CallType, kc: CallType, kd: CallType)
    requires a in s.live && b in s.live && c in s.live && d in s.live
    requires a != b && c != d && s.queue == []
    ensures var r := Run(s, [Input(a, FindStranger(ka)), Input(b, FindStranger(kb)),
                             Input(c, FindStranger(kc)), Input(d, FindStranger(kd))]);
      && r.out == [Emit(a, StrangerFound(b, Some(kb))), Emit(b, StrangerFound(a, Some(ka))),
                   Emit(c, StrangerFound(d, Some(kd))), Emit(d, StrangerFound(c, Some(kc)))]
      && r.state.queue == []
      && Paired(r.state, c, d)
  {
    var i0, i1, i2, i3 := Input(a, FindStranger(ka)), Input(b, FindStranger(kb)),
                          Input(c, FindStranger(kc)), Input(d, FindStranger(kd));
    var r0 := Step(s, i0);
    assert r0.state.queue == [a] && r0.out == [];
    var r1 := Step(r0.state, i1);
    assert r1.state.queue == [];
    var r2 := Step(r1.state, i2);
    assert r2.state.queue == [c] && r2.out == [];
    var r3 := Step(r2.state, i3);
    assert r3.state.queue == [];
    assert [i0, i1, i2, i3][1..] == [i1, i2, i3] && [i1, i2, i3][1..] == [i2, i3];
    assert [i2, i3][1..] == [i3] && [i3][1..] == [];
    assert Run(r2.state, [i3]) == Reaction(r3.state, r3.out);
    assert Run(r1.state, [i2, i3]) == Reaction(r3.state, r2.out + r3.out);
    assert Run(r0.state, [i1, i2, i3]) == Reaction(r3.state, r1.out + r2.out + r3.out);
  }

  /** Three requests on an empty queue leave exactly the third waiting. */
  lemma OddOneOut(s: State, a: Id, b: Id, c: Id, ka: CallType, kb: CallType, kc: CallType)
    requires a in s.live && b in s.live && c in s.live
    requires a != b && s.queue == []
    ensures Run(s, [Input(a, FindStranger(ka)), Input(b, FindStranger(kb)),
                    Input(c, FindStranger(kc))]).state.queue == [c]
  {
    var i0, i1, i2 := Input(a, FindStranger(ka)), Input(b, FindStranger(kb)),
                      Input(c, FindStranger(kc));
    var r0 := Step(s, i0);
    assert r0.state.queue == [a];
    var r1 := Step(r0.state, i1);
    assert r1.state.queue == [];
    var r2 := Step(r1.state, i2);
    assert [i0, i1, i2][1..] == [i1, i2] && [i1, i2][1..] == [i2] && [i2][1..] == [];
    assert Run(r1.state, [i2]) == Reaction(r2.state, r2.out);
    assert Run(r0.state, [i1, i2]) == Reaction(r2.state, r1.out + r2.out);
  }

  /** Two fresh clients, one asking for video and one for audio, are paired
      with each other, each told the other's call type; nobody is left
      waiting. */
  lemma VideoMeetsAudio(x: Id, y: Id)
    requires x != y
    ensures var r := Run(Init, [Input(x, Connect), Input(y, Connect),
                                Input(x, FindStranger("video")), Input(y, FindStranger("audio"))]);
      && r.out == [Emit(x, StrangerFound(y, Some("audio"))), Emit(y, StrangerFound(x, Some("video")))]
      && r.state.queue == []
      && Paired(r.state, x, y)
  {
    var i0, i1, i2, i3 := Input(x, Connect), Input(y, Connect),
                          Input(x, FindStranger("video")), Input(y, FindStranger("audio"));
    var r0 := Step(Init, i0);
    var r1 := Step(r0.state, i1);
    assert r1.state.live == {x, y} && r1.state.queue == [] && r1.out == [];
    var r2 := Step(r1.state, i2);
    assert r2.state.queue == [x] && r2.out == [];
    var r3 := Step(r2.state, i3);
    assert [i0, i1, i2, i3][1..] == [i1, i2, i3] && [i1, i2, i3][1..] == [i2, i3];
    assert [i2, i3][1..] == [i3] && [i3][1..] == [];
    assert Run(r2.state, [i3]) == Reaction(r3.state, r3.out);
    assert Run(r1.state, [i2, i3]) == Reaction(r3.state, r2.out + r3.out);
    assert Run(r0.state, [i1, i2, i3]) == Reaction(r3.state, r1.out + r2.out + r3.out);
  }

  /** A chat message reaches the sender's stranger and nobody else, and
      changes nothing. Only the sender's own link matters, so this holds for
      a one-sided link too. */
  lemma MessageReachesOnlyStranger(s: State, x: Id, y: Id, text: string)
    requires x in s.live && x in s.partner && s.partner[x] == y
    ensures Step(s, Input(x, SendMessage(text))) == Reaction(s, [Emit(y, NewMessage(text))])
  {
  }

  /** Relaying from a socket with no stranger emits nothing and changes
      nothing. */
  lemma UnpairedRelayIsSilent(s: State, x: Id, e: Event)
    requires x !in s.partner
    requires e.SendMessage? || e.MediaStatusChanged?
    ensures Step(s, Input(x, e)) == Reaction(s, [])
  {
  }

  /** When one side of a pair drops, the other is told, is unpaired, and
      its next message goes nowhere. */
  lemma StrangerLeaves(s: State, x: Id, y: Id, text: string)
    requires x in s.live && y in s.live && x != y && Paired(s, x, y)
    ensures var r := Step(s, Input(y, Disconnect));
      && r.out == [Emit(x, StrangerDisconnected)]
      && x !in r.state.partner
      && Step(r.state, Input(x, SendMessage(text))).out == []
  {
  }
}
