// What a multiplexed connection can do: any two byte streams get through, a refused connection ends on both sides,
// and each received message has its effect.  Only runs of the whole system are spoken of.

module MuxComplete {
  import opened Basics
  import opened MuxEnd
  import opened MuxLink
  import opened MuxSystem

  /** Nothing is in flight, and neither dispatch loop is blocked. */
  predicate Quiet(n: Net) {
    n.client.out == [] && n.server.out == [] && n.client.busy == None && n.server.busy == None
  }

  /** No handler, channel or message of connID c exists yet. */
  predicate Fresh(n: Net, c: ConnId) {
    n.client.At(c) == NEW_END && n.server.At(c) == NEW_END
  }

  // ----- Runs in which only one connID moves -----

  /** Since o, one side has changed only its endpoint of c. */
  ghost predicate HostShows(h: Host, o: Host, c: ConnId, e: End, out: seq<Frame>) {
    && (forall d: ConnId :: h.At(d) == if d == c then e else o.At(d))
    && h.out == Tagged(c, out)
    && h.busy == (if e.inc.pipe.Some? then Some(c) else None)
    && h.wg == o.wg + if Live(e.reg) then 1 else 0
  }

  /** Since o, only connID c has moved, and is now in state l. */
  ghost predicate Shows(actions: seq<Action>, o: Net, c: ConnId, l: Link) {
    && HostShows(Run(actions).client, o.client, c, l.client, l.up)
    && HostShows(Run(actions).server, o.server, c, l.server, l.down)
  }

  lemma RunSnoc(actions: seq<Action>, a: Action)
    ensures Run(actions + [a]) == Next(Run(actions), a)
  {
    assert (actions + [a])[..|actions|] == actions;
  }

  lemma TaggedAppend(c: ConnId, fs: seq<Frame>, gs: seq<Frame>)
    ensures Tagged(c, fs) + Tagged(c, gs) == Tagged(c, fs + gs)
  {
  }

  lemma HostTakes(h: Host, o: Host, side: Side, c: ConnId, e: End, out: seq<Frame>, act: Act)
    requires HostShows(h, o, c, e, out) && Local(side, e, act).Some?
    ensures var e' := Local(side, e, act).value;
            && LocalHost(h, side, c, act).Some?
            && HostShows(LocalHost(h, side, c, act).value, o, c, e', out + Emitted(e, e'))
  {
    var e' := Local(side, e, act).value;
    assert h.At(c) == e;
    LocalRegistration(side, e, act);
    LocalPipe(side, e, act);
    TaggedAppend(c, out, Emitted(e, e'));
  }

  /** One of c's goroutines takes a step and sends nothing. */
  lemma Take(before: seq<Action>, o: Net, c: ConnId, l: Link, side: Side, act: Act)
    returns (actions: seq<Action>, l': Link)
    requires Shows(before, o, c, l) && Local(side, l.At(side), act).Some?
    requires Local(side, l.At(side), act).value.out.sent == l.At(side).out.sent
    ensures before <= actions && Shows(actions, o, c, l')
    ensures l' == l.With(side, Local(side, l.At(side), act).value)
  {
    var e := Local(side, l.At(side), act).value;
    l' := l.With(side, e);
    actions := before + [Step(side, c, act)];
    RunSnoc(before, Step(side, c, act));
    HostTakes(Run(before).At(side), o.At(side), side, c, l.At(side), l.From(side), act);
    assert Emitted(l.At(side), e) == [] && l.From(side) + [] == l.From(side);
  }

  /** One of c's goroutines sends frame f. */
  lemma Say(before: seq<Action>, o: Net, c: ConnId, l: Link, side: Side, act: Act, f: Frame)
    returns (actions: seq<Action>, l': Link)
    requires Shows(before, o, c, l) && Local(side, l.At(side), act).Some? && l.From(side) == []
    requires Local(side, l.At(side), act).value.out.sent == l.At(side).out.sent + [f]
    ensures before <= actions && Shows(actions, o, c, l')
    ensures l' == l.With(side, Local(side, l.At(side), act).value).Wire(side, [f])
  {
    var e := Local(side, l.At(side), act).value;
    l' := l.With(side, e).Wire(side, [f]);
    actions := before + [Step(side, c, act)];
    RunSnoc(before, Step(side, c, act));
    HostTakes(Run(before).At(side), o.At(side), side, c, l.At(side), l.From(side), act);
    assert Emitted(l.At(side), e) == [f] && [] + [f] == [f];
  }

  lemma HostReceives(h: Host, o: Host, side: Side, c: ConnId, e: End, out: seq<Frame>, f: Frame)
    requires HostShows(h, o, c, e, out) && e.inc.pipe.None?
    ensures HostShows(ReceiveHost(h, side, Socks(c, f)), o, c, Handle(side, e, f), out)
  {
    assert h.At(c) == e;
  }

  lemma HostSent(h: Host, o: Host, c: ConnId, e: End, f: Frame)
    requires HostShows(h, o, c, e, [f])
    ensures h.out != [] && h.out[0] == Socks(c, f)
    ensures HostShows(h.(out := h.out[1..]), o, c, e, [])
  {
    assert forall d: ConnId :: h.(out := h.out[1..]).At(d) == h.At(d);
  }

  /** A dispatch loop handles c's only message. */
  lemma Deliver(before: seq<Action>, o: Net, c: ConnId, l: Link, side: Side, f: Frame)
    returns (actions: seq<Action>, l': Link)
    requires Shows(before, o, c, l) && l.From(side.Peer()) == [f] && l.At(side).inc.pipe.None?
    ensures before <= actions && Shows(actions, o, c, l')
    ensures l' == l.With(side, Handle(side, l.At(side), f)).Wire(side.Peer(), [])
  {
    l' := l.With(side, Handle(side, l.At(side), f)).Wire(side.Peer(), []);
    actions := before + [Receive(side)];
    RunSnoc(before, Receive(side));
    var n := Run(before);
    HostReceives(n.At(side), o.At(side), side, c, l.At(side), l.From(side), f);
    HostSent(n.At(side.Peer()), o.At(side.Peer()), c, l.At(side.Peer()), f);
  }

  // ----- The phases of one connection -----

  /** An endpoint that relays and holds nothing back. */
  function Relayer(read: seq<byte>, sent: seq<Frame>, sink: seq<byte>, seen: seq<Frame>): End {
    End(Relaying, Linked, 0, None,
        Out(None, false, [], None, Writing, false, read, sent), In(None, [], Copying, sink, sink, seen))
  }

  /** Both ends relay; up has been carried from the client to the server, down the other way. */
  ghost predicate Relays(l: Link, up: seq<byte>, down: seq<byte>) {
    && l.up == [] && l.down == []
    && l.client == Relayer(up, l.client.out.sent, down, l.client.inc.seen)
    && l.server == Relayer(down, l.server.out.sent, up, l.server.inc.seen)
  }

  /** The client asks for a connection, and the server has started a handler for it. */
  lemma Asking(before: seq<Action>, o: Net, c: ConnId) returns (actions: seq<Action>, l: Link)
    requires Shows(before, o, c, NEW_LINK)
    ensures before <= actions && Shows(actions, o, c, l)
    ensures l.client == NEW_END.(pc := Waiting, reg := Linked, out := NEW_END.out.(sent := [Connect]))
    ensures l.server == NEW_END.(pc := Spawned, inc := NEW_END.inc.(seen := [Connect]))
    ensures l.up == [] && l.down == []
  {
    actions, l := Take(before, o, c, NEW_LINK, Client, Handler(Allocate));
    actions, l := Say(actions, o, c, l, Client, Handler(SendConnect(true)), Connect);
    actions, l := Deliver(actions, o, c, l, Server, Connect);
  }

  /** And that has registered its channel. */
  lemma Opening(before: seq<Action>, o: Net, c: ConnId) returns (actions: seq<Action>, l: Link)
    requires Shows(before, o, c, NEW_LINK)
    ensures before <= actions && Shows(actions, o, c, l)
    ensures l.client == NEW_END.(pc := Waiting, reg := Linked, out := NEW_END.out.(sent := [Connect]))
    ensures l.server == NEW_END.(pc := Allocated, reg := Linked, inc := NEW_END.inc.(seen := [Connect]))
    ensures l.up == [] && l.down == []
  {
    actions, l := Asking(before, o, c);
    actions, l := Take(actions, o, c, l, Server, Handler(Allocate));
  }

  lemma Handshake(before: seq<Action>, o: Net, c: ConnId) returns (actions: seq<Action>, l: Link)
    requires Shows(before, o, c, NEW_LINK)
    ensures before <= actions && Shows(actions, o, c, l) && Relays(l, [], [])
  {
    actions, l := Opening(before, o, c);
    actions, l := Say(actions, o, c, l, Server, Handler(DialDone(true)), Ready(true));
    actions, l := Deliver(actions, o, c, l, Client, Ready(true));
    actions, l := Take(actions, o, c, l, Client, Handler(TakeReady));
  }

  /** What one side has read is on the wire as one data frame. */
  lemma Sending(before: seq<Action>, o: Net, c: ConnId, l: Link, side: Side, p: seq<byte>)
    returns (actions: seq<Action>, l': Link)
    requires Shows(before, o, c, l) && 0 < |p| <= READ_BUFFER && l.From(side) == []
    requires var e := l.At(side); e == Relayer(e.out.read, e.out.sent, e.inc.sink, e.inc.seen)
    ensures before <= actions && Shows(actions, o, c, l')
    ensures var e := l.At(side);
            l' == l.With(side, Relayer(e.out.read + p, e.out.sent + [Data(p)], e.inc.sink, e.inc.seen))
                   .Wire(side, [Data(p)])
  {
    actions, l' := Take(before, o, c, l, side, Send(ReadLocal(p)));
    actions, l' := Take(actions, o, c, l', side, Send(Push));
    assert [] + [p] == [p];
    actions, l' := Take(actions, o, c, l', side, Send(TakeOut));
    assert [p][1..] == [];
    actions, l' := Say(actions, o, c, l', side, Send(WriteData(true)), Data(p));
  }

  /** A data frame reaches the local connection behind the peer's channel. */
  lemma Receiving(before: seq<Action>, o: Net, c: ConnId, l: Link, side: Side, p: seq<byte>)
    returns (actions: seq<Action>, l': Link)
    requires Shows(before, o, c, l) && 0 < |p| && l.From(side.Peer()) == [Data(p)]
    requires var e := l.At(side); e == Relayer(e.out.read, e.out.sent, e.inc.sink, e.inc.seen)
    ensures before <= actions && Shows(actions, o, c, l')
    ensures var e := l.At(side);
            l' == l.With(side, Relayer(e.out.read, e.out.sent, e.inc.sink + p, e.inc.seen + [Data(p)]))
                   .Wire(side.Peer(), [])
  {
    actions, l' := Deliver(before, o, c, l, side, Data(p));
    assert p[..|p|] == p && p[|p|..] == [];
    actions, l' := Take(actions, o, c, l', side, Recv(PipeRead(|p|)));
    actions, l' := Take(actions, o, c, l', side, Recv(SinkWrite));
  }

  /** Since both ends had carried up and down, side has also carried the payloads ps to its peer. */
  ghost predicate Carried(l: Link, side: Side, up: seq<byte>, down: seq<byte>, ps: seq<seq<byte>>) {
    if side == Client then Relays(l, up + Flat(ps), down) else Relays(l, up, down + Flat(ps))
  }

  lemma OnePayload(
    before: seq<Action>, o: Net, c: ConnId, l: Link, side: Side, up: seq<byte>, down: seq<byte>,
    ps: seq<seq<byte>>, p: seq<byte>)
    returns (actions: seq<Action>, l': Link)
    requires Shows(before, o, c, l) && Carried(l, side, up, down, ps) && 0 < |p| <= READ_BUFFER
    ensures before <= actions && Shows(actions, o, c, l') && Carried(l', side, up, down, ps + [p])
  {
    FlatSnoc(up, ps, p);
    FlatSnoc(down, ps, p);
    actions, l' := Sending(before, o, c, l, side, p);
    actions, l' := Receiving(actions, o, c, l', side.Peer(), p);
  }

  lemma NoneCarried(l: Link, side: Side, up: seq<byte>, down: seq<byte>)
    requires Relays(l, up, down)
    ensures Carried(l, side, up, down, [])
  {
    assert up + [] == up && down + [] == down;
  }

  predicate Readable(ps: seq<seq<byte>>) {
    forall i | 0 <= i < |ps| :: 0 < |ps[i]| <= READ_BUFFER
  }

  /** Everything that one side reads is written by the other: the first k payloads. */
  lemma {:induction false} Stream(
    before: seq<Action>, o: Net, c: ConnId, l: Link, side: Side, up: seq<byte>, down: seq<byte>, ps: seq<seq<byte>>,
    k: nat)
    returns (actions: seq<Action>, l': Link)
    requires Shows(before, o, c, l) && Carried(l, side, up, down, []) && Readable(ps) && k <= |ps|
    ensures before <= actions && Shows(actions, o, c, l') && Carried(l', side, up, down, ps[..k])
  {
    if k == 0 {
      actions, l' := before, l;
    } else {
      actions, l' := Stream(before, o, c, l, side, up, down, ps, k - 1);
      assert ps[..k] == ps[..k - 1] + [ps[k - 1]];
      actions, l' := OnePayload(actions, o, c, l', side, up, down, ps[..k - 1], ps[k - 1]);
    }
  }

  lemma FlatSnoc(start: seq<byte>, ps: seq<seq<byte>>, p: seq<byte>)
    ensures start + Flat(ps + [p]) == (start + Flat(ps)) + p
  {
    FlatAppend(ps, [p]);
    assert Flat([p]) == p + Flat([p][1..]);
  }

  /** One side's local connection is at its end, and the relay sends Close. */
  lemma EndSends(before: seq<Action>, o: Net, c: ConnId, l: Link, side: Side)
    returns (actions: seq<Action>, l': Link)
    requires Shows(before, o, c, l) && l.From(side) == []
    requires var e := l.At(side);
             e.pc == Relaying && e.out == NEW_END.out.(read := e.out.read, sent := e.out.sent)
    ensures before <= actions && Shows(actions, o, c, l')
    ensures var e := l.At(side);
            var out := e.out.(eof := true, writer := Finished, sent := e.out.sent + [Close]);
            l' == l.With(side, e.(pc := Closing, out := out)).Wire(side, [Close])
  {
    actions, l' := Take(before, o, c, l, side, Send(ReadEof));
    actions, l' := Take(actions, o, c, l', side, Send(WriterExit));
    actions, l' := Say(actions, o, c, l', side, Handler(SendClose(true)), Close);
  }

  /** The Close takes down the channel, and the copy ends. */
  lemma EndReceives(before: seq<Action>, o: Net, c: ConnId, l: Link, side: Side)
    returns (actions: seq<Action>, l': Link)
    requires Shows(before, o, c, l) && l.From(side.Peer()) == [Close]
    requires var e := l.At(side); e.reg == Linked && e.inc.copier == Copying && e.inc.buf == [] && e.inc.pipe == None
    ensures before <= actions && Shows(actions, o, c, l')
    ensures var e := l.At(side);
            var inc := e.inc.(copier := AtEof, seen := e.inc.seen + [Close]);
            l' == l.With(side, e.(reg := Torn(PeerClose), closes := e.closes + 1, inc := inc)).Wire(side.Peer(), [])
  {
    actions, l' := Deliver(before, o, c, l, side, Close);
    actions, l' := Take(actions, o, c, l', side, Handler(Teardown));
    actions, l' := Take(actions, o, c, l', side, Recv(CopyEof));
  }

  /** The handler returns after both its goroutines have. */
  lemma Leave(before: seq<Action>, o: Net, c: ConnId, l: Link, side: Side)
    returns (actions: seq<Action>, l': Link)
    requires Shows(before, o, c, l)
    requires l.At(side).pc == Closing && l.At(side).inc.copier == AtEof && l.At(side).reg == Torn(PeerClose)
    ensures before <= actions && Shows(actions, o, c, l') && l' == l.With(side, l.At(side).(pc := Gone))
  {
    actions, l' := Take(before, o, c, l, side, Handler(RelayEnd));
    actions, l' := Take(actions, o, c, l', side, Handler(Remove));
  }

  /** Both sides close, one after the other, and both handlers return. */
  lemma Shutting(before: seq<Action>, o: Net, c: ConnId, l: Link, up: seq<byte>, down: seq<byte>)
    returns (actions: seq<Action>, l': Link)
    requires Shows(before, o, c, l) && Relays(l, up, down)
    ensures before <= actions && Shows(actions, o, c, l') && l'.up == [] && l'.down == []
    ensures Closed(l'.client, up, down) && Closed(l'.server, down, up)
  {
    actions, l' := EndSends(before, o, c, l, Client);
    actions, l' := EndReceives(actions, o, c, l', Server);
    actions, l' := EndSends(actions, o, c, l', Server);
    actions, l' := EndReceives(actions, o, c, l', Client);
    actions, l' := Leave(actions, o, c, l', Client);
    actions, l' := Leave(actions, o, c, l', Server);
  }

  /** An endpoint whose local connection gave read and took sink, and that both sides have ended. */
  predicate Closed(e: End, read: seq<byte>, sink: seq<byte>) {
    && e.out.read == read && e.out.eof && !e.out.broken && e.inc.sink == sink && e.inc.copier == AtEof
    && e.inc.pipe == None && e.reg == Torn(PeerClose) && e.closes == 1 && e.pc == Gone
  }

  // ----- Main results -----

  /** All connections but c are as they were, and nothing is left to do. */
  ghost predicate Undisturbed(n: Net, n': Net, c: ConnId) {
    && Quiet(n') && n'.client.wg == n.client.wg && n'.server.wg == n.server.wg
    && forall d: ConnId | d != c :: n'.client.At(d) == n.client.At(d) && n'.server.At(d) == n.server.At(d)
  }

  lemma FreshShows(before: seq<Action>, c: ConnId)
    requires Quiet(Run(before)) && Fresh(Run(before), c)
    ensures Shows(before, Run(before), c, NEW_LINK)
  {
  }

  lemma Finish(actions: seq<Action>, o: Net, c: ConnId, l: Link)
    requires Shows(actions, o, c, l) && l.up == [] && l.down == []
    requires l.client.inc.pipe == None && l.server.inc.pipe == None && !Live(l.client.reg) && !Live(l.server.reg)
    ensures Run(actions).client.At(c) == l.client && Run(actions).server.At(c) == l.server
    ensures Undisturbed(o, Run(actions), c)
  {
  }

  lemma Extended(before: seq<Action>, actions: seq<Action>) returns (more: seq<Action>)
    requires before <= actions
    ensures actions == before + more
  {
    more := actions[|before|..];
  }

  /** Whatever ran before, once it is quiet any two lists of payloads can be exchanged over a new connID: each end
      reads and writes exactly these, both copies end by end-of-file after the peer's Close, both handlers return, and
      no other connection notices. */
  lemma AnyStreamsGetThrough(before: seq<Action>, c: ConnId, ups: seq<seq<byte>>, downs: seq<seq<byte>>)
    returns (more: seq<Action>)
    requires Quiet(Run(before)) && Fresh(Run(before), c)
    requires forall p | p in ups + downs :: 0 < |p| <= 32768
    ensures var n := Run(before + more);
            Closed(n.client.At(c), Flat(ups), Flat(downs)) && Closed(n.server.At(c), Flat(downs), Flat(ups))
    ensures Undisturbed(Run(before), Run(before + more), c)
  {
    FreshShows(before, c);
    assert forall i | 0 <= i < |ups| :: ups[i] in ups + downs;
    assert forall i | 0 <= i < |downs| :: downs[i] in ups + downs;
    var actions, l := Exchange(before, Run(before), c, ups, downs);
    Finish(actions, Run(before), c, l);
    more := Extended(before, actions);
  }

  lemma Exchange(before: seq<Action>, o: Net, c: ConnId, ups: seq<seq<byte>>, downs: seq<seq<byte>>)
    returns (actions: seq<Action>, l: Link)
    requires Shows(before, o, c, NEW_LINK) && Readable(ups) && Readable(downs)
    ensures before <= actions && Shows(actions, o, c, l) && l.up == [] && l.down == []
    ensures Closed(l.client, Flat(ups), Flat(downs)) && Closed(l.server, Flat(downs), Flat(ups))
  {
    actions, l := Handshake(before, o, c);
    NoneCarried(l, Client, [], []);
    actions, l := Stream(actions, o, c, l, Client, [], [], ups, |ups|);
    assert ups[..|ups|] == ups && [] + Flat(ups) == Flat(ups);
    NoneCarried(l, Server, Flat(ups), []);
    actions, l := Stream(actions, o, c, l, Server, Flat(ups), [], downs, |downs|);
    assert downs[..|downs|] == downs && [] + Flat(downs) == Flat(downs);
    actions, l := Shutting(actions, o, c, l, Flat(ups), Flat(downs));
  }

  /** A connection that the server cannot make ends on both sides, without a byte and without a trace. */
  lemma RefusalEndsBoth(before: seq<Action>, c: ConnId) returns (more: seq<Action>)
    requires Quiet(Run(before)) && Fresh(Run(before), c)
    ensures Refused(Run(before + more).client.At(c), true) && Refused(Run(before + more).server.At(c), true)
    ensures Undisturbed(Run(before), Run(before + more), c)
  {
    FreshShows(before, c);
    var actions, l := Refusal(before, Run(before), c);
    Finish(actions, Run(before), c, l);
    more := Extended(before, actions);
  }

  /** How an endpoint ends that never relayed; born says that its channel was registered. */
  predicate Refused(e: End, born: bool) {
    && e.pc == Gone && e.inc.copier == NotStarted && e.inc.sink == [] && e.out.read == [] && e.inc.pipe == None
    && (if born then e.reg == Torn(OwnRemove) && e.closes == 1 else e.reg == Unborn && e.closes == 0)
  }

  lemma Refusal(before: seq<Action>, o: Net, c: ConnId) returns (actions: seq<Action>, l: Link)
    requires Shows(before, o, c, NEW_LINK)
    ensures before <= actions && Shows(actions, o, c, l) && l.up == [] && l.down == []
    ensures Refused(l.client, true) && Refused(l.server, true)
  {
    actions, l := Opening(before, o, c);
    actions, l := Say(actions, o, c, l, Server, Handler(DialFail(true)), Ready(false));
    actions, l := Vanish(actions, o, c, l, Server);
    actions, l := NotReady(actions, o, c, l);
  }

  /** The client hears that its connection could not be made. */
  lemma NotReady(before: seq<Action>, o: Net, c: ConnId, l: Link) returns (actions: seq<Action>, l': Link)
    requires Shows(before, o, c, l) && l.down == [Ready(false)]
    requires l.client == NEW_END.(pc := Waiting, reg := Linked, out := NEW_END.out.(sent := [Connect]))
    ensures before <= actions && Shows(actions, o, c, l')
    ensures Refused(l'.client, true) && l'.server == l.server && l'.up == l.up && l'.down == []
  {
    actions, l' := Deliver(before, o, c, l, Client, Ready(false));
    actions, l' := Take(actions, o, c, l', Client, Handler(TakeReady));
    actions, l' := Vanish(actions, o, c, l', Client);
  }

  lemma Rejection(before: seq<Action>, o: Net, c: ConnId) returns (actions: seq<Action>, l: Link)
    requires Shows(before, o, c, NEW_LINK)
    ensures before <= actions && Shows(actions, o, c, l) && l.up == [] && l.down == []
    ensures Refused(l.client, true) && Refused(l.server, false)
  {
    actions, l := Asking(before, o, c);
    actions, l := Say(actions, o, c, l, Server, Handler(RejectTarget(true)), Ready(false));
    actions, l := NotReady(actions, o, c, l);
  }

  /** So does one whose target the server rejects, for which it registers nothing. */
  lemma RejectionEndsBoth(before: seq<Action>, c: ConnId) returns (more: seq<Action>)
    requires Quiet(Run(before)) && Fresh(Run(before), c)
    ensures Refused(Run(before + more).client.At(c), true) && Refused(Run(before + more).server.At(c), false)
    ensures Undisturbed(Run(before), Run(before + more), c)
  {
    FreshShows(before, c);
    var actions, l := Rejection(before, Run(before), c);
    Finish(actions, Run(before), c, l);
    more := Extended(before, actions);
  }

  /** The handler removes its channel and tears it down. */
  lemma Vanish(before: seq<Action>, o: Net, c: ConnId, l: Link, side: Side)
    returns (actions: seq<Action>, l': Link)
    requires Shows(before, o, c, l) && l.At(side).pc == Leaving && l.At(side).reg == Linked
    ensures before <= actions && Shows(actions, o, c, l')
    ensures var e := l.At(side); l' == l.With(side, e.(pc := Gone, reg := Torn(OwnRemove), closes := e.closes + 1))
  {
    actions, l' := Take(before, o, c, l, side, Handler(Remove));
    actions, l' := Take(actions, o, c, l', side, Handler(Teardown));
  }

  // ----- What each message does, after any run -----

  /** side's dispatch loop is free, and this is the next message for it. */
  predicate NextIs(n: Net, side: Side, c: ConnId, f: Frame) {
    n.At(side).busy == None && n.At(side.Peer()).out != [] && n.At(side.Peer()).out[0] == Socks(c, f)
  }

  lemma ReceiveIs(before: seq<Action>, side: Side, c: ConnId, f: Frame)
    requires NextIs(Run(before), side, c, f)
    ensures Run(before + [Receive(side)]).At(side).At(c) == Handle(side, Run(before).At(side).At(c), f)
  {
    RunSnoc(before, Receive(side));
  }

  lemma StepIs(before: seq<Action>, side: Side, c: ConnId, act: Act)
    ensures var h, h' := Run(before).At(side), Run(before + [Step(side, c, act)]).At(side);
            var e' := Local(side, h.At(c), act);
            if e'.None? then h' == h
            else h'.At(c) == e'.value && h'.wg == h.wg + WgDelta(h.At(c).reg, e'.value.reg)
                 && h'.busy == if h.busy == Some(c) && e'.value.inc.pipe.None? then None else h.busy
  {
    RunSnoc(before, Step(side, c, act));
  }

  /** A waiting client whose next message is Ready has not had one before. */
  lemma WaitingForReady(before: seq<Action>, c: ConnId, ok: bool)
    requires NextIs(Run(before), Client, c, Ready(ok))
    ensures Run(before).client.At(c).readyCh == None && Run(before).client.At(c).inc.copier == NotStarted
  {
    RunKeeps(before);
    FirstIsReady(View(Run(before), c));
  }

  /** Receiving takes one message off the FIFO and touches no endpoint but the one it is about, and of that neither the
      sending half nor the local writes. */
  lemma ReceiveTouchesOne(before: seq<Action>, side: Side, c: ConnId, f: Frame)
    requires NextIs(Run(before), side, c, f)
    ensures var n, n' := Run(before), Run(before + [Receive(side)]);
            && n'.At(side.Peer()) == n.At(side.Peer()).(out := n.At(side.Peer()).out[1..])
            && n'.At(side).out == n.At(side).out && n'.At(side).wg == n.At(side).wg
            && (forall d: ConnId | d != c :: n'.At(side).At(d) == n.At(side).At(d))
            && var e, e' := n.At(side).At(c), n'.At(side).At(c);
            e'.out == e.out && e'.inc.seen == e.inc.seen + [f]
            && e'.inc.sink == e.inc.sink && e'.inc.got == e.inc.got && e'.inc.copier == e.inc.copier
  {
    RunSnoc(before, Receive(side));
  }

  /** Connect starts a handler on the server. */
  lemma ConnectSpawns(before: seq<Action>, c: ConnId)
    requires NextIs(Run(before), Server, c, Connect)
    ensures Run(before + [Receive(Server)]).server.At(c).pc == Spawned
  {
    ReceiveIs(before, Server, c, Connect);
    RunKeeps(before);
    FirstIsConnect(View(Run(before), c));
  }

  /** A ready signal reaches the waiting client: its relay starts if the server is connected, and its handler leaves
      otherwise. */
  lemma ReadyDecides(before: seq<Action>, c: ConnId, ok: bool)
    requires NextIs(Run(before), Client, c, Ready(ok))
    requires Run(before).client.At(c).pc == Waiting && Run(before).client.At(c).reg == Linked
    ensures var e := Run(before + [Receive(Client)] + [Step(Client, c, Handler(TakeReady))]).client.At(c);
            if ok then e.pc == Relaying && e.inc.copier == Copying else e.pc == Leaving && e.inc.copier == NotStarted
  {
    WaitingForReady(before, c, ok);
    ReceiveIs(before, Client, c, Ready(ok));
    StepIs(before + [Receive(Client)], Client, c, Handler(TakeReady));
  }

  /** Data for a channel in the map is offered to its pipe, and the dispatch loop waits for that; other data is
      dropped. */
  lemma DataIsOffered(before: seq<Action>, side: Side, c: ConnId, p: seq<byte>)
    requires NextIs(Run(before), side, c, Data(p))
    ensures var e, e' := Run(before).At(side).At(c), Run(before + [Receive(side)]).At(side).At(c);
            && e'.pc == e.pc && e'.reg == e.reg && e'.readyCh == e.readyCh
            && e'.inc.pipe == (if e.reg == Linked then Some(p) else None)
            && Run(before + [Receive(side)]).At(side).busy == (if e.reg == Linked then Some(c) else None)
  {
    RunSnoc(before, Receive(side));
    RunKeeps(before);
    assert Run(before).At(side).At(c).inc.pipe.Some? <==> Run(before).At(side).busy == Some(c);
  }

  /** Close takes the channel out of the map, if it is still there, and leaves the handler alone. */
  lemma CloseUnlinks(before: seq<Action>, side: Side, c: ConnId)
    requires NextIs(Run(before), side, c, Close)
    ensures var e, e' := Run(before).At(side).At(c), Run(before + [Receive(side)]).At(side).At(c);
            e'.pc == e.pc && e'.readyCh == e.readyCh && e'.reg == if e.reg == Linked then Unlinked(PeerClose) else e.reg
  {
    RunSnoc(before, Receive(side));
  }

  /** CloseAll takes every channel out of the map and does nothing else. */
  lemma CloseAllUnlinks(before: seq<Action>, side: Side, c: ConnId)
    ensures var n, n' := Run(before), Run(before + [CloseAll(side)]);
            && n'.At(side.Peer()) == n.At(side.Peer()) && n'.At(side).out == n.At(side).out
            && n'.At(side).busy == n.At(side).busy && n'.At(side).wg == n.At(side).wg
            && var e := n.At(side).At(c);
            n'.At(side).At(c) == e.(reg := if e.reg == Linked then Unlinked(Shutdown) else e.reg)
  {
    RunSnoc(before, CloseAll(side));
  }

  /** Whoever took a channel out of the map, its teardown can follow. */
  lemma TeardownFollows(before: seq<Action>, side: Side, c: ConnId)
    requires Run(before).At(side).At(c).reg.Unlinked?
    ensures var h, h' := Run(before).At(side), Run(before + [Step(side, c, Handler(Teardown))]).At(side);
            h'.At(c).reg == Torn(h.At(c).reg.cause) && h'.At(c).closes == 1 && h'.wg == h.wg - 1
  {
    ClosesAndBusy(before, side, c);
    StepIs(before, side, c, Handler(Teardown));
  }

  /** Then the dispatch loop is released if it was blocked ... */
  lemma TeardownReleases(before: seq<Action>, side: Side, c: ConnId)
    requires Run(before).At(side).At(c).reg.Torn?
    ensures var h, h' := Run(before).At(side), Run(before + [Step(side, c, Recv(PipeAbort))]).At(side);
            && h'.At(c).inc.pipe == None && h'.busy == (if h.busy == Some(c) then None else h.busy)
            && h'.At(c).inc.sink == h.At(c).inc.sink
  {
    ClosesAndBusy(before, side, c);
    StepIs(before, side, c, Recv(PipeAbort));
  }

  /** ... and a copy with nothing left in its hands ends by end-of-file. */
  lemma TeardownEndsCopy(before: seq<Action>, side: Side, c: ConnId)
    requires Run(before).At(side).At(c).reg.Torn?
    ensures var i := Run(before).At(side).At(c).inc;
            var i' := Run(before + [Step(side, c, Recv(CopyEof))]).At(side).At(c).inc;
            i'.copier == if i.copier == Copying && i.buf == [] then AtEof else i.copier
  {
    StepIs(before, side, c, Recv(CopyEof));
  }

  lemma ClosesAndBusy(before: seq<Action>, side: Side, c: ConnId)
    ensures var h := Run(before).At(side);
            && h.At(c).closes == (if h.At(c).reg.Torn? then 1 else 0)
            && (h.At(c).inc.pipe.Some? <==> h.busy == Some(c))
  {
    RunKeeps(before);
    assert EndInv(side, View(Run(before), c).At(side));
  }

  /** A failed local write ends the receive copy, with what it has written. */
  lemma LocalWriteFails(before: seq<Action>, side: Side, c: ConnId, n: nat)
    requires var i := Run(before).At(side).At(c).inc; i.copier == Copying && i.buf != [] && n <= |i.buf|
    ensures var i := Run(before).At(side).At(c).inc;
            var i' := Run(before + [Step(side, c, Recv(SinkFail(n)))]).At(side).At(c).inc;
            i'.copier == SinkFailed && i'.sink == i.sink + i.buf[..n]
  {
    StepIs(before, side, c, Recv(SinkFail(n)));
  }

  /** A payload that was read joins the queue to the mux writer unless that holds 64, which is as many as it ever
      does. */
  lemma QueueTakes(before: seq<Action>, side: Side, c: ConnId)
    requires Run(before).At(side).At(c).pc == Relaying && Run(before).At(side).At(c).out.aHand.Some?
    ensures var o := Run(before).At(side).At(c).out;
            var o' := Run(before + [Step(side, c, Send(Push))]).At(side).At(c).out;
            && |o.queue| <= 64
            && o' == if |o.queue| == 64 then o else o.(queue := o.queue + [o.aHand.value], aHand := None)
  {
    QueueBound(before, side, c);
    StepIs(before, side, c, Send(Push));
  }

  lemma QueueBound(before: seq<Action>, side: Side, c: ConnId)
    ensures |Run(before).At(side).At(c).out.queue| <= 64
  {
    RunKeeps(before);
    assert EndInv(side, View(Run(before), c).At(side));
  }

  /** A ready signal is kept exactly by a client whose channel is in the map and that has none yet. */
  lemma ReadyIsKept(before: seq<Action>, side: Side, c: ConnId, ok: bool)
    requires NextIs(Run(before), side, c, Ready(ok))
    ensures var e, e' := Run(before).At(side).At(c), Run(before + [Receive(side)]).At(side).At(c);
            && e'.readyCh == (if side == Client && e.reg == Linked && e.readyCh == None then Some(ok) else e.readyCh)
            && e'.pc == e.pc && e'.reg == e.reg
  {
    ReceiveIs(before, side, c, Ready(ok));
  }

  /** Messages that are not about SOCKS connections only take their place in the FIFO. */
  lemma OthersPass(before: seq<Action>, side: Side)
    ensures var n, n' := Run(before), Run(before + [WriteOther(side)]);
            n'.At(side) == n.At(side).(out := n.At(side).out + [Other]) && n'.At(side.Peer()) == n.At(side.Peer())
    ensures var n, n' := Run(before), Run(before + [Receive(side)]); var peer := n.At(side.Peer());
            n.At(side).busy == None && peer.out != [] && peer.out[0] == Other ==>
              n'.At(side) == n.At(side) && n'.At(side.Peer()) == peer.(out := peer.out[1..])
  {
    RunSnoc(before, WriteOther(side));
    RunSnoc(before, Receive(side));
  }
}
