// Both endpoints of one connID and the frames in flight between them.  All
// other connIDs only share the FIFO; MuxSystem shows that this is all they do.

module MuxLink {
  import opened Basics
  import opened MuxEnd

  /** up holds the client's frames still in flight to the server, down the server's to the client. */
  datatype Link = Link(client: End, server: End, up: seq<Frame>, down: seq<Frame>) {
    function At(side: Side): End {
      if side == Client then client else server
    }

    /** Frames sent by side and not yet handled by its peer. */
    function From(side: Side): seq<Frame> {
      if side == Client then up else down
    }

    function With(side: Side, e: End): Link {
      if side == Client then this.(client := e) else this.(server := e)
    }

    function Wire(side: Side, fs: seq<Frame>): Link {
      if side == Client then this.(up := fs) else this.(down := fs)
    }
  }

  const NEW_LINK := Link(NEW_END, NEW_END, [], [])

  /** One of side's goroutines takes a step; the frames it sent join the FIFO. */
  function Go(l: Link, side: Side, a: Act): Option<Link> {
    var e := l.At(side);
    var e' := Local(side, e, a);
    if e'.None? then None
    else Some(l.With(side, e'.value).Wire(side, l.From(side) + Emitted(e, e'.value)))
  }

  /** Frames a step put on the control connection. */
  function Emitted(e: End, e': End): seq<Frame> {
    if |e.out.sent| <= |e'.out.sent| then e'.out.sent[|e.out.sent|..] else []
  }

  /** side's dispatch loop handles the oldest frame of its peer. */
  function Dispatch(l: Link, side: Side): Option<Link> {
    var fs := l.From(side.Peer());
    if fs == [] || l.At(side).inc.pipe.Some? then None
    else Some(l.With(side, Handle(side, l.At(side), fs[0])).Wire(side.Peer(), fs[1..]))
  }

  /** side's CloseAll deletes the map entry. */
  function Drop(l: Link, side: Side): Link {
    var e := l.At(side);
    l.With(side, e.(reg := Unlink(e.reg, Shutdown)))
  }

  ghost predicate LinkStep(l: Link, l': Link) {
    || l' == l
    || (exists side, a :: Go(l, side, a) == Some(l'))
    || (exists side :: Dispatch(l, side) == Some(l'))
    || (exists side :: Drop(l, side) == l')
  }

  /** Every frame sent is either handled or in flight, in order. */
  ghost predicate Fifo(l: Link) {
    && l.client.out.sent == l.server.inc.seen + l.up
    && l.server.out.sent == l.client.inc.seen + l.down
  }

  /** The server acts on Connect; the client relays only after Ready. */
  ghost predicate Causal(l: Link) {
    && (l.server.pc == Idle <==> l.server.inc.seen == [])
    && (l.server.inc.seen == [] ==> l.server.out.sent == [])
    && (l.client.readyCh.Some? ==>
          l.client.inc.seen != [] && l.client.inc.seen[0] == Ready(l.client.readyCh.value))
    && (l.client.inc.copier != NotStarted ==> l.client.inc.seen != [] && l.client.inc.seen[0] == Ready(true))
  }

  ghost predicate LinkInv(l: Link) {
    EndInv(Client, l.client) && EndInv(Server, l.server) && Fifo(l) && Causal(l)
  }

  lemma NewLinkOk()
    ensures LinkInv(NEW_LINK)
  {
    NewEndOk(Client);
    NewEndOk(Server);
  }

  /** Frames handled are an initial part of the frames sent, so they obey the sender's grammar. */
  lemma SeenFirst(l: Link)
    requires LinkInv(l)
    ensures l.server.inc.seen != [] ==> l.client.out.sent != [] && l.server.inc.seen[0] == l.client.out.sent[0]
    ensures l.client.inc.seen != [] ==> l.server.out.sent != [] && l.client.inc.seen[0] == l.server.out.sent[0]
  {
  }

  /** A relaying client has heard Ready, which the server sends only after NewChannel. */
  lemma RelayingClientHasServer(l: Link)
    requires LinkInv(l) && l.client.inc.copier != NotStarted
    ensures l.server.reg != Unborn
  {
    SeenFirst(l);
    assert Opened(Server, l.server.out.sent);
  }

  /** A server that has spoken has heard Connect, which the client sends only after NewChannel. */
  lemma SpeakingServerHasClient(l: Link)
    requires LinkInv(l) && l.server.out.sent != []
    ensures l.client.reg != Unborn
  {
    SeenFirst(l);
    assert Opened(Client, l.client.out.sent);
  }

  lemma RelayedMeansRegistered(l: Link, side: Side)
    requires LinkInv(l)
    requires l.At(side.Peer()).inc.copier != NotStarted && l.At(side.Peer()).out.sent != []
    ensures l.At(side).reg != Unborn
  {
    if side == Server { RelayingClientHasServer(l); } else { SpeakingServerHasClient(l); }
  }

  /** What is in flight was sent after what has been handled. */
  lemma NextSent(l: Link, side: Side)
    requires Fifo(l) && l.From(side) != []
    ensures var k, sent := |l.At(side.Peer()).inc.seen|, l.At(side).out.sent;
            k < |sent| && sent[k] == l.From(side)[0] && sent[..k] == l.At(side.Peer()).inc.seen
  {
  }

  /** Registration precedes data, on both sides: no frame can arrive for a channel not yet allocated. */
  lemma DataFindsChannel(l: Link, side: Side)
    requires LinkInv(l)
    requires l.From(side.Peer()) != [] && l.From(side.Peer())[0].Data?
    ensures l.At(side).reg != Unborn && Close !in l.At(side).inc.seen
  {
    var x, seen := l.At(side.Peer()), l.At(side).inc.seen;
    assert side.Peer().Peer() == side;
    NextSent(l, side.Peer());
    DataMeansRelayed(side.Peer(), x, |seen|);
    RelayedMeansRegistered(l, side);
    if Close in seen {
      var j :| 0 <= j < |seen| && seen[j] == Close;
      assert x.out.sent[j] == x.out.sent[..|seen|][j];
      CloseIsLast(side.Peer(), x.out.sent, j);
    }
  }

  lemma SentGrows(sent: seq<Frame>, sent': seq<Frame>, seen: seq<Frame>, flight: seq<Frame>)
    requires sent <= sent' && sent == seen + flight
    ensures sent' == seen + (flight + sent'[|sent|..])
  {
  }

  lemma ActFifo(l: Link, side: Side, a: Act)
    requires Fifo(l) && Go(l, side, a).Some?
    ensures Fifo(Go(l, side, a).value)
  {
    LocalHistory(side, l.At(side), a);
    var e, e' := l.At(side), Local(side, l.At(side), a).value;
    SentGrows(e.out.sent, e'.out.sent, l.At(side.Peer()).inc.seen, l.From(side));
  }

  lemma ActCausal(l: Link, side: Side, a: Act)
    requires LinkInv(l) && Go(l, side, a).Some?
    ensures Causal(Go(l, side, a).value)
  {
    LocalHistory(side, l.At(side), a);
    if side == Server { ServerStepsAfterConnect(l.server, a); } else { ClientRelaysOnReady(l.client, a); }
  }

  lemma ActKeeps(l: Link, side: Side, a: Act)
    requires LinkInv(l) && Go(l, side, a).Some?
    ensures LinkInv(Go(l, side, a).value)
  {
    LocalKeeps(side, l.At(side), a);
    ActFifo(l, side, a);
    ActCausal(l, side, a);
  }

  lemma DispatchFifo(l: Link, side: Side)
    requires Fifo(l) && Dispatch(l, side).Some?
    ensures Fifo(Dispatch(l, side).value)
  {
    var fs := l.From(side.Peer());
    assert fs == [fs[0]] + fs[1..];
  }

  /** The server's dispatch loop meets Connect first and only then. */
  lemma FirstIsConnect(l: Link)
    requires Fifo(l) && Framed(Client, l.client) && l.up != []
    ensures l.server.inc.seen == [] <==> l.up[0] == Connect
  {
    assert l.client.out.sent[|l.server.inc.seen|] == l.up[0];
    OpeningIsFirst(Client, l.client.out.sent, |l.server.inc.seen|);
  }

  /** The client's dispatch loop meets Ready first and only then. */
  lemma FirstIsReady(l: Link)
    requires Fifo(l) && Framed(Server, l.server) && l.down != []
    ensures l.client.inc.seen == [] <==> l.down[0].Ready?
  {
    assert l.server.out.sent[|l.client.inc.seen|] == l.down[0];
    OpeningIsFirst(Server, l.server.out.sent, |l.client.inc.seen|);
  }

  lemma ServerDispatchCausal(l: Link)
    requires Causal(l) && Dispatch(l, Server).Some?
    requires l.server.inc.seen == [] <==> l.up[0] == Connect
    ensures Causal(Dispatch(l, Server).value)
  {
    var e' := Handle(Server, l.server, l.up[0]);
    assert e'.pc != Idle && e'.inc.seen != [];
  }

  lemma ClientDispatchCausal(l: Link)
    requires Causal(l) && Dispatch(l, Client).Some?
    requires l.client.inc.seen == [] <==> l.down[0].Ready?
    ensures Causal(Dispatch(l, Client).value)
  {
    var e' := Handle(Client, l.client, l.down[0]);
    assert e'.inc.copier == l.client.inc.copier;
    assert e'.inc.seen == l.client.inc.seen + [l.down[0]];
  }

  lemma DispatchKeeps(l: Link, side: Side)
    requires LinkInv(l) && Dispatch(l, side).Some?
    ensures LinkInv(Dispatch(l, side).value)
  {
    var f := l.From(side.Peer())[0];
    if f.Data? { DataFindsChannel(l, side); }
    HandleKeeps(side, l.At(side), f);
    DispatchFifo(l, side);
    if side == Server { FirstIsConnect(l); ServerDispatchCausal(l); } else { FirstIsReady(l); ClientDispatchCausal(l); }
  }

  lemma UnlinkKeeps(side: Side, e: End)
    requires EndInv(side, e)
    ensures EndInv(side, e.(reg := Unlink(e.reg, Shutdown)))
  {
  }

  lemma DropKeeps(l: Link, side: Side)
    requires LinkInv(l)
    ensures LinkInv(Drop(l, side))
  {
    UnlinkKeeps(side, l.At(side));
    assert Fifo(Drop(l, side));
  }

  lemma StepKeeps(l: Link, l': Link)
    requires LinkInv(l) && LinkStep(l, l')
    ensures LinkInv(l')
  {
    if side, a :| Go(l, side, a) == Some(l') { ActKeeps(l, side, a); }
    else if side :| Dispatch(l, side) == Some(l') { DispatchKeeps(l, side); }
    else if side :| Drop(l, side) == l' { DropKeeps(l, side); }
  }

  // ----- What the invariant says about the two byte streams -----

  /** What the peer wrote locally is an initial part of what this side read locally. */
  lemma Integrity(l: Link, side: Side)
    requires LinkInv(l)
    ensures l.At(side.Peer()).inc.sink <= l.At(side).out.read
  {
    var x, y := l.At(side), l.At(side.Peer());
    PayloadPrefix(y.inc.seen, l.From(side));
    assert x.out.sent == y.inc.seen + l.From(side);
    assert y.inc.sink <= y.inc.got <= Payload(y.inc.seen) <= Payload(x.out.sent) <= x.out.read;
  }

  /** A receive copy that ended without CloseAll and without a local write error has met the peer's Close. */
  lemma EndOfFileMeansClose(l: Link, side: Side)
    requires LinkInv(l)
    requires l.At(side).inc.copier == AtEof && l.At(side).reg != Torn(Shutdown)
    ensures Close in l.At(side).inc.seen && l.From(side.Peer()) == []
    ensures l.At(side).inc.sink == Payload(l.At(side.Peer()).out.sent)
    ensures l.At(side.Peer()).out.writer == Finished
  {
    var x, y := l.At(side.Peer()), l.At(side);
    assert y.reg == Torn(PeerClose);
    var k :| 0 <= k < |y.inc.seen| && y.inc.seen[k] == Close;
    assert x.out.sent[k] == Close;
    CloseIsLast(side.Peer(), x.out.sent, k);
    assert x.out.sent == y.inc.seen;
  }

  /** If moreover no data write failed, nothing that the peer read is missing. */
  lemma Completeness(l: Link, side: Side)
    requires LinkInv(l)
    requires l.At(side).inc.copier == AtEof && l.At(side).reg != Torn(Shutdown)
    requires !l.At(side.Peer()).out.broken
    ensures l.At(side).inc.sink == l.At(side.Peer()).out.read && l.At(side.Peer()).out.eof
  {
    EndOfFileMeansClose(l, side);
  }

  /** The client sends nothing after Connect until Ready(true) has arrived. */
  lemma NoDataBeforeReady(l: Link)
    requires LinkInv(l) && |l.client.out.sent| > 1
    ensures l.client.inc.seen != [] && l.client.inc.seen[0] == Ready(true)
    ensures l.server.out.sent != [] && l.server.out.sent[0] == Ready(true)
  {
    SeenFirst(l);
  }
}
