// The whole control connection: any number of connIDs share one FIFO in each
// direction and one dispatch loop on each side.

module MuxSystem {
  import opened Basics
  import opened MuxEnd
  import opened MuxLink

  type ConnId = nat

  /** A message on the control connection: about a connID, or none of the SOCKS messages. */
  datatype Msg = Socks(id: ConnId, frame: Frame) | Other

  /** busy is the connID whose pipe the dispatch loop is blocked on; wg is the mux's WaitGroup. */
  datatype Host = Host(ends: map<ConnId, End>, out: seq<Msg>, busy: Option<ConnId>, wg: int) {
    function At(c: ConnId): End {
      if c in ends then ends[c] else NEW_END
    }
  }

  datatype Net = Net(client: Host, server: Host) {
    function At(side: Side): Host {
      if side == Client then client else server
    }

    function With(side: Side, h: Host): Net {
      if side == Client then this.(client := h) else this.(server := h)
    }
  }

  const START := Net(Host(map[], [], None, 0), Host(map[], [], None, 0))

  datatype Action =
    | Step(side: Side, id: ConnId, act: Act)  // a goroutine of one connection
    | WriteOther(side: Side)                         // heartbeats, tunnel messages
    | Receive(side: Side)                            // the dispatch loop handles a message
    | CloseAll(side: Side)

  function Tagged(c: ConnId, fs: seq<Frame>): seq<Msg> {
    seq(|fs|, i requires 0 <= i < |fs| => Socks(c, fs[i]))
  }

  /** The messages about one connID. */
  function About(ms: seq<Msg>, c: ConnId): seq<Frame> {
    if ms == [] then []
    else (if ms[0].Socks? && ms[0].id == c then [ms[0].frame] else []) + About(ms[1..], c)
  }

  /** Effect of a registration change on the WaitGroup: NewChannel adds one, a teardown takes one away. */
  function WgDelta(r: Reg, r': Reg): int {
    (if r' == Linked && r == Unborn then 1 else 0) - (if r'.Torn? && !r.Torn? then 1 else 0)
  }

  function LocalHost(h: Host, side: Side, c: ConnId, a: Act): Option<Host> {
    var e := h.At(c);
    var e' := Local(side, e, a);
    if e'.None? then None
    else Some(Host(h.ends[c := e'.value],
                   h.out + Tagged(c, Emitted(e, e'.value)),
                   if h.busy == Some(c) && e'.value.inc.pipe.None? then None else h.busy,
                   h.wg + WgDelta(e.reg, e'.value.reg)))
  }

  function ReceiveHost(h: Host, side: Side, m: Msg): Host {
    if m.Other? then h
    else
      var e' := Handle(side, h.At(m.id), m.frame);
      h.(ends := h.ends[m.id := e'], busy := if e'.inc.pipe.Some? then Some(m.id) else None)
  }

  function CloseAllHost(h: Host): Host {
    h.(ends := map c | c in h.ends :: h.ends[c].(reg := Unlink(h.ends[c].reg, Shutdown)))
  }

  /** One atomic step; an action that is not enabled changes nothing. */
  function Next(n: Net, a: Action): Net {
    match a
    case Step(side, c, act) =>
      var h := LocalHost(n.At(side), side, c, act);
      if h.None? then n else n.With(side, h.value)
    case WriteOther(side) =>
      var h := n.At(side);
      n.With(side, h.(out := h.out + [Other]))
    case Receive(side) =>
      var h, peer := n.At(side), n.At(side.Peer());
      if h.busy.Some? || peer.out == [] then n
      else n.With(side, ReceiveHost(h, side, peer.out[0])).With(side.Peer(), peer.(out := peer.out[1..]))
    case CloseAll(side) => n.With(side, CloseAllHost(n.At(side)))
  }

  /** The state after any sequence of actions. */
  function Run(actions: seq<Action>): Net {
    if actions == [] then START else Next(Run(actions[..|actions| - 1]), actions[|actions| - 1])
  }

  /** What one connID sees of the system. */
  function View(n: Net, c: ConnId): Link {
    Link(n.client.At(c), n.server.At(c), About(n.client.out, c), About(n.server.out, c))
  }

  // ----- Projection -----

  lemma {:induction false} AboutAppend(ms: seq<Msg>, ns: seq<Msg>, c: ConnId)
    ensures About(ms + ns, c) == About(ms, c) + About(ns, c)
  {
    if ms == [] {
      assert ms + ns == ns;
    } else {
      assert (ms + ns)[1..] == ms[1..] + ns;
      AboutAppend(ms[1..], ns, c);
    }
  }

  lemma {:induction false} AboutTagged(d: ConnId, fs: seq<Frame>, c: ConnId)
    ensures About(Tagged(d, fs), c) == if d == c then fs else []
  {
    if fs != [] {
      assert Tagged(d, fs)[1..] == Tagged(d, fs[1..]);
      AboutTagged(d, fs[1..], c);
    }
  }

  /** The dispatch loop is blocked on exactly the pipe that still has a write pending. */
  ghost predicate BusyInv(h: Host) {
    forall c: ConnId :: h.At(c).inc.pipe.Some? <==> h.busy == Some(c)
  }

  lemma StepProjects(n: Net, side: Side, d: ConnId, act: Act, c: ConnId)
    ensures LinkStep(View(n, c), View(Next(n, Step(side, d, act)), c))
  {
    var h := n.At(side);
    var e, e' := h.At(d), Local(side, h.At(d), act);
    if e'.Some? {
      var fs := Emitted(e, e'.value);
      AboutAppend(h.out, Tagged(d, fs), c);
      AboutTagged(d, fs, c);
      if c == d {
        assert Go(View(n, c), side, act) == Some(View(Next(n, Step(side, d, act)), c));
      } else {
        assert About(h.out, c) + [] == About(h.out, c);
        assert View(Next(n, Step(side, d, act)), c) == View(n, c);
      }
    }
  }

  lemma ReceiveProjects(n: Net, side: Side, c: ConnId)
    requires BusyInv(n.At(side))
    ensures LinkStep(View(n, c), View(Next(n, Receive(side)), c))
  {
    var h, peer := n.At(side), n.At(side.Peer());
    var l, l' := View(n, c), View(Next(n, Receive(side)), c);
    if h.busy.None? && peer.out != [] {
      var m := peer.out[0];
      if m.Socks? && m.id == c {
        assert l.From(side.Peer()) == [m.frame] + About(peer.out[1..], c);
        assert l.At(side).inc.pipe.None?;
        assert Dispatch(l, side) == Some(l');
      } else {
        assert l' == l;
      }
    }
  }

  lemma OtherProjects(n: Net, side: Side, c: ConnId)
    ensures View(Next(n, WriteOther(side)), c) == View(n, c)
  {
    AboutAppend(n.At(side).out, [Other], c);
  }

  lemma CloseAllProjects(n: Net, side: Side, c: ConnId)
    ensures LinkStep(View(n, c), View(Next(n, CloseAll(side)), c))
  {
    assert View(Next(n, CloseAll(side)), c) == Drop(View(n, c), side);
  }

  /** Whatever happens in the system is, for each connID, one step of its own link or nothing. */
  lemma Projection(n: Net, a: Action, c: ConnId)
    requires BusyInv(n.client) && BusyInv(n.server)
    ensures LinkStep(View(n, c), View(Next(n, a), c))
  {
    match a
    case Step(side, d, act) => StepProjects(n, side, d, act, c);
    case WriteOther(side) => OtherProjects(n, side, c);
    case Receive(side) => ReceiveProjects(n, side, c);
    case CloseAll(side) => CloseAllProjects(n, side, c);
  }

  // ----- Shared bookkeeping: the dispatch loop and the WaitGroup -----

  predicate Live(r: Reg) {
    r == Linked || r.Unlinked?
  }

  /** Channels in the map, and channels deleted from it whose teardown has not run yet. */
  function LiveIds(h: Host): set<ConnId> {
    set c | c in h.ends && Live(h.ends[c].reg)
  }

  ghost predicate HostInv(h: Host) {
    BusyInv(h) && h.wg == |LiveIds(h)|
  }

  /** Registrations only move forward, one stage at a time. */
  lemma LocalRegistration(side: Side, e: End, a: Act)
    requires Local(side, e, a).Some?
    ensures var r, r' := e.reg, Local(side, e, a).value.reg;
            || r' == r
            || (r == Unborn && r' == Linked)
            || (r == Linked && r' == Unlinked(OwnRemove))
            || (r.Unlinked? && r' == Torn(r.cause))
  {
  }

  lemma LocalPipe(side: Side, e: End, a: Act)
    requires Local(side, e, a).Some?
    ensures Local(side, e, a).value.inc.pipe.Some? ==> e.inc.pipe.Some?
  {
  }

  /** The live set after one endpoint has changed. */
  lemma LiveUpdate(h: Host, h': Host, c: ConnId, e': End)
    requires h'.ends == h.ends[c := e']
    ensures |LiveIds(h')| == |LiveIds(h)| + (if Live(e'.reg) then 1 else 0) - (if Live(h.At(c).reg) then 1 else 0)
  {
    var before, after := LiveIds(h), LiveIds(h');
    assert after == if Live(e'.reg) then before + {c} else before - {c};
    assert c in before <==> Live(h.At(c).reg);
  }

  lemma LocalBusy(h: Host, side: Side, c: ConnId, a: Act)
    requires BusyInv(h) && LocalHost(h, side, c, a).Some?
    ensures BusyInv(LocalHost(h, side, c, a).value)
  {
    LocalPipe(side, h.At(c), a);
    var e, e', h' := h.At(c), Local(side, h.At(c), a).value, LocalHost(h, side, c, a).value;
    assert e.inc.pipe.Some? <==> h.busy == Some(c);
    forall d: ConnId ensures h'.At(d).inc.pipe.Some? <==> h'.busy == Some(d) {
      assert h.At(d).inc.pipe.Some? <==> h.busy == Some(d);
      assert h'.At(d) == if d == c then e' else h.At(d);
    }
  }

  lemma LocalHostKeeps(h: Host, side: Side, c: ConnId, a: Act)
    requires HostInv(h) && LocalHost(h, side, c, a).Some?
    ensures HostInv(LocalHost(h, side, c, a).value)
  {
    LocalRegistration(side, h.At(c), a);
    LocalBusy(h, side, c, a);
    LiveUpdate(h, LocalHost(h, side, c, a).value, c, Local(side, h.At(c), a).value);
  }

  lemma ReceiveHostKeeps(h: Host, side: Side, m: Msg)
    requires HostInv(h) && h.busy.None?
    ensures HostInv(ReceiveHost(h, side, m))
  {
    var h' := ReceiveHost(h, side, m);
    if m.Socks? {
      assert forall d: ConnId | d != m.id :: h'.At(d) == h.At(d);
      assert LiveIds(h') == LiveIds(h);
    }
  }

  lemma CloseAllHostKeeps(h: Host)
    requires HostInv(h)
    ensures HostInv(CloseAllHost(h))
  {
    assert forall c: ConnId :: CloseAllHost(h).At(c).inc == h.At(c).inc;
    assert LiveIds(CloseAllHost(h)) == LiveIds(h);
  }

  ghost predicate NetInv(n: Net) {
    && HostInv(n.client) && HostInv(n.server)
    && forall c: ConnId :: LinkInv(View(n, c))
  }

  lemma NextHosts(n: Net, a: Action)
    requires HostInv(n.client) && HostInv(n.server)
    ensures HostInv(Next(n, a).client) && HostInv(Next(n, a).server)
  {
    match a
    case Step(side, c, act) =>
      if LocalHost(n.At(side), side, c, act).Some? { LocalHostKeeps(n.At(side), side, c, act); }
    case WriteOther(side) =>
      assert forall c: ConnId :: Next(n, a).At(side).At(c) == n.At(side).At(c);
      assert LiveIds(Next(n, a).At(side)) == LiveIds(n.At(side));
    case Receive(side) =>
      var h, peer := n.At(side), n.At(side.Peer());
      if h.busy.None? && peer.out != [] {
        ReceiveHostKeeps(h, side, peer.out[0]);
        var peer' := peer.(out := peer.out[1..]);
        assert forall c: ConnId :: peer'.At(c) == peer.At(c);
        assert LiveIds(peer') == LiveIds(peer);
      }
    case CloseAll(side) => CloseAllHostKeeps(n.At(side));
  }

  lemma NextKeeps(n: Net, a: Action)
    requires NetInv(n)
    ensures NetInv(Next(n, a))
  {
    NextHosts(n, a);
    forall c: ConnId ensures LinkInv(View(Next(n, a), c)) {
      Projection(n, a, c);
      StepKeeps(View(n, c), View(Next(n, a), c));
    }
  }

  lemma {:induction false} RunKeeps(actions: seq<Action>)
    ensures NetInv(Run(actions))
  {
    if actions == [] {
      NewLinkOk();
    } else {
      RunKeeps(actions[..|actions| - 1]);
      NextKeeps(Run(actions[..|actions| - 1]), actions[|actions| - 1]);
    }
  }

  // ----- Main results, for every run -----

  /** In both directions, what is written to one end of a connID is a prefix of what was read at its
      other end; so no byte is reordered, invented or taken from another channel. */
  lemma StreamIntegrity(actions: seq<Action>, c: ConnId, side: Side)
    ensures Run(actions).At(side.Peer()).At(c).inc.sink <= Run(actions).At(side).At(c).out.read
  {
    RunKeeps(actions);
    Integrity(View(Run(actions), c), side);
  }

  /** A receive copy that ended by end-of-file, with no CloseAll on its side and no failed data write on
      the other, has delivered exactly everything the other side read, and that reader is at its end. */
  lemma GracefulClose(actions: seq<Action>, c: ConnId, side: Side)
    requires Run(actions).At(side.Peer()).At(c).inc.copier == AtEof
    requires Run(actions).At(side.Peer()).At(c).reg != Torn(Shutdown)
    requires !Run(actions).At(side).At(c).out.broken
    ensures Run(actions).At(side.Peer()).At(c).inc.sink == Run(actions).At(side).At(c).out.read
    ensures Run(actions).At(side).At(c).out.eof
  {
    RunKeeps(actions);
    Completeness(View(Run(actions), c), side.Peer());
  }

  /** A data frame is dropped only after its channel has left the map for good: while the channel is in
      the map and no pipe write is pending, everything dispatched so far has gone through the pipe. */
  lemma NothingDroppedWhileLinked(actions: seq<Action>, c: ConnId, side: Side)
    requires Run(actions).At(side).At(c).reg == Linked && Run(actions).At(side).busy != Some(c)
    ensures Run(actions).At(side).At(c).inc.got == Payload(Run(actions).At(side).At(c).inc.seen)
  {
    RunKeeps(actions);
    assert LinkInv(View(Run(actions), c));
  }

  /** When the next message is a data frame, its channel has been allocated and no Close preceded it. */
  lemma RegisteredBeforeData(actions: seq<Action>, side: Side)
    requires var ms := Run(actions).At(side.Peer()).out; ms != [] && ms[0].Socks? && ms[0].frame.Data?
    ensures var e := Run(actions).At(side).At(Run(actions).At(side.Peer()).out[0].id);
            e.reg != Unborn && Close !in e.inc.seen
  {
    RunKeeps(actions);
    var n := Run(actions);
    var m := n.At(side.Peer()).out[0];
    var l := View(n, m.id);
    assert l.From(side.Peer()) == [m.frame] + About(n.At(side.Peer()).out[1..], m.id);
    DataFindsChannel(l, side);
  }

  /** The frames of one connID: Connect Data* Close from the client; Ready from the server, followed by
      Data* Close only if it was successful; and the client's data only after that Ready arrived. */
  lemma FrameGrammar(actions: seq<Action>, c: ConnId)
    ensures forall side :: Grammar(side, Run(actions).At(side).At(c).out.sent)
    ensures |Run(actions).client.At(c).out.sent| > 1 ==>
              Run(actions).client.At(c).inc.seen != [] && Run(actions).client.At(c).inc.seen[0] == Ready(true)
  {
    RunKeeps(actions);
    var l := View(Run(actions), c);
    forall side ensures Grammar(side, Run(actions).At(side).At(c).out.sent) {
      assert EndInv(side, l.At(side));
    }
    if |l.client.out.sent| > 1 { NoDataBeforeReady(l); }
  }

  /** Each channel is torn down at most once, exactly when its registration has ended; the WaitGroup
      counts the channels in the map and the teardowns still to run, so it never goes negative. */
  lemma TeardownOnce(actions: seq<Action>, c: ConnId, side: Side)
    ensures Run(actions).At(side).At(c).closes == if Run(actions).At(side).At(c).reg.Torn? then 1 else 0
    ensures Run(actions).At(side).wg == |LiveIds(Run(actions).At(side))|
  {
    RunKeeps(actions);
    assert LinkInv(View(Run(actions), c));
  }

  // ----- Fresh connIDs -----

  predicate Later(r: Reg, r': Reg) {
    match r
    case Unborn => true
    case Linked => r' != Unborn
    case Unlinked(cause) => r' == r || r' == Torn(cause)
    case Torn(_) => r' == r
  }

  lemma NextLater(n: Net, a: Action, c: ConnId, side: Side)
    ensures Later(n.At(side).At(c).reg, Next(n, a).At(side).At(c).reg)
  {
    if a.Step? && Local(a.side, n.At(a.side).At(a.id), a.act).Some? {
      LocalRegistration(a.side, n.At(a.side).At(a.id), a.act);
    }
  }

  /** A channel deleted from the map stays deleted, for the reason it was deleted.  That its connID is not registered
      again is the assumption that connIDs are fresh UUIDs, built into Allocate: NewChannel itself refuses only a
      connID that is still in the map. */
  lemma {:induction false} RemovedForGood(actions: seq<Action>, more: seq<Action>, c: ConnId, side: Side)
    ensures Later(Run(actions).At(side).At(c).reg, Run(actions + more).At(side).At(c).reg)
  {
    if more == [] {
      assert actions + more == actions;
    } else {
      var k := |more| - 1;
      assert (actions + more)[..|actions + more| - 1] == actions + more[..k];
      RemovedForGood(actions, more[..k], c, side);
      NextLater(Run(actions + more[..k]), more[k], c, side);
    }
  }
}
