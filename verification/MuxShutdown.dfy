// Shutting one side of the control connection down: once CloseAll has run, that side's goroutines can all end by
// their own steps, whatever state they are in and although no write succeeds any more.

module MuxShutdown {
  import opened Basics
  import opened MuxEnd
  import opened MuxLink
  import opened MuxSystem
  import C = MuxComplete

  /** After these actions c's endpoint on this side is e; the side's other endpoints are as they were in o, and it has
      written nothing more. */
  ghost predicate Has(actions: seq<Action>, o: Host, side: Side, c: ConnId, e: End) {
    && Run(actions).At(side).At(c) == e && Run(actions).At(side).out == o.out
    && forall d: ConnId | d != c :: Run(actions).At(side).At(d) == o.At(d)
  }

  /** Only steps of this side's goroutines were added. */
  ghost predicate Grown(before: seq<Action>, actions: seq<Action>, side: Side) {
    before <= actions && forall i | |before| <= i < |actions| :: actions[i].Step? && actions[i].side == side
  }

  /** One of c's goroutines takes a step that writes nothing to the control connection. */
  lemma Own(before: seq<Action>, o: Host, side: Side, c: ConnId, e: End, act: Act)
    returns (actions: seq<Action>, e': End)
    requires Has(before, o, side, c, e)
    requires Local(side, e, act).Some? && Local(side, e, act).value.out.sent == e.out.sent
    ensures Local(side, e, act) == Some(e')
    ensures Grown(before, actions, side) && Has(actions, o, side, c, e')
  {
    actions, e' := before + [Step(side, c, act)], Local(side, e, act).value;
    C.RunSnoc(before, Step(side, c, act));
    assert Emitted(e, e') == [] && Run(before).At(side).out + [] == Run(before).At(side).out;
  }

  lemma Keeps(actions: seq<Action>, o: Host, side: Side, c: ConnId, e: End)
    requires Has(actions, o, side, c, e)
    ensures EndInv(side, e)
  {
    RunKeeps(actions);
    assert EndInv(side, View(Run(actions), c).At(side));
  }

  /** The channel has never been or is torn down, and no pipe write is pending. */
  predicate Settled(e: End) {
    (e.reg == Unborn || e.reg.Torn?) && e.inc.pipe == None
  }

  /** A channel that has left the map is torn down, which ends a pending pipe write. */
  lemma Settle(before: seq<Action>, o: Host, side: Side, c: ConnId, e: End)
    returns (actions: seq<Action>, e': End)
    requires Has(before, o, side, c, e) && e.reg != Linked
    ensures Grown(before, actions, side) && Has(actions, o, side, c, e')
    ensures Settled(e') && e'.pc == e.pc
  {
    Keeps(before, o, side, c, e);
    actions, e' := before, e;
    if e'.reg.Unlinked? {
      actions, e' := Own(actions, o, side, c, e', Handler(Teardown));
    }
    if e'.inc.pipe.Some? {
      actions, e' := Own(actions, o, side, c, e', Recv(PipeAbort));
    }
  }

  /** Handlers that have not come to relay give up. */
  lemma GiveUpEarly(before: seq<Action>, o: Host, side: Side, c: ConnId, e: End)
    returns (actions: seq<Action>, e': End)
    requires Has(before, o, side, c, e) && Settled(e) && e.pc in {Spawned, Allocated, Waiting}
    ensures Grown(before, actions, side) && Has(actions, o, side, c, e') && Settled(e') && e'.pc in {Leaving, Gone}
  {
    Keeps(before, o, side, c, e);
    var act := match e.pc
      case Spawned => RejectTarget(false)
      case Allocated => if side == Client then SendConnect(false) else DialDone(false)
      case _ => GiveUp;
    actions, e' := Own(before, o, side, c, e, Handler(act));
  }

  /** The relay with nothing in the hands of the mux writer: it has failed to write, or has nothing to write. */
  predicate Stalled(e: End) {
    && e.pc == Relaying && Settled(e) && e.out.hand == None
    && (e.out.writer == Writing ==> e.out.queue == [])
  }

  lemma Stall(before: seq<Action>, o: Host, side: Side, c: ConnId, e: End)
    returns (actions: seq<Action>, e': End)
    requires Has(before, o, side, c, e) && Settled(e) && e.pc == Relaying
    ensures Grown(before, actions, side) && Has(actions, o, side, c, e') && Stalled(e')
    ensures e'.out.aHand == e.out.aHand && e'.inc == e.inc && e'.reg == e.reg
  {
    Keeps(before, o, side, c, e);
    actions, e' := before, e;
    if e.out.writer == Writing && e.out.hand == None && e.out.queue != [] {
      actions, e' := Own(actions, o, side, c, e', Send(TakeOut));
    }
    if e'.out.hand.Some? {
      actions, e' := Own(actions, o, side, c, e', Send(WriteData(false)));
    }
  }

  lemma {:induction false} Drain(before: seq<Action>, o: Host, side: Side, c: ConnId, e: End)
    returns (actions: seq<Action>, e': End)
    requires Has(before, o, side, c, e) && Stalled(e)
    ensures Grown(before, actions, side) && Has(actions, o, side, c, e') && Stalled(e')
    ensures e' == e.(out := e.out.(queue := []))
    decreases |e.out.queue|
  {
    Keeps(before, o, side, c, e);
    actions, e' := before, e;
    if e.out.queue != [] {
      actions, e' := Own(actions, o, side, c, e', Send(DrainOne));
      actions, e' := Drain(actions, o, side, c, e');
    }
  }

  /** What the reader still has in its hands goes the same way. */
  lemma DrainLast(before: seq<Action>, o: Host, side: Side, c: ConnId, e: End)
    returns (actions: seq<Action>, e': End)
    requires Has(before, o, side, c, e) && Stalled(e) && e.out.queue == []
    ensures Grown(before, actions, side) && Has(actions, o, side, c, e') && Stalled(e')
    ensures e'.out.queue == [] && e'.out.aHand == None
  {
    actions, e' := before, e;
    if e.out.aHand.Some? {
      actions, e' := Own(actions, o, side, c, e', Send(Push));
      actions, e' := Stall(actions, o, side, c, e');
      actions, e' := Drain(actions, o, side, c, e');
    }
  }

  lemma FinishWriter(before: seq<Action>, o: Host, side: Side, c: ConnId, e: End)
    returns (actions: seq<Action>, e': End)
    requires Has(before, o, side, c, e) && Stalled(e) && e.out.queue == [] && e.out.aHand == None
    ensures Grown(before, actions, side) && Has(actions, o, side, c, e')
    ensures Settled(e') && e'.pc == Relaying && e'.out.writer == Finished
  {
    actions, e' := Own(before, o, side, c, e, Send(ReadEof));
    if e'.out.writer != Finished {
      actions, e' := Own(actions, o, side, c, e', Send(WriterExit));
    }
  }

  lemma EndRelay(before: seq<Action>, o: Host, side: Side, c: ConnId, e: End)
    returns (actions: seq<Action>, e': End)
    requires Has(before, o, side, c, e) && Settled(e) && e.pc == Relaying
    ensures Grown(before, actions, side) && Has(actions, o, side, c, e') && Settled(e') && e'.pc == Closing
  {
    actions, e' := Stall(before, o, side, c, e);
    actions, e' := Drain(actions, o, side, c, e');
    actions, e' := DrainLast(actions, o, side, c, e');
    actions, e' := FinishWriter(actions, o, side, c, e');
    actions, e' := Own(actions, o, side, c, e', Handler(SendClose(false)));
  }

  /** The receive copy writes what it has and meets the end of the pipe. */
  lemma EndCopy(before: seq<Action>, o: Host, side: Side, c: ConnId, e: End)
    returns (actions: seq<Action>, e': End)
    requires Has(before, o, side, c, e) && Settled(e) && e.inc.copier == Copying
    ensures Grown(before, actions, side) && Has(actions, o, side, c, e') && Settled(e')
    ensures e'.pc == e.pc && e'.inc.copier == AtEof
  {
    Keeps(before, o, side, c, e);
    actions, e' := before, e;
    if e.inc.buf != [] {
      actions, e' := Own(actions, o, side, c, e', Recv(SinkWrite));
    }
    actions, e' := Own(actions, o, side, c, e', Recv(CopyEof));
  }

  lemma EndClosing(before: seq<Action>, o: Host, side: Side, c: ConnId, e: End)
    returns (actions: seq<Action>, e': End)
    requires Has(before, o, side, c, e) && Settled(e) && e.pc == Closing
    ensures Grown(before, actions, side) && Has(actions, o, side, c, e') && Settled(e') && e'.pc == Leaving
  {
    actions, e' := before, e;
    if e.inc.copier == Copying {
      actions, e' := EndCopy(actions, o, side, c, e');
    }
    actions, e' := Own(actions, o, side, c, e', Handler(RelayEnd));
  }

  /** The handler has not started or has returned, and nothing of its channel is left. */
  predicate Over(e: End) {
    Settled(e) && e.pc in {Idle, Gone}
  }

  /** A relaying or closing handler returns. */
  lemma RelayEnds(before: seq<Action>, o: Host, side: Side, c: ConnId, e: End)
    returns (actions: seq<Action>, e': End)
    requires Has(before, o, side, c, e) && Settled(e) && e.pc in {Relaying, Closing}
    ensures Grown(before, actions, side) && Has(actions, o, side, c, e') && Settled(e') && e'.pc == Leaving
  {
    actions, e' := before, e;
    if e'.pc == Relaying {
      actions, e' := EndRelay(actions, o, side, c, e');
    }
    actions, e' := EndClosing(actions, o, side, c, e');
  }

  lemma HandlerEnds(before: seq<Action>, o: Host, side: Side, c: ConnId, e: End)
    returns (actions: seq<Action>, e': End)
    requires Has(before, o, side, c, e) && e.reg != Linked
    ensures Grown(before, actions, side) && Has(actions, o, side, c, e') && Over(e')
  {
    actions, e' := Settle(before, o, side, c, e);
    if e'.pc in {Spawned, Allocated, Waiting} {
      actions, e' := GiveUpEarly(actions, o, side, c, e');
    } else if e'.pc in {Relaying, Closing} {
      actions, e' := RelayEnds(actions, o, side, c, e');
    }
    if e'.pc == Leaving {
      actions, e' := Own(actions, o, side, c, e', Handler(Remove));
    }
  }

  // ----- All connections of one side -----

  /** No channel is in the map, and the endpoints of cs are over. */
  ghost predicate OverIn(h: Host, cs: set<ConnId>) {
    && (forall c | c in cs :: Over(h.At(c)))
    && forall c: ConnId :: h.At(c).reg != Linked
  }

  /** The endpoints outside cs are as before, and nothing more is written. */
  ghost predicate SameBut(h: Host, h': Host, cs: set<ConnId>) {
    h'.out == h.out && forall d: ConnId | d !in cs :: h'.At(d) == h.At(d)
  }

  lemma OneMore(o: Host, h: Host, cs: set<ConnId>, c: ConnId)
    requires OverIn(o, cs) && Over(h.At(c)) && SameBut(o, h, {c})
    ensures OverIn(h, cs + {c})
  {
  }

  lemma EndOne(before: seq<Action>, side: Side, done: set<ConnId>, c: ConnId) returns (actions: seq<Action>)
    requires OverIn(Run(before).At(side), done)
    ensures Grown(before, actions, side) && OverIn(Run(actions).At(side), done + {c})
    ensures SameBut(Run(before).At(side), Run(actions).At(side), {c})
  {
    var o := Run(before).At(side);
    var e: End;
    actions, e := HandlerEnds(before, o, side, c, o.At(c));
    OneMore(o, Run(actions).At(side), done, c);
  }

  lemma {:induction false} AllEnd(before: seq<Action>, side: Side, done: set<ConnId>, todo: set<ConnId>)
    returns (actions: seq<Action>)
    requires OverIn(Run(before).At(side), done)
    ensures Grown(before, actions, side) && OverIn(Run(actions).At(side), done + todo)
    ensures SameBut(Run(before).At(side), Run(actions).At(side), todo)
    decreases todo
  {
    actions := before;
    if todo == {} {
      assert done + todo == done;
    } else {
      var c :| c in todo;
      actions := EndOne(before, side, done, c);
      actions := AllEnd(actions, side, done + {c}, todo - {c});
      assert done + {c} + (todo - {c}) == done + todo;
    }
  }

  lemma NothingLive(actions: seq<Action>, side: Side)
    requires forall c: ConnId :: Over(Run(actions).At(side).At(c))
    ensures Run(actions).At(side).wg == 0 && Run(actions).At(side).busy == None
  {
    RunKeeps(actions);
    var h := Run(actions).At(side);
    assert LiveIds(h) == {} by {
      forall c | c in h.ends ensures !Live(h.ends[c].reg) { assert Over(h.At(c)); }
    }
    var c := if h.busy.Some? then h.busy.value else 0;
    assert h.At(c).inc.pipe.Some? <==> h.busy == Some(c);
    assert Over(h.At(c));
  }

  /** Nothing is left to do on a side that has written nothing since h. */
  ghost predicate AllOver(h: Host, h': Host) {
    h'.wg == 0 && h'.busy == None && h'.out == h.out && forall c: ConnId :: Over(h'.At(c))
  }

  lemma UnlinkedEnd(start: seq<Action>, side: Side) returns (more: seq<Action>)
    requires OverIn(Run(start).At(side), {})
    ensures OwnSteps(more, side)
    ensures AllOver(Run(start).At(side), Run(start + more).At(side))
  {
    var h := Run(start).At(side);
    var actions := AllEnd(start, side, {}, h.ends.Keys);
    EverybodyOver(h, Run(actions).At(side), h.ends.Keys);
    NothingLive(actions, side);
    more := Added(start, actions, side);
  }

  lemma Added(before: seq<Action>, actions: seq<Action>, side: Side) returns (more: seq<Action>)
    requires Grown(before, actions, side)
    ensures actions == before + more && OwnSteps(more, side)
  {
    more := actions[|before|..];
    forall i | 0 <= i < |more| ensures more[i].Step? && more[i].side == side {
      assert more[i] == actions[|before| + i];
    }
  }

  /** Steps of this side's goroutines only. */
  ghost predicate OwnSteps(more: seq<Action>, side: Side) {
    forall i | 0 <= i < |more| :: more[i].Step? && more[i].side == side
  }

  /** After any run and CloseAll on one side, steps of that side's own goroutines, none of which writes anything to the
      control connection, lead to a state in which every handler that was started has returned, every channel is torn
      down, the WaitGroup is at zero and the dispatch loop is free. */
  lemma ShutdownEnds(before: seq<Action>, side: Side) returns (more: seq<Action>)
    ensures OwnSteps(more, side)
    ensures AllOver(Run(before).At(side), Run(before + [CloseAll(side)] + more).At(side))
  {
    NoneLinked(before, side);
    more := UnlinkedEnd(before + [CloseAll(side)], side);
  }

  lemma NoneLinked(before: seq<Action>, side: Side)
    ensures var h := Run(before + [CloseAll(side)]).At(side); OverIn(h, {}) && h.out == Run(before).At(side).out
  {
    C.CloseAllUnlinks(before, side, 0);
    forall c: ConnId ensures Run(before + [CloseAll(side)]).At(side).At(c).reg != Linked {
      C.CloseAllUnlinks(before, side, c);
    }
  }

  /** A connID without an endpoint has nothing to end. */
  lemma EverybodyOver(h: Host, h': Host, cs: set<ConnId>)
    requires cs == h.ends.Keys && SameBut(h, h', cs) && OverIn(h', {} + cs)
    ensures forall c: ConnId :: Over(h'.At(c))
  {
  }
}
