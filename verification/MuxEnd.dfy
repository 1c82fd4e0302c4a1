// One endpoint of one multiplexed SOCKS connection: the handler goroutine, the
// local reader (goroutine A), the mux writer, the receive copy (goroutine B)
// and the parts of the dispatch loop that touch this connID, each as small steps.

module MuxEnd {
  import opened Basics

  const QUEUE := 64
  const READ_BUFFER := 32 * 1024

  datatype Side = Client | Server {
    function Peer(): Side {
      if this == Client then Server else Client
    }
  }

  /** Control messages about one connID. */
  datatype Frame =
    | Connect
    | Ready(ok: bool)
    | Data(payload: seq<byte>)
    | Close

  /** Who took the channel out of the mux map. */
  datatype Cause = OwnRemove | PeerClose | Shutdown

  /** Life of the SOCKSChannel: not allocated, in the map, deleted from the map, done and pipe closed. */
  datatype Reg = Unborn | Linked | Unlinked(cause: Cause) | Torn(cause: Cause)

  /** Program counter of the connection handler. */
  datatype Pc = Idle | Spawned | Allocated | Waiting | Relaying | Closing | Leaving | Gone

  datatype Writer = Writing | Draining | Finished

  datatype Copier = NotStarted | Copying | AtEof | SinkFailed

  /** Goroutine A and the mux writer. */
  datatype Out = Out(
    aHand: Option<seq<byte>>,    // goroutine A: payload read but not yet queued
    eof: bool,                   // goroutine A has returned and closed outSend
    queue: seq<seq<byte>>,       // outSend, from goroutine A to the mux writer
    hand: Option<seq<byte>>,     // mux writer: payload taken off outSend
    writer: Writer,
    broken: bool,                // a data write on the control connection failed
    read: seq<byte>,             // history: everything read from the local connection
    sent: seq<Frame>)            // history: frames put on the control connection

  /** The channel's pipe and goroutine B. */
  datatype In = In(
    pipe: Option<seq<byte>>,     // rest of the payload that a dispatch-loop pipe write still offers
    buf: seq<byte>,              // goroutine B: taken from the pipe, not yet written
    copier: Copier,
    got: seq<byte>,              // history: everything taken from the pipe
    sink: seq<byte>,             // history: everything written to the local connection
    seen: seq<Frame>)            // history: frames of the peer handled by the dispatch loop

  datatype End = End(
    pc: Pc,
    reg: Reg,
    closes: nat,                 // how often the channel has been torn down
    readyCh: Option<bool>,       // the buffered ready signal
    out: Out,
    inc: In)

  const NEW_END := End(Idle, Unborn, 0, None,
                       Out(None, false, [], None, Writing, false, [], []),
                       In(None, [], NotStarted, [], [], []))

  /** Steps of the handler; ok says whether a control write succeeds. */
  datatype HandlerAct =
    | Allocate | RejectTarget(ok: bool) | SendConnect(ok: bool) | DialFail(ok: bool) | DialDone(ok: bool)
    | TakeReady | GiveUp | SendClose(ok: bool) | RelayEnd | Remove | Teardown

  /** Steps of goroutine A and the mux writer. */
  datatype SendAct =
    | ReadLocal(bytes: seq<byte>) | Push | ReadEof
    | TakeOut | WriteData(ok: bool) | DrainOne | WriterExit

  /** Steps of goroutine B and of the pipe. */
  datatype RecvAct =
    | PipeRead(n: nat) | PipeAbort | SinkWrite | SinkFail(n: nat) | CopyEof

  datatype Act = Handler(h: HandlerAct) | Send(s: SendAct) | Recv(r: RecvAct)

  function Unlink(r: Reg, cause: Cause): Reg {
    if r == Linked then Unlinked(cause) else r
  }

  function Post(o: Out, f: Frame, ok: bool): Out {
    if ok then o.(sent := o.sent + [f]) else o
  }

  /** The handler starts RelayMuxChannel: goroutine B begins copying. */
  function StartRelay(e: End): End {
    e.(pc := Relaying, inc := e.inc.(copier := Copying))
  }

  function HandlerStep(side: Side, e: End, a: HandlerAct): Option<End> {
    match a
    case Allocate =>
      // NewChannel: by the client before Connect, by the server before dialling.  A connID is a fresh UUID, so one
      // that was torn down does not come up again.
      if e.pc != (if side == Client then Idle else Spawned) then None
      else if e.reg == Linked then
        // already registered
        Some(e.(pc := Gone, out := Post(e.out, Ready(false), side == Server)))
      else if e.reg == Unborn then Some(e.(pc := Allocated, reg := Linked))
      else None
    case RejectTarget(ok) =>
      if side == Server && e.pc == Spawned then Some(e.(pc := Gone, out := Post(e.out, Ready(false), ok))) else None
    case SendConnect(ok) =>
      if side == Client && e.pc == Allocated
      then Some(e.(pc := if ok then Waiting else Leaving, out := Post(e.out, Connect, ok))) else None
    case DialFail(ok) =>
      if side == Server && e.pc == Allocated
      then Some(e.(pc := Leaving, out := Post(e.out, Ready(false), ok))) else None
    case DialDone(ok) =>
      if side == Server && e.pc == Allocated
      then Some((if ok then StartRelay(e) else e.(pc := Leaving)).(out := Post(e.out, Ready(true), ok))) else None
    case TakeReady =>
      if side == Client && e.pc == Waiting && e.readyCh.Some?
      then Some((if e.readyCh.value then StartRelay(e) else e.(pc := Leaving)).(readyCh := None)) else None
    case GiveUp =>
      // ready timeout, context cancelled, or the channel's done signal
      if side == Client && e.pc == Waiting then Some(e.(pc := Leaving)) else None
    case SendClose(ok) =>
      if e.pc == Relaying && e.out.writer == Finished
      then Some(e.(pc := Closing, out := Post(e.out, Close, ok))) else None
    case RelayEnd =>
      if e.pc == Closing && e.inc.copier != Copying then Some(e.(pc := Leaving)) else None
    case Remove =>
      if e.pc == Leaving then Some(e.(pc := Gone, reg := Unlink(e.reg, OwnRemove))) else None
    case Teardown =>
      // ch.Close, recvW.Close and wg.Done by whoever deleted the map entry
      if e.reg.Unlinked? then Some(e.(reg := Torn(e.reg.cause), closes := e.closes + 1)) else None
  }

  function SendStep(o: Out, a: SendAct): Option<Out> {
    match a
    case ReadLocal(bytes) =>
      if !o.eof && o.aHand.None? && 0 < |bytes| <= READ_BUFFER
      then Some(o.(aHand := Some(bytes), read := o.read + bytes)) else None
    case Push =>
      if o.aHand.Some? && |o.queue| < QUEUE
      then Some(o.(queue := o.queue + [o.aHand.value], aHand := None)) else None
    case ReadEof =>
      if o.aHand.None? then Some(o.(eof := true)) else None
    case TakeOut =>
      if o.writer == Writing && o.hand.None? && o.queue != []
      then Some(o.(hand := Some(o.queue[0]), queue := o.queue[1..])) else None
    case WriteData(ok) =>
      if o.writer == Writing && o.hand.Some? then
        var o' := Post(o.(hand := None), Data(o.hand.value), ok);
        Some(if ok then o' else o'.(writer := Draining, broken := true))
      else None
    case DrainOne =>
      if o.writer == Draining && o.queue != [] then Some(o.(queue := o.queue[1..])) else None
    case WriterExit =>
      if o.eof && o.queue == [] && o.hand.None? && o.writer != Finished
      then Some(o.(writer := Finished)) else None
  }

  /** torn says that the pipe has been closed. */
  function RecvStep(i: In, torn: bool, a: RecvAct): Option<In> {
    match a
    case PipeRead(n) =>
      if i.copier == Copying && i.buf == [] && i.pipe.Some? && !torn &&
         (0 < n <= |i.pipe.value| || n == |i.pipe.value|)
      then var rest := i.pipe.value[n..];
           Some(i.(buf := i.pipe.value[..n], got := i.got + i.pipe.value[..n],
                   pipe := if rest == [] then None else Some(rest))) else None
    case PipeAbort =>
      // the pipe was closed under a pending write, which returns an error
      if i.pipe.Some? && torn then Some(i.(pipe := None)) else None
    case SinkWrite =>
      if i.copier == Copying && i.buf != [] then Some(i.(sink := i.sink + i.buf, buf := [])) else None
    case SinkFail(n) =>
      if i.copier == Copying && i.buf != [] && n <= |i.buf|
      then Some(i.(sink := i.sink + i.buf[..n], buf := [], copier := SinkFailed)) else None
    case CopyEof =>
      if i.copier == Copying && i.buf == [] && torn then Some(i.(copier := AtEof)) else None
  }

  /** One step of the endpoint's own goroutines, or None where the step is not enabled. */
  function Local(side: Side, e: End, a: Act): Option<End> {
    match a
    case Handler(h) => HandlerStep(side, e, h)
    case Send(s) =>
      if e.pc != Relaying then None
      else
        var o := SendStep(e.out, s);
        if o.None? then None else Some(e.(out := o.value))
    case Recv(r) =>
      var i := RecvStep(e.inc, e.reg.Torn?, r);
      if i.None? then None else Some(e.(inc := i.value))
  }

  /** The dispatch loop handles one frame of the peer; it is not inside an earlier pipe write. */
  function Handle(side: Side, e: End, f: Frame): End {
    var i := e.inc.(seen := e.inc.seen + [f]);
    match f
    case Connect => e.(inc := i, pc := if side == Server && e.pc == Idle then Spawned else e.pc)
    case Ready(ok) =>
      e.(inc := i, readyCh := if side == Client && e.reg == Linked && e.readyCh.None? then Some(ok) else e.readyCh)
    case Data(p) => e.(inc := if e.reg == Linked then i.(pipe := Some(p)) else i)
    case Close => e.(inc := i, reg := Unlink(e.reg, PeerClose))
  }

  /** Payload bytes of the data frames, in order. */
  function Payload(fs: seq<Frame>): seq<byte> {
    if fs == [] then []
    else
      var f := fs[|fs| - 1];
      Payload(fs[..|fs| - 1]) + if f.Data? then f.payload else []
  }

  lemma PayloadSnoc(fs: seq<Frame>, f: Frame)
    ensures Payload(fs + [f]) == Payload(fs) + if f.Data? then f.payload else []
  {
    assert (fs + [f])[..|fs|] == fs;
  }

  lemma {:induction false} PayloadPrefix(fs: seq<Frame>, gs: seq<Frame>)
    ensures Payload(fs) <= Payload(fs + gs)
  {
    if gs == [] {
      assert fs + gs == fs;
    } else {
      var k := |gs| - 1;
      assert fs + gs == (fs + gs[..k]) + [gs[k]];
      PayloadSnoc(fs + gs[..k], gs[k]);
      PayloadPrefix(fs, gs[..k]);
    }
  }

  function OrEmpty(o: Option<seq<byte>>): seq<byte> {
    if o.Some? then o.value else []
  }

  // ----- What every endpoint keeps -----

  /** Data frames, with at most one Close and that at the end. */
  ghost predicate Tail(fs: seq<Frame>) {
    forall i | 0 <= i < |fs| :: fs[i].Data? || (fs[i].Close? && i == |fs| - 1)
  }

  function Opening(side: Side): Frame {
    if side == Client then Connect else Ready(true)
  }

  predicate Opened(side: Side, fs: seq<Frame>) {
    fs != [] && fs[0] == Opening(side)
  }

  /** The frames one side may send for one connID. */
  ghost predicate Grammar(side: Side, fs: seq<Frame>) {
    || fs == []
    || (side == Server && fs == [Ready(false)])
    || (Opened(side, fs) && Tail(fs[1..]))
  }

  /** What was put on the wire is what was read, up to what the sending goroutines still hold. */
  ghost predicate OutInv(o: Out) {
    && (o.eof ==> o.aHand.None?)
    && (o.writer == Finished ==> o.eof && o.queue == [] && o.hand.None?)
    && (o.writer == Writing ==> !o.broken)
    && (o.writer == Draining ==> o.broken && o.hand.None?)
    && (Close in o.sent ==> o.writer == Finished)
    && |o.queue| <= QUEUE
    && (!o.broken ==> o.read == Payload(o.sent) + OrEmpty(o.hand) + Flat(o.queue) + OrEmpty(o.aHand))
    && Payload(o.sent) <= o.read
  }

  /** What left the pipe is what the dispatch loop handled, up to what it still offers or dropped. */
  ghost predicate PipeInv(i: In, reg: Reg) {
    && (i.pipe.Some? ==> i.got + i.pipe.value == Payload(i.seen) && reg != Unborn)
    && (i.pipe.None? && reg == Linked ==> i.got == Payload(i.seen))
    && i.got <= Payload(i.seen)
    && (reg == Unborn ==> Payload(i.seen) == [])
    && (reg == Unlinked(PeerClose) || reg == Torn(PeerClose) ==>
          Close in i.seen && i.pipe.None? && i.got == Payload(i.seen))
  }

  /** What was written locally is what left the pipe, up to the copy buffer or a failed write. */
  ghost predicate CopyInv(i: In, reg: Reg) {
    && (i.copier == Copying ==> i.sink + i.buf == i.got)
    && (i.copier == AtEof ==> i.sink == i.got && (reg == Torn(PeerClose) || reg == Torn(Shutdown)))
    && (i.copier == NotStarted ==> i.buf == [] && i.got == [])
    && i.sink <= i.got
  }

  /** The handler's program counter, the registration and the goroutines agree. */
  ghost predicate Control(side: Side, e: End) {
    && (e.pc in {Idle, Spawned} ==> e.reg == Unborn)
    && (e.reg == Unborn ==> e.pc in {Idle, Spawned, Gone} && e.inc.copier == NotStarted)
    && (e.reg.Unlinked? || e.reg.Torn? ==> e.reg.cause == OwnRemove ==> e.pc == Gone)
    && e.closes == (if e.reg.Torn? then 1 else 0)
    && (e.pc in {Idle, Spawned, Allocated, Waiting} ==> e.inc.copier == NotStarted)
    && (e.pc in {Relaying, Closing} ==> e.inc.copier != NotStarted)
    && (e.pc in {Leaving, Gone} ==> e.inc.copier != Copying)
    && (e.inc.copier == NotStarted ==> e.out == NEW_END.out.(sent := e.out.sent) && |e.out.sent| <= 1)
    && (e.inc.copier != NotStarted && e.pc != Relaying ==> e.out.writer == Finished)
    && (e.pc == Waiting ==> side == Client)
    && (e.pc == Spawned ==> side == Server)
  }

  ghost predicate Framed(side: Side, e: End) {
    && Grammar(side, e.out.sent)
    && (Close in e.out.sent ==> e.pc in {Closing, Leaving, Gone})
    && (e.inc.copier != NotStarted ==> Opened(side, e.out.sent))
    && (e.pc in {Idle, Spawned, Allocated} ==> e.out.sent == [])
    && (e.pc == Waiting ==> e.out.sent == [Connect])
    && (Opened(side, e.out.sent) ==> e.reg != Unborn)
  }

  ghost predicate EndInv(side: Side, e: End) {
    Control(side, e) && Framed(side, e) && OutInv(e.out) && PipeInv(e.inc, e.reg) && CopyInv(e.inc, e.reg)
  }

  lemma NewEndOk(side: Side)
    ensures EndInv(side, NEW_END)
  {
  }

  // ----- Preservation -----

  lemma PostKeeps(o: Out, f: Frame, ok: bool)
    requires OutInv(o)
    requires !f.Data? && (f.Close? ==> o.writer == Finished)
    ensures OutInv(Post(o, f, ok))
  {
    PayloadSnoc(o.sent, f);
  }

  lemma PushKeeps(o: Out)
    requires OutInv(o) && SendStep(o, Push).Some?
    ensures OutInv(SendStep(o, Push).value)
  {
    FlatAppend(o.queue, [o.aHand.value]);
    assert Flat([o.aHand.value]) == o.aHand.value;
  }

  lemma TakeOutKeeps(o: Out)
    requires OutInv(o) && SendStep(o, TakeOut).Some?
    ensures OutInv(SendStep(o, TakeOut).value)
  {
    assert Flat(o.queue) == o.queue[0] + Flat(o.queue[1..]);
  }

  lemma WriteDataKeeps(o: Out, ok: bool)
    requires OutInv(o) && SendStep(o, WriteData(ok)).Some?
    ensures OutInv(SendStep(o, WriteData(ok)).value)
  {
    PayloadSnoc(o.sent, Data(o.hand.value));
    assert Data(o.hand.value) != Close;
  }

  lemma SendKeeps(o: Out, a: SendAct)
    requires OutInv(o) && SendStep(o, a).Some?
    ensures OutInv(SendStep(o, a).value)
  {
    match a
    case Push => PushKeeps(o);
    case TakeOut => TakeOutKeeps(o);
    case WriteData(ok) => WriteDataKeeps(o, ok);
    case _ =>
  }

  lemma PipeReadKeeps(i: In, reg: Reg, n: nat)
    requires PipeInv(i, reg) && CopyInv(i, reg)
    requires RecvStep(i, reg.Torn?, PipeRead(n)).Some?
    ensures var i' := RecvStep(i, reg.Torn?, PipeRead(n)).value; PipeInv(i', reg) && CopyInv(i', reg)
  {
    var offer := i.pipe.value;
    assert offer == offer[..n] + offer[n..];
    assert (i.got + offer[..n]) + offer[n..] == i.got + offer;
  }

  lemma RecvKeeps(i: In, reg: Reg, a: RecvAct)
    requires PipeInv(i, reg) && CopyInv(i, reg)
    requires i.copier == Copying ==> reg != Torn(OwnRemove)
    requires RecvStep(i, reg.Torn?, a).Some?
    ensures var i' := RecvStep(i, reg.Torn?, a).value; PipeInv(i', reg) && CopyInv(i', reg)
  {
    match a
    case PipeRead(n) => PipeReadKeeps(i, reg, n);
    case CopyEof => assert reg.cause == PeerClose || reg.cause == Shutdown || reg.cause == OwnRemove;
    case _ =>
  }

  lemma GrammarSnoc(side: Side, fs: seq<Frame>, f: Frame)
    requires Grammar(side, fs) && Opened(side, fs) && Close !in fs
    requires f.Data? || f.Close?
    ensures Grammar(side, fs + [f]) && Opened(side, fs + [f])
  {
    assert (fs + [f])[1..] == fs[1..] + [f];
  }

  lemma HandlerOut(side: Side, e: End, a: HandlerAct)
    requires EndInv(side, e) && HandlerStep(side, e, a).Some?
    ensures OutInv(HandlerStep(side, e, a).value.out)
  {
    match a
    case Allocate => PostKeeps(e.out, Ready(false), side == Server);
    case RejectTarget(ok) => PostKeeps(e.out, Ready(false), ok);
    case SendConnect(ok) => PostKeeps(e.out, Connect, ok);
    case DialFail(ok) => PostKeeps(e.out, Ready(false), ok);
    case DialDone(ok) => PostKeeps(e.out, Ready(true), ok);
    case SendClose(ok) => PostKeeps(e.out, Close, ok);
    case _ =>
  }

  lemma HandlerIn(side: Side, e: End, a: HandlerAct)
    requires EndInv(side, e) && HandlerStep(side, e, a).Some?
    ensures var e' := HandlerStep(side, e, a).value; PipeInv(e'.inc, e'.reg) && CopyInv(e'.inc, e'.reg)
  {
  }

  lemma HandlerControl(side: Side, e: End, a: HandlerAct)
    requires EndInv(side, e) && HandlerStep(side, e, a).Some?
    ensures Control(side, HandlerStep(side, e, a).value)
  {
  }

  lemma HandlerFramed(side: Side, e: End, a: HandlerAct)
    requires EndInv(side, e) && HandlerStep(side, e, a).Some?
    ensures Framed(side, HandlerStep(side, e, a).value)
  {
    var e' := HandlerStep(side, e, a).value;
    match a
    case SendClose(ok) =>
      GrammarSnoc(side, e.out.sent, Close);
      assert e'.out.sent == if ok then e.out.sent + [Close] else e.out.sent;
    case SendConnect(ok) => assert e'.out.sent == if ok then [Connect] else [];
    case Allocate | RejectTarget(_) | DialFail(_) => assert e'.out.sent == [] || e'.out.sent == [Ready(false)];
    case DialDone(ok) => assert e'.out.sent == if ok then [Ready(true)] else [];
    case TakeReady | GiveUp | RelayEnd | Remove | Teardown => assert e'.out.sent == e.out.sent;
  }

  lemma SendControl(side: Side, e: End, a: SendAct)
    requires EndInv(side, e) && e.pc == Relaying && SendStep(e.out, a).Some?
    ensures Control(side, e.(out := SendStep(e.out, a).value))
  {
  }

  lemma SendFramed(side: Side, e: End, a: SendAct)
    requires EndInv(side, e) && e.pc == Relaying && SendStep(e.out, a).Some?
    ensures Framed(side, e.(out := SendStep(e.out, a).value))
  {
    if a == WriteData(true) {
      GrammarSnoc(side, e.out.sent, Data(e.out.hand.value));
      assert Data(e.out.hand.value) != Close;
    } else {
      assert SendStep(e.out, a).value.sent == e.out.sent;
    }
  }

  lemma RecvControl(side: Side, e: End, a: RecvAct)
    requires EndInv(side, e) && RecvStep(e.inc, e.reg.Torn?, a).Some?
    ensures Control(side, e.(inc := RecvStep(e.inc, e.reg.Torn?, a).value))
    ensures Framed(side, e.(inc := RecvStep(e.inc, e.reg.Torn?, a).value))
  {
    var i := RecvStep(e.inc, e.reg.Torn?, a).value;
    assert i.copier == NotStarted <==> e.inc.copier == NotStarted;
    assert i.copier == Copying ==> e.inc.copier == Copying;
  }

  /** Every step of an endpoint's own goroutines keeps the endpoint's invariant. */
  lemma LocalKeeps(side: Side, e: End, a: Act)
    requires EndInv(side, e) && Local(side, e, a).Some?
    ensures EndInv(side, Local(side, e, a).value)
  {
    match a
    case Handler(h) =>
      HandlerOut(side, e, h);
      HandlerIn(side, e, h);
      HandlerControl(side, e, h);
      HandlerFramed(side, e, h);
    case Send(s) =>
      SendKeeps(e.out, s);
      SendControl(side, e, s);
      SendFramed(side, e, s);
    case Recv(r) =>
      RecvKeeps(e.inc, e.reg, r);
      RecvControl(side, e, r);
  }

  lemma HandleControl(side: Side, e: End, f: Frame)
    requires EndInv(side, e)
    ensures Control(side, Handle(side, e, f)) && Framed(side, Handle(side, e, f))
    ensures Handle(side, e, f).out == e.out
  {
  }

  lemma HandleIn(side: Side, e: End, f: Frame)
    requires PipeInv(e.inc, e.reg) && CopyInv(e.inc, e.reg) && e.inc.pipe.None?
    requires f.Data? ==> e.reg != Unborn && Close !in e.inc.seen
    ensures var e' := Handle(side, e, f); PipeInv(e'.inc, e'.reg) && CopyInv(e'.inc, e'.reg)
  {
    PayloadSnoc(e.inc.seen, f);
    var e' := Handle(side, e, f);
    assert Close in e.inc.seen ==> Close in e'.inc.seen;
  }

  /** The dispatch loop keeps the endpoint, given what causality excludes. */
  lemma HandleKeeps(side: Side, e: End, f: Frame)
    requires EndInv(side, e) && e.inc.pipe.None?
    requires f.Data? ==> e.reg != Unborn && Close !in e.inc.seen
    ensures EndInv(side, Handle(side, e, f))
  {
    HandleControl(side, e, f);
    HandleIn(side, e, f);
  }

  /** Nothing follows a Close. */
  lemma CloseIsLast(side: Side, fs: seq<Frame>, k: nat)
    requires Grammar(side, fs) && k < |fs| && fs[k] == Close
    ensures k == |fs| - 1
  {
    assert fs[1..][k - 1] == Close;
  }

  /** Connect comes first from the client and Ready first from the server, and neither comes again. */
  lemma OpeningIsFirst(side: Side, fs: seq<Frame>, k: nat)
    requires Grammar(side, fs) && k < |fs|
    ensures if side == Client then fs[k] == Connect <==> k == 0 else fs[k].Ready? <==> k == 0
  {
    if k > 0 { assert fs[k] == fs[1..][k - 1]; }
  }

  /** A local step only appends to what was sent and does not touch what was handled. */
  lemma LocalHistory(side: Side, e: End, a: Act)
    requires Local(side, e, a).Some?
    ensures e.out.sent <= Local(side, e, a).value.out.sent
    ensures Local(side, e, a).value.inc.seen == e.inc.seen
  {
  }

  /** The server does nothing for a connID before Connect arrives, and never forgets that it did. */
  lemma ServerStepsAfterConnect(e: End, a: Act)
    requires Control(Server, e) && PipeInv(e.inc, e.reg) && Local(Server, e, a).Some?
    ensures e.pc != Idle && Local(Server, e, a).value.pc != Idle
  {
  }

  /** The client starts relaying only on a ready signal. */
  lemma ClientRelaysOnReady(e: End, a: Act)
    requires Local(Client, e, a).Some?
    ensures var e' := Local(Client, e, a).value;
            && (e'.readyCh.Some? ==> e'.readyCh == e.readyCh)
            && (e'.inc.copier != NotStarted && e.inc.copier == NotStarted ==> e.readyCh == Some(true))
  {
  }

  /** Data on the wire means that the relay ran. */
  lemma DataMeansRelayed(side: Side, e: End, k: nat)
    requires EndInv(side, e) && k < |e.out.sent| && e.out.sent[k].Data?
    ensures e.inc.copier != NotStarted && k > 0
  {
  }
}
