// The control connection as octets.  Frames go out through the serialising writer, in pieces, and a dispatch
// loop takes a message off the stream once ReadMessage can: the message system of MuxSystem is what remains of
// this when octets are forgotten.

module MuxWire {
  import opened Basics
  import opened MuxEnd
  import opened MuxLink
  import opened MuxSystem
  import F = Framing

  /** gob: some injective encoding of messages, with its inverse. */
  datatype Codec = Codec(encode: Msg -> F.Message, decode: F.Message -> Msg)

  ghost predicate Faithful(k: Codec) {
    forall m: Msg {:trigger k.encode(m)} :: k.decode(k.encode(m)) == m
  }

  /** One direction of the connection.  rest is what the holder of the write lock has still to put out, wire what is
      out and unread, torn, as history, the part of a frame whose write failed; after that nothing more is taken. */
  datatype Line = Line(rest: seq<byte>, wire: seq<byte>, torn: seq<byte>)

  /** The hosts keep their connections, dispatch loop and WaitGroup; what they have sent is on the lines alone. */
  datatype Wired = Wired(client: Host, server: Host, up: Line, down: Line) {
    function At(side: Side): Host {
      if side == Client then client else server
    }

    function From(side: Side): Line {
      if side == Client then up else down
    }

    function With(side: Side, h: Host, l: Line): Wired {
      if side == Client then this.(client := h, up := l) else this.(server := h, down := l)
    }
  }

  datatype WireAction =
    | Do(action: Action)                                   // a step of MuxSystem other than Receive
    | PutOut(side: Side, n: nat)                           // the writer's next n octets
    | Tear(side: Side, body: F.Message, n: nat)            // a write fails after n octets of its frame
    | Take(side: Side)                                     // the dispatch loop reads and handles a message

  const IDLE := Line([], [], [])

  function Begin(): Wired {
    Wired(START.client, START.server, IDLE, IDLE)
  }

  /** The host after its step, and the messages it wrote. */
  function Stepped(w: Wired, a: Action): Host {
    Next(Net(w.client, w.server), a).At(a.side)
  }

  /** A message can be written when the lock is free and the connection alive; gob messages of the mux are small. */
  predicate CanWrite(k: Codec, l: Line, ms: seq<Msg>) {
    l.rest == [] && l.torn == [] && |ms| == 1 && |k.encode(ms[0])| <= F.MAX_MESSAGE_SIZE
  }

  function WireNext(k: Codec, w: Wired, a: WireAction): Wired {
    match a
    case Do(act) =>
      if act.Receive? then w
      else
        var h, l := Stepped(w, act), w.From(act.side);
        if h.out == [] then w.With(act.side, h, l)
        else if CanWrite(k, l, h.out)
        then w.With(act.side, h.(out := []), l.(rest := F.Frame(k.encode(h.out[0]))))
        else w
    case PutOut(side, n) =>
      var l := w.From(side);
      if n <= |l.rest| then w.With(side, w.At(side), l.(rest := l.rest[n..], wire := l.wire + l.rest[..n])) else w
    case Tear(side, body, n) =>
      var l := w.From(side);
      if l.rest == [] && l.torn == [] && |body| <= F.MAX_MESSAGE_SIZE && 0 < n < |F.Frame(body)|
      then w.With(side, w.At(side), l.(wire := l.wire + F.Frame(body)[..n], torn := F.Frame(body)[..n])) else w
    case Take(side) =>
      var h, l := w.At(side), w.From(side.Peer());
      var r := F.Parse(l.wire);
      if h.busy.None? && r.Whole? then
        w.With(side.Peer(), w.At(side.Peer()), l.(wire := l.wire[4 + |r.body|..]))
         .With(side, ReceiveHost(h, side, k.decode(r.body)), w.From(side))
      else w
  }

  function WireRun(k: Codec, actions: seq<WireAction>): Wired {
    if actions == [] then Begin()
    else WireNext(k, WireRun(k, actions[..|actions| - 1]), actions[|actions| - 1])
  }

  // ----- What the octets stand for -----

  function Octets(k: Codec, ms: seq<Msg>): seq<byte> {
    if ms == [] then [] else F.Frame(k.encode(ms[0])) + Octets(k, ms[1..])
  }

  ghost predicate Fit(k: Codec, ms: seq<Msg>) {
    forall m | m in ms :: |k.encode(m)| <= F.MAX_MESSAGE_SIZE
  }

  /** Some frame, or nothing, of which not everything is there. */
  ghost predicate Fragment(t: seq<byte>) {
    || t == []
    || exists body: F.Message ::
         |body| <= F.MAX_MESSAGE_SIZE && |t| < |F.Frame(body)| && t == F.Frame(body)[..|t|]
  }

  /** The octets in flight and those still to be put out are the frames of the messages in flight, and the fragment
      of a failed write comes after them. */
  ghost predicate Carries(k: Codec, l: Line, ms: seq<Msg>) {
    && Fit(k, ms)
    && l.wire + l.rest == Octets(k, ms) + l.torn
    && Fragment(l.torn)
    && (l.torn != [] ==> l.rest == [])
    && (ms == [] ==> l.rest == [])
  }

  /** A host of the wired system is one of the message system but for what it has in flight. */
  ghost predicate SameHost(h: Host, h': Host) {
    h.out == [] && h == h'.(out := [])
  }

  ghost predicate Refines(k: Codec, w: Wired, n: Net) {
    && SameHost(w.client, n.client) && SameHost(w.server, n.server)
    && Carries(k, w.up, n.client.out) && Carries(k, w.down, n.server.out)
  }

  lemma {:induction false} OctetsAppend(k: Codec, ms: seq<Msg>, m: Msg)
    ensures Octets(k, ms + [m]) == Octets(k, ms) + F.Frame(k.encode(m))
  {
    if ms == [] {
      assert [] + [m] == [m] && [m][1..] == [];
    } else {
      assert (ms + [m])[1..] == ms[1..] + [m];
      OctetsAppend(k, ms[1..], m);
      F.Regroup(F.Frame(k.encode(ms[0])), Octets(k, ms[1..]), F.Frame(k.encode(m)));
    }
  }

  /** A message begins to be written. */
  lemma CarriesMore(k: Codec, l: Line, ms: seq<Msg>, m: Msg)
    requires Carries(k, l, ms) && CanWrite(k, l, [m])
    ensures Carries(k, l.(rest := F.Frame(k.encode(m))), ms + [m])
  {
    OctetsAppend(k, ms, m);
    assert l.wire == l.wire + l.rest == Octets(k, ms) + l.torn == Octets(k, ms);
    assert Octets(k, ms + [m]) + [] == Octets(k, ms + [m]);
  }

  lemma CarriesPut(k: Codec, l: Line, ms: seq<Msg>, n: nat)
    requires Carries(k, l, ms) && n <= |l.rest|
    ensures Carries(k, l.(rest := l.rest[n..], wire := l.wire + l.rest[..n]), ms)
  {
    assert l.rest == l.rest[..n] + l.rest[n..];
    F.Regroup(l.wire, l.rest[..n], l.rest[n..]);
  }

  lemma CarriesTorn(k: Codec, l: Line, ms: seq<Msg>, body: F.Message, n: nat)
    requires Carries(k, l, ms) && l.rest == [] && l.torn == []
    requires |body| <= F.MAX_MESSAGE_SIZE && 0 < n < |F.Frame(body)|
    ensures Carries(k, l.(wire := l.wire + F.Frame(body)[..n], torn := F.Frame(body)[..n]), ms)
  {
    var t := F.Frame(body)[..n];
    assert l.wire == l.wire + l.rest == Octets(k, ms) + l.torn == Octets(k, ms);
    assert (l.wire + t) + [] == l.wire + t;
    assert Fragment(t);
  }

  /** The front of a stream, as far as it goes. */
  lemma Front(a: seq<byte>, b: seq<byte>, f: seq<byte>, g: seq<byte>)
    requires a + b == f + g
    ensures |f| <= |a| ==> a == f + a[|f|..] && a[|f|..] + b == g
    ensures |a| < |f| ==> a == f[..|a|]
  {
    if |f| <= |a| {
      assert a[..|f|] == (a + b)[..|f|] == f;
      assert a[|f|..] + b == (a + b)[|f|..] == g;
    } else {
      assert a == (a + b)[..|a|] == f[..|a|];
    }
  }

  lemma FragmentIsIncomplete(t: seq<byte>)
    requires Fragment(t)
    ensures F.Parse(t) == F.Truncated
  {
    if t != [] {
      var body: F.Message :|
        |body| <= F.MAX_MESSAGE_SIZE && |t| < |F.Frame(body)| && t == F.Frame(body)[..|t|];
      F.PartialFrame(body, |t|);
    }
  }

  /** What ReadMessage takes off the wire is the oldest message in flight, whole. */
  lemma CarriesFirst(k: Codec, l: Line, ms: seq<Msg>)
    requires Carries(k, l, ms) && F.Parse(l.wire).Whole?
    ensures ms != [] && F.Parse(l.wire).body == k.encode(ms[0])
    ensures Carries(k, l.(wire := l.wire[4 + |F.Parse(l.wire).body|..]), ms[1..])
  {
    if ms == [] {
      assert l.wire == l.wire + l.rest == [] + l.torn == l.torn;
      FragmentIsIncomplete(l.torn);
      assert false;
    } else {
      var body := k.encode(ms[0]);
      var f, g := F.Frame(body), Octets(k, ms[1..]) + l.torn;
      assert body == k.encode(ms[0]) && |body| <= F.MAX_MESSAGE_SIZE;
      F.Regroup(f, Octets(k, ms[1..]), l.torn);
      Front(l.wire, l.rest, f, g);
      if |l.wire| < |f| {
        F.PartialFrame(body, |l.wire|);
      } else {
        F.RoundTripIff(body, l.wire[|f|..]);
        F.Prefix(body, []);
        if |ms| == 1 { RestIsLast(k, l, ms); }
      }
    }
  }

  /** The lock holder is writing the newest message: if the oldest is out and nothing follows it, nothing is left. */
  lemma RestIsLast(k: Codec, l: Line, ms: seq<Msg>)
    requires Carries(k, l, ms) && |ms| == 1
    ensures |l.wire| >= |F.Frame(k.encode(ms[0]))| ==> l.rest == []
  {
    assert ms[1..] == [];
    assert Octets(k, ms) == F.Frame(k.encode(ms[0])) + [];
    assert |l.wire| + |l.rest| == |Octets(k, ms)| + |l.torn|;
  }

  // ----- Refinement -----

  /** What a step does to a host does not depend on what the host has in flight. */
  lemma StepSame(w: Wired, n: Net, a: Action)
    requires SameHost(w.client, n.client) && SameHost(w.server, n.server) && !a.Receive?
    ensures var h := Stepped(w, a);
            && Next(n, a).At(a.side) == h.(out := n.At(a.side).out + h.out)
            && Next(n, a).At(a.side.Peer()) == n.At(a.side.Peer())
  {
    var h, h' := w.At(a.side), n.At(a.side);
    assert h'.out + [] == h'.out;
    match a
    case Step(side, c, act) =>
      assert h.At(c) == h'.At(c);
      if Local(side, h.At(c), act).Some? {
        var fs := Tagged(c, Emitted(h.At(c), Local(side, h.At(c), act).value));
        assert [] + fs == fs;
      }
    case WriteOther(_) => assert [] + [Other] == [Other];
    case CloseAll(_) =>
  }

  /** A step writes one message at most. */
  lemma WritesOne(w: Wired, a: Action)
    requires w.client.out == [] && w.server.out == [] && !a.Receive?
    ensures |Stepped(w, a).out| <= 1
  {
    if a.Step? {
      var e, e' := w.At(a.side).At(a.id), Local(a.side, w.At(a.side).At(a.id), a.act);
      if e'.Some? { EmitsOne(a.side, e, a.act); }
    }
  }

  lemma EmitsOne(side: Side, e: End, a: Act)
    requires Local(side, e, a).Some?
    ensures |Emitted(e, Local(side, e, a).value)| <= 1
  {
  }

  /** What a step does on the wired system, by what it writes. */
  lemma DoIs(k: Codec, w: Wired, a: Action)
    requires !a.Receive?
    ensures var h, l := Stepped(w, a), w.From(a.side);
            WireNext(k, w, Do(a)) ==
            if h.out == [] then w.With(a.side, h, l)
            else if CanWrite(k, l, h.out)
            then w.With(a.side, h.(out := []), l.(rest := F.Frame(k.encode(h.out[0]))))
            else w
  {
  }

  /** One side has taken a step, and its line carries what it wrote. */
  lemma SideRefines(k: Codec, w: Wired, n: Net, n': Net, side: Side, h: Host, l: Line)
    requires Refines(k, w, n) && SameHost(h, n'.At(side)) && Carries(k, l, n'.At(side).out)
    requires n'.At(side.Peer()) == n.At(side.Peer())
    ensures Refines(k, w.With(side, h, l), n')
  {
  }

  lemma DoRefines(k: Codec, w: Wired, n: Net, a: Action)
    requires Refines(k, w, n) && !a.Receive?
    ensures WireNext(k, w, Do(a)) == w || Refines(k, WireNext(k, w, Do(a)), Next(n, a))
  {
    StepSame(w, n, a);
    WritesOne(w, a);
    DoIs(k, w, a);
    var h, l, ms := Stepped(w, a), w.From(a.side), n.At(a.side).out;
    if h.out == [] {
      assert ms + [] == ms;
      SideRefines(k, w, n, Next(n, a), a.side, h, l);
    } else if CanWrite(k, l, h.out) {
      var m := h.out[0];
      assert h.out == [m];
      CarriesMore(k, l, ms, m);
      SideRefines(k, w, n, Next(n, a), a.side, h.(out := []), l.(rest := F.Frame(k.encode(m))));
    }
  }

  lemma TakeRefines(k: Codec, w: Wired, n: Net, side: Side)
    requires Faithful(k) && Refines(k, w, n)
    ensures WireNext(k, w, Take(side)) == w || Refines(k, WireNext(k, w, Take(side)), Next(n, Receive(side)))
  {
    var h, l, r := w.At(side), w.From(side.Peer()), F.Parse(w.From(side.Peer()).wire);
    if h.busy.None? && r.Whole? {
      var ms := n.At(side.Peer()).out;
      CarriesFirst(k, l, ms);
      assert k.decode(k.encode(ms[0])) == ms[0];
    }
  }

  lemma LineRefines(k: Codec, w: Wired, n: Net, a: WireAction)
    requires Refines(k, w, n) && (a.PutOut? || a.Tear?)
    ensures Refines(k, WireNext(k, w, a), n)
  {
    var l, ms := w.From(a.side), n.At(a.side).out;
    match a
    case PutOut(side, count) => if count <= |l.rest| { CarriesPut(k, l, ms, count); }
    case Tear(side, body, count) =>
      if WireNext(k, w, a) != w { CarriesTorn(k, l, ms, body, count); }
  }

  /** Every run over octets is a run of the message system. */
  lemma {:induction false} Refinement(k: Codec, actions: seq<WireAction>) returns (abs: seq<Action>)
    requires Faithful(k)
    ensures Refines(k, WireRun(k, actions), Run(abs))
  {
    if actions == [] {
      abs := [];
    } else {
      var w, a := WireRun(k, actions[..|actions| - 1]), actions[|actions| - 1];
      abs := Refinement(k, actions[..|actions| - 1]);
      var n := Run(abs);
      var act: Action;
      match a {
        case Do(b) =>
          if b.Receive? { return; }
          DoRefines(k, w, n, b);
          act := b;
        case Take(side) =>
          TakeRefines(k, w, n, side);
          act := Receive(side);
        case _ =>
          LineRefines(k, w, n, a);
          return;
      }
      if WireNext(k, w, a) == w { return; }
      assert (abs + [act])[..|abs|] == abs;
      abs := abs + [act];
    }
  }

  // ----- Every run of the message system can be had over octets -----

  ghost predicate BothFit(k: Codec, n: Net) {
    Fit(k, n.client.out) && Fit(k, n.server.out)
  }

  /** Every message that is ever in flight can be written. */
  ghost predicate AllFit(k: Codec, abs: seq<Action>) {
    BothFit(k, Run(abs)) && (abs != [] ==> AllFit(k, abs[..|abs| - 1]))
  }

  /** The octets of the messages in flight are all out, and no write has failed. */
  ghost predicate Realises(k: Codec, w: Wired, n: Net) {
    && SameHost(w.client, n.client) && SameHost(w.server, n.server)
    && w.up == Line([], Octets(k, n.client.out), []) && w.down == Line([], Octets(k, n.server.out), [])
  }

  lemma WireSnoc(k: Codec, actions: seq<WireAction>, a: WireAction)
    ensures WireRun(k, actions + [a]) == WireNext(k, WireRun(k, actions), a)
  {
    assert (actions + [a])[..|actions|] == actions;
  }

  lemma SideRealises(k: Codec, w: Wired, n: Net, n': Net, side: Side, h: Host, wire: seq<byte>)
    requires Realises(k, w, n) && SameHost(h, n'.At(side)) && wire == Octets(k, n'.At(side).out)
    requires n'.At(side.Peer()) == n.At(side.Peer())
    ensures Realises(k, w.With(side, h, Line([], wire, [])), n')
  {
  }

  /** The writer puts out all that is left of its frame. */
  lemma PutAll(k: Codec, w: Wired, side: Side, h: Host, f: seq<byte>, wire: seq<byte>)
    ensures WireNext(k, w.With(side, h, Line(f, wire, [])), PutOut(side, |f|))
            == w.With(side, h, Line([], wire + f, []))
  {
    assert f[..|f|] == f && f[|f|..] == [];
  }

  /** A step, and what it writes. */
  function Written(k: Codec, w: Wired, a: Action): Wired
    requires !a.Receive?
  {
    var w' := WireNext(k, w, Do(a));
    WireNext(k, w', PutOut(a.side, |w'.From(a.side).rest|))
  }

  lemma SilentRealises(k: Codec, w: Wired, n: Net, a: Action)
    requires Realises(k, w, n) && !a.Receive? && Stepped(w, a).out == []
    ensures Realises(k, Written(k, w, a), Next(n, a))
  {
    var h, l, ms := Stepped(w, a), w.From(a.side), n.At(a.side).out;
    StepSame(w, n, a);
    DoIs(k, w, a);
    assert ms + [] == ms && l.wire + [] == l.wire;
    PutAll(k, w, a.side, h, [], l.wire);
    SideRealises(k, w, n, Next(n, a), a.side, h, l.wire);
  }

  lemma WriteRealises(k: Codec, w: Wired, n: Net, a: Action, m: Msg)
    requires Realises(k, w, n) && !a.Receive? && Stepped(w, a).out == [m] && |k.encode(m)| <= F.MAX_MESSAGE_SIZE
    ensures Realises(k, Written(k, w, a), Next(n, a))
  {
    var h, l, ms := Stepped(w, a), w.From(a.side), n.At(a.side).out;
    var f := F.Frame(k.encode(m));
    StepSame(w, n, a);
    DoIs(k, w, a);
    OctetsAppend(k, ms, m);
    PutAll(k, w, a.side, h.(out := []), f, l.wire);
    SideRealises(k, w, n, Next(n, a), a.side, h.(out := []), l.wire + f);
  }

  lemma DoRealises(k: Codec, w: Wired, n: Net, a: Action)
    requires Realises(k, w, n) && !a.Receive? && Fit(k, Next(n, a).At(a.side).out)
    ensures Realises(k, Written(k, w, a), Next(n, a))
  {
    WritesOne(w, a);
    var out := Stepped(w, a).out;
    if out == [] {
      SilentRealises(k, w, n, a);
    } else {
      StepSame(w, n, a);
      assert out == [out[0]] && out[0] in n.At(a.side).out + out;
      WriteRealises(k, w, n, a, out[0]);
    }
  }

  lemma TakeRealises(k: Codec, w: Wired, n: Net, side: Side)
    requires Faithful(k) && Realises(k, w, n) && Fit(k, n.At(side.Peer()).out)
    ensures Realises(k, WireNext(k, w, Take(side)), Next(n, Receive(side)))
  {
    var l, ms := w.From(side.Peer()), n.At(side.Peer()).out;
    if ms == [] {
      FragmentIsIncomplete([]);
    } else {
      var body := k.encode(ms[0]);
      F.RoundTripIff(body, Octets(k, ms[1..]));
      F.Prefix(body, Octets(k, ms[1..]));
      assert k.decode(body) == ms[0];
      assert l.wire[|F.Frame(body)|..] == Octets(k, ms[1..]);
    }
  }

  lemma StepRealises(k: Codec, actions: seq<WireAction>, n: Net, a: Action) returns (more: seq<WireAction>)
    requires Faithful(k) && Realises(k, WireRun(k, actions), n)
    requires BothFit(k, n) && BothFit(k, Next(n, a))
    ensures Realises(k, WireRun(k, more), Next(n, a))
  {
    if a.Receive? {
      TakeRealises(k, WireRun(k, actions), n, a.side);
      WireSnoc(k, actions, Take(a.side));
      more := actions + [Take(a.side)];
    } else {
      DoRealises(k, WireRun(k, actions), n, a);
      more := RunWritten(k, actions, a);
    }
  }

  /** The converse of Refinement: what the message system can do can be done over octets, provided its messages fit
      into frames. */
  lemma {:induction false} Realisation(k: Codec, abs: seq<Action>) returns (actions: seq<WireAction>)
    requires Faithful(k) && AllFit(k, abs)
    ensures Realises(k, WireRun(k, actions), Run(abs))
  {
    if abs == [] {
      actions := [];
    } else {
      var init := abs[..|abs| - 1];
      actions := Realisation(k, init);
      actions := StepRealises(k, actions, Run(init), abs[|abs| - 1]);
    }
  }

  lemma RunWritten(k: Codec, actions: seq<WireAction>, a: Action) returns (more: seq<WireAction>)
    requires !a.Receive?
    ensures WireRun(k, more) == Written(k, WireRun(k, actions), a)
  {
    var put := PutOut(a.side, |WireNext(k, WireRun(k, actions), Do(a)).From(a.side).rest|);
    WireSnoc(k, actions, Do(a));
    WireSnoc(k, actions + [Do(a)], put);
    more := actions + [Do(a)] + [put];
  }

  // ----- There are faithful codecs -----

  function Ones(n: nat): seq<byte> {
    if n == 0 then [] else [1] + Ones(n - 1)
  }

  function CountOnes(s: seq<byte>): (n: nat)
    ensures n <= |s|
  {
    if s != [] && s[0] == 1 then 1 + CountOnes(s[1..]) else 0
  }

  function EncodeFrame(f: Frame): seq<byte> {
    match f
    case Connect => [0]
    case Ready(ok) => if ok then [1] else [2]
    case Close => [3]
    case Data(payload) => [4] + payload
  }

  function DecodeFrame(s: seq<byte>): Frame {
    if s == [] || s[0] == 0 then Connect
    else if s[0] == 1 then Ready(true)
    else if s[0] == 2 then Ready(false)
    else if s[0] == 3 then Close
    else Data(s[1..])
  }

  function SimpleEncode(m: Msg): F.Message {
    match m
    case Other => [2]
    case Socks(id, f) => Ones(id) + ([0] + EncodeFrame(f))
  }

  function SimpleDecode(s: F.Message): Msg {
    var n := CountOnes(s);
    if n < |s| && s[n] == 0 then Socks(n, DecodeFrame(s[n + 1..])) else Other
  }

  lemma {:induction false} OnesCount(n: nat, t: seq<byte>)
    requires t != [] && t[0] != 1
    ensures |Ones(n)| == n && CountOnes(Ones(n) + t) == n
  {
    if n == 0 {
      assert [] + t == t;
    } else {
      assert (Ones(n) + t)[1..] == Ones(n - 1) + t;
      OnesCount(n - 1, t);
    }
  }

  /** So the results below are about something. */
  lemma SimpleIsFaithful()
    ensures Faithful(Codec(SimpleEncode, SimpleDecode))
  {
    forall m: Msg ensures SimpleDecode(SimpleEncode(m)) == m {
      if m.Socks? {
        var t := [0] + EncodeFrame(m.frame);
        OnesCount(m.id, t);
        assert SimpleEncode(m)[m.id + 1..] == EncodeFrame(m.frame);
      }
    }
  }

  // ----- Main results, for every run over octets -----

  /** However the frames of all connections are cut into writes and reads, and wherever a write breaks off, what is
      written to one end of a connID is a prefix of what was read at its other end. */
  lemma WireIntegrity(k: Codec, actions: seq<WireAction>, c: ConnId, side: Side)
    requires Faithful(k)
    ensures var w := WireRun(k, actions);
            w.At(side.Peer()).At(c).inc.sink <= w.At(side).At(c).out.read
  {
    var abs := Refinement(k, actions);
    StreamIntegrity(abs, c, side);
  }

  /** And a receive copy that ended by end of file has delivered everything, as in MuxSystem.GracefulClose. */
  lemma WireGracefulClose(k: Codec, actions: seq<WireAction>, c: ConnId, side: Side)
    requires Faithful(k)
    requires var e := WireRun(k, actions).At(side.Peer()).At(c); e.inc.copier == AtEof && e.reg != Torn(Shutdown)
    requires !WireRun(k, actions).At(side).At(c).out.broken
    ensures var w := WireRun(k, actions);
            && w.At(side.Peer()).At(c).inc.sink == w.At(side).At(c).out.read
            && w.At(side).At(c).out.eof
  {
    var abs := Refinement(k, actions);
    GracefulClose(abs, c, side);
  }

  /** What a dispatch loop takes off the octets is the oldest message its peer has in flight, never a piece of
      something else. */
  lemma TakesOldest(k: Codec, actions: seq<WireAction>, side: Side) returns (abs: seq<Action>)
    requires Faithful(k) && F.Parse(WireRun(k, actions).From(side.Peer()).wire).Whole?
    ensures Refines(k, WireRun(k, actions), Run(abs))
    ensures var ms := Run(abs).At(side.Peer()).out;
            ms != [] && k.decode(F.Parse(WireRun(k, actions).From(side.Peer()).wire).body) == ms[0]
  {
    abs := Refinement(k, actions);
    CarriesFirst(k, WireRun(k, actions).From(side.Peer()), Run(abs).At(side.Peer()).out);
  }
}
