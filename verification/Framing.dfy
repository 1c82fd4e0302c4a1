// Length-prefixed messages on a control connection, and writers that share it
// through the serialising CtrlConnWriter.  A message is its gob-encoded envelope.

module Framing {
  import opened Basics

  const MAX_MESSAGE_SIZE := 1024 * 1024

  type Message = seq<byte>

  /** The four-byte length prefix and the body. */
  function Frame(m: Message): seq<byte> {
    PutBigEndian(|m|, 4) + m
  }

  datatype Received = Whole(body: Message) | TooLarge(length: nat) | Truncated

  /** What one ReadMessage makes of the bytes still to come. */
  function Parse(s: seq<byte>): Received {
    if |s| < 4 then Truncated
    else
      var length := BigEndian(s[..4]);
      if length > MAX_MESSAGE_SIZE then TooLarge(length)
      else if |s| - 4 < length then Truncated
      else Whole(s[4..4 + length])
  }

  /** The messages a reader gets by calling ReadMessage until it fails. */
  function Drain(s: seq<byte>): seq<Message>
    decreases |s|
  {
    match Parse(s)
    case Whole(m) => [m] + Drain(s[4 + |m|..])
    case _ => []
  }

  class Conn {
    var input: seq<byte>   // bytes of the peer not yet read
    var output: seq<byte>  // bytes written

    /** One read of at most max bytes; the network decides how many arrive, none at the end of the stream. */
    method Read(max: nat) returns (chunk: seq<byte>)
      requires max > 0
      modifies this`input
      ensures |chunk| <= max && old(input) == chunk + input
      ensures chunk == [] <==> old(input) == []
    {
      if input == [] {
        return [];
      }
      var n :| 0 < n <= max && n <= |input|;
      chunk, input := input[..n], input[n..];
    }

    /** io.ReadFull: the result does not depend on how the stream is chunked. */
    method ReadFull(n: nat) returns (r: Option<seq<byte>>)
      modifies this`input
      ensures n <= |old(input)| ==> r == Some(old(input)[..n]) && input == old(input)[n..]
      ensures n > |old(input)| ==> r == None && input == []
    {
      var buf := [];
      while |buf| < n
        invariant |buf| <= n && old(input) == buf + input
        decreases n - |buf|
      {
        var chunk := Read(n - |buf|);
        if chunk == [] {
          return None;
        }
        buf := buf + chunk;
      }
      r := Some(buf);
    }

    /** The network takes the first taken octets; a write of which it does not take all of them fails. */
    method Write(bytes: seq<byte>, taken: nat) returns (ok: bool)
      modifies this`output
      ensures ok <==> taken >= |bytes|
      ensures output == old(output) + if ok then bytes else bytes[..taken]
    {
      ok := taken >= |bytes|;
      output := output + if ok then bytes else bytes[..taken];
    }
  }

  /** Prefix and body are two writes; whatever of them is taken, what goes out is the frame up to there. */
  method WriteMessage(conn: Conn, m: Message, prefixTaken: nat, bodyTaken: nat) returns (ok: bool)
    modifies conn`output
    ensures ok <==> prefixTaken >= 4 && bodyTaken >= |m|
    ensures ok ==> conn.output == old(conn.output) + Frame(m)
    ensures !ok ==> var n := if prefixTaken < 4 then prefixTaken else 4 + bodyTaken;
                    n < |Frame(m)| && conn.output == old(conn.output) + Frame(m)[..n]
  {
    ok := conn.Write(PutBigEndian(|m|, 4), prefixTaken);
    if !ok {
      assert Frame(m)[..prefixTaken] == PutBigEndian(|m|, 4)[..prefixTaken];
      return;
    }
    ok := conn.Write(m, bodyTaken);
    if !ok {
      assert Frame(m)[..4 + bodyTaken] == PutBigEndian(|m|, 4) + m[..bodyTaken];
    }
  }

  method ReadMessage(conn: Conn) returns (r: Received)
    modifies conn`input
    ensures r == Parse(old(conn.input))
    ensures r.Whole? ==> conn.input == old(conn.input)[4 + |r.body|..]
  {
    var prefix := conn.ReadFull(4);
    if prefix.None? {
      return Truncated;
    }
    var length := BigEndian(prefix.value);
    if length > MAX_MESSAGE_SIZE {
      return TooLarge(length);
    }
    var body := conn.ReadFull(length);
    if body.None? {
      return Truncated;
    }
    r := Whole(body.value);
  }

  /** The length that a reader finds at the start of a frame. */
  lemma Prefix(m: Message, rest: seq<byte>)
    ensures |Frame(m)| == 4 + |m|
    ensures (Frame(m) + rest)[..4] == PutBigEndian(|m|, 4)
    ensures BigEndian(PutBigEndian(|m|, 4)) == |m| % TWO_32
  {
    BigEndianRoundTrip(|m|, 4);
    assert Power256(4) == TWO_32;
  }

  /** A message comes back, and leaves exactly what follows it, if and only if it is within the limit. */
  lemma RoundTripIff(m: Message, rest: seq<byte>)
    ensures Parse(Frame(m) + rest) == Whole(m) <==> |m| <= 1048576
    ensures |m| <= 1048576 ==> (Frame(m) + rest)[4 + |m|..] == rest
  {
    Prefix(m, rest);
    if |m| <= MAX_MESSAGE_SIZE {
      assert (Frame(m) + rest)[4..4 + |m|] == m;
    }
  }

  /** A longer message that has a length at all is refused by that length. */
  lemma OversizeFrame(m: Message, rest: seq<byte>)
    ensures Parse(Frame(m) + rest) == TooLarge(|m|) <==> 1048576 < |m| < 0x1_0000_0000
  {
    Prefix(m, rest);
  }

  /** The prefix is the length of the body, most significant octet first. */
  lemma FrameOctets(m: Message)
    ensures Frame(m) == [|m| / 0x100_0000 % 256, |m| / 0x1_0000 % 256, |m| / 256 % 256, |m| % 256] + m
  {
    var n := |m|;
    assert PutBigEndian(n, 4) == PutBigEndian(n / 256, 3) + [n % 256];
    assert PutBigEndian(n / 256, 3) == PutBigEndian(n / 256 / 256, 2) + [n / 256 % 256];
    assert PutBigEndian(n / 256 / 256, 2) == PutBigEndian(n / 256 / 256 / 256, 1) + [n / 256 / 256 % 256];
    assert PutBigEndian(n / 256 / 256 / 256, 1) == [] + [n / 256 / 256 / 256 % 256];
    assert n / 256 / 256 == n / 0x1_0000 && n / 256 / 256 / 256 == n / 0x100_0000;
  }

  /** An incomplete frame yields no message. */
  lemma PartialFrame(m: Message, k: nat)
    requires |m| <= MAX_MESSAGE_SIZE && k < |Frame(m)|
    ensures Parse(Frame(m)[..k]) == Truncated
  {
    if k >= 4 {
      var f := Frame(m);
      Prefix(m, []);
      assert f + [] == f;
      assert f[..k][..4] == f[..4];
    }
  }

  // ----- Concurrent writers -----

  type Writer = nat

  /** How a writer's turn with the lock ended: without an error, or with one after some octets of the frame. */
  datatype Outcome = Sent | Failed(octets: nat)

  datatype Entry = Entry(writer: Writer, message: Message, outcome: Outcome)

  /** todo holds each writer's messages still to be written; while the lock is held, the holder's first
      message is on its way and pos of its octets are out. log records finished turns in lock order. */
  datatype State = State(
    todo: map<Writer, seq<Message>>,
    holder: Option<Writer>,
    pos: nat,
    wire: seq<byte>,
    log: seq<Entry>)

  datatype Action =
    | Lock(w: Writer)
    | Put(n: nat)    // the holder's next n octets reach the connection
    | Unlock         // the whole frame is out
    | Fail           // a write fails; the deferred unlock lets the next writer in all the same

  function Current(s: State): Message {
    if s.holder.Some? && s.holder.value in s.todo && s.todo[s.holder.value] != []
    then s.todo[s.holder.value][0] else []
  }

  predicate Holding(s: State) {
    s.holder.Some? && s.holder.value in s.todo && s.todo[s.holder.value] != []
  }

  /** The holder's turn ends. */
  function Finish(s: State, outcome: Outcome): State
    requires Holding(s)
  {
    var w := s.holder.value;
    s.(holder := None, log := s.log + [Entry(w, s.todo[w][0], outcome)], todo := s.todo[w := s.todo[w][1..]])
  }

  /** What a finished turn put on the wire. */
  function Octets(e: Entry): seq<byte> {
    var f := Frame(e.message);
    if e.outcome.Sent? || e.outcome.octets > |f| then f else f[..e.outcome.octets]
  }

  /** A write that failed in the middle of its frame. */
  predicate Torn(e: Entry) {
    0 < |Octets(e)| < |Frame(e.message)|
  }

  predicate NoneTorn(log: seq<Entry>) {
    forall e | e in log :: !Torn(e)
  }

  /** A dead connection takes nothing more after a write that broke off inside its frame. */
  function Next(dead: bool, s: State, a: Action): State {
    match a
    case Lock(w) =>
      if s.holder.None? && w in s.todo && s.todo[w] != [] then s.(holder := Some(w), pos := 0) else s
    case Put(n) =>
      var f := Frame(Current(s));
      if s.holder.Some? && s.pos + n <= |f| && (dead ==> NoneTorn(s.log))
      then s.(wire := s.wire + f[s.pos..s.pos + n], pos := s.pos + n) else s
    case Unlock => if Holding(s) && s.pos == |Frame(Current(s))| then Finish(s, Sent) else s
    case Fail => if Holding(s) then Finish(s, Failed(s.pos)) else s
  }

  function Start(jobs: map<Writer, seq<Message>>): State {
    State(jobs, None, 0, [], [])
  }

  function Run(dead: bool, jobs: map<Writer, seq<Message>>, actions: seq<Action>): State {
    if actions == [] then Start(jobs)
    else Next(dead, Run(dead, jobs, actions[..|actions| - 1]), actions[|actions| - 1])
  }

  function Stream(log: seq<Entry>): seq<byte> {
    if log == [] then [] else Stream(log[..|log| - 1]) + Octets(log[|log| - 1])
  }

  /** The messages whose whole frame went out, in lock order. */
  function Written(log: seq<Entry>): seq<Message> {
    if log == [] then []
    else
      var e := log[|log| - 1];
      Written(log[..|log| - 1]) + if Octets(e) == Frame(e.message) then [e.message] else []
  }

  /** The messages that one writer has had its turn with. */
  function By(log: seq<Entry>, w: Writer): seq<Message> {
    if log == [] then []
    else
      var e := log[|log| - 1];
      By(log[..|log| - 1], w) + if e.writer == w then [e.message] else []
  }

  /** What the holder has put on the wire so far. */
  function Partial(s: State): seq<byte> {
    if s.holder.Some? && s.pos <= |Frame(Current(s))| then Frame(Current(s))[..s.pos] else []
  }

  /** The wire holds what the finished turns and the current one put there. */
  ghost predicate WireOk(s: State) {
    && (s.holder.Some? ==> Holding(s) && s.pos <= |Frame(Current(s))|)
    && s.wire == Stream(s.log) + Partial(s)
  }

  /** Every writer has had its turns in its own order. */
  ghost predicate TurnsOk(jobs: map<Writer, seq<Message>>, s: State) {
    && s.todo.Keys == jobs.Keys
    && (forall w | w in jobs :: By(s.log, w) + s.todo[w] == jobs[w])
    && forall i | 0 <= i < |s.log| :: s.log[i].writer in jobs
  }

  ghost predicate Inv(jobs: map<Writer, seq<Message>>, s: State) {
    WireOk(s) && TurnsOk(jobs, s)
  }

  lemma FinishWire(s: State, outcome: Outcome)
    requires WireOk(s) && Holding(s)
    requires outcome == Failed(s.pos) || (outcome == Sent && s.pos == |Frame(Current(s))|)
    ensures WireOk(Finish(s, outcome))
  {
    var s', f := Finish(s, outcome), Frame(Current(s));
    assert s'.log[..|s'.log| - 1] == s.log;
    assert f[..|f|] == f;
    assert Octets(s'.log[|s.log|]) == f[..s.pos];
    assert s'.wire + [] == s'.wire;
  }

  lemma FinishTurns(jobs: map<Writer, seq<Message>>, s: State, outcome: Outcome)
    requires TurnsOk(jobs, s) && Holding(s)
    ensures TurnsOk(jobs, Finish(s, outcome))
  {
    var s', w := Finish(s, outcome), s.holder.value;
    assert s'.log[..|s'.log| - 1] == s.log;
    assert s.todo[w] == [s.todo[w][0]] + s.todo[w][1..];
    Regroup(By(s.log, w), [s.todo[w][0]], s.todo[w][1..]);
  }

  lemma PutWire(dead: bool, s: State, n: nat)
    requires WireOk(s)
    ensures WireOk(Next(dead, s, Put(n)))
  {
    var f := Frame(Current(s));
    if s.holder.Some? && s.pos + n <= |f| {
      assert f[..s.pos] + f[s.pos..s.pos + n] == f[..s.pos + n];
      Regroup(Stream(s.log), f[..s.pos], f[s.pos..s.pos + n]);
    }
  }

  lemma Regroup<T>(a: seq<T>, b: seq<T>, c: seq<T>)
    ensures (a + b) + c == a + (b + c)
  {
  }

  lemma NextKeeps(dead: bool, jobs: map<Writer, seq<Message>>, s: State, a: Action)
    requires Inv(jobs, s)
    ensures Inv(jobs, Next(dead, s, a))
  {
    match a
    case Unlock =>
      if Holding(s) && s.pos == |Frame(Current(s))| {
        FinishWire(s, Sent);
        FinishTurns(jobs, s, Sent);
      }
    case Fail =>
      if Holding(s) {
        FinishWire(s, Failed(s.pos));
        FinishTurns(jobs, s, Failed(s.pos));
      }
    case Put(n) => PutWire(dead, s, n);
    case Lock(_) =>
  }

  lemma {:induction false} RunKeeps(dead: bool, jobs: map<Writer, seq<Message>>, actions: seq<Action>)
    ensures Inv(jobs, Run(dead, jobs, actions))
  {
    if actions != [] {
      RunKeeps(dead, jobs, actions[..|actions| - 1]);
      NextKeeps(dead, jobs, Run(dead, jobs, actions[..|actions| - 1]), actions[|actions| - 1]);
    }
  }

  // ----- What a reader gets -----

  ghost predicate Fits(ms: seq<Message>) {
    forall m | m in ms :: |m| <= MAX_MESSAGE_SIZE
  }

  ghost predicate LogFits(log: seq<Entry>) {
    forall e | e in log :: |e.message| <= MAX_MESSAGE_SIZE
  }

  /** A frame at the front of the stream is drained first. */
  lemma DrainFrame(m: Message, rest: seq<byte>)
    requires |m| <= MAX_MESSAGE_SIZE
    ensures Drain(Frame(m) + rest) == [m] + Drain(rest)
  {
    RoundTripIff(m, rest);
  }

  lemma {:induction false} DrainStream(log: seq<Entry>, tail: seq<byte>)
    requires LogFits(log) && NoneTorn(log)
    ensures Drain(Stream(log) + tail) == Written(log) + Drain(tail)
  {
    if log == [] {
      assert [] + tail == tail;
      assert [] + Drain(tail) == Drain(tail);
    } else {
      var init, e := log[..|log| - 1], log[|log| - 1];
      assert e in log;
      DrainStream(init, Octets(e) + tail);
      Regroup(Stream(init), Octets(e), tail);
      DrainTurn(e, tail);
      Regroup(Written(init), if Octets(e) == Frame(e.message) then [e.message] else [], Drain(tail));
    }
  }

  lemma DrainTurn(e: Entry, tail: seq<byte>)
    requires |e.message| <= MAX_MESSAGE_SIZE && !Torn(e)
    ensures Drain(Octets(e) + tail) ==
            (if Octets(e) == Frame(e.message) then [e.message] else []) + Drain(tail)
  {
    if Octets(e) == Frame(e.message) {
      DrainFrame(e.message, tail);
    } else {
      assert Octets(e) + tail == tail;
      assert [] + Drain(tail) == Drain(tail);
    }
  }

  lemma DrainPartial(m: Message, k: nat)
    requires |m| <= MAX_MESSAGE_SIZE && k <= |Frame(m)|
    ensures Drain(Frame(m)[..k]) == if k == |Frame(m)| then [m] else []
  {
    if k < |Frame(m)| {
      PartialFrame(m, k);
    } else {
      RoundTripIff(m, []);
      assert Frame(m)[..k] == Frame(m) + [];
      assert Drain([]) == [];
    }
  }

  lemma {:induction false} LogFromJobs(log: seq<Entry>, k: nat)
    requires k < |log|
    ensures log[k].message in By(log, log[k].writer)
  {
    if k < |log| - 1 { LogFromJobs(log[..|log| - 1], k); }
  }

  lemma JobsFit(jobs: map<Writer, seq<Message>>, s: State)
    requires Inv(jobs, s) && forall w | w in jobs :: Fits(jobs[w])
    ensures LogFits(s.log) && |Current(s)| <= MAX_MESSAGE_SIZE
  {
    forall e | e in s.log ensures |e.message| <= MAX_MESSAGE_SIZE {
      var k :| 0 <= k < |s.log| && e == s.log[k];
      LogFromJobs(s.log, k);
      assert e.message in jobs[e.writer];
    }
    if s.holder.Some? { assert Current(s) in jobs[s.holder.value]; }
  }

  /** A reader gets exactly the messages whose frames went out, in lock order. */
  ghost predicate InLockOrder(s: State) {
    Drain(s.wire) == Written(s.log) + if s.holder.Some? && s.pos == |Frame(Current(s))| then [Current(s)] else []
  }

  ghost predicate AllFit(jobs: map<Writer, seq<Message>>) {
    forall w | w in jobs :: Fits(jobs[w])
  }

  /** On any connection, for every interleaving of writers, every split of their writes and every failure between
      frames, the messages arrive in lock order; and each writer's turns are in its own order. */
  lemma ReaderGetsLockOrder(dead: bool, jobs: map<Writer, seq<Message>>, actions: seq<Action>)
    requires AllFit(jobs)
    ensures var s := Run(dead, jobs, actions);
            && (NoneTorn(s.log) ==> InLockOrder(s))
            && forall w | w in jobs :: By(s.log, w) <= jobs[w]
  {
    RunKeeps(dead, jobs, actions);
    var s := Run(dead, jobs, actions);
    JobsFit(jobs, s);
    if NoneTorn(s.log) {
      DrainStream(s.log, Partial(s));
      if s.holder.Some? { DrainPartial(Current(s), s.pos); } else { assert Drain([]) == []; }
    }
  }

  lemma {:induction false} StreamPrefix(log: seq<Entry>, k: nat)
    requires k <= |log|
    ensures Stream(log[..k]) <= Stream(log)
  {
    if k < |log| {
      StreamPrefix(log[..|log| - 1], k);
      assert log[..|log| - 1][..k] == log[..k];
    } else {
      assert log[..k] == log;
    }
  }

  lemma DrainFront(log: seq<Entry>, wire: seq<byte>)
    requires LogFits(log) && NoneTorn(log) && Stream(log) <= wire
    ensures Written(log) <= Drain(wire)
  {
    var front := Stream(log);
    assert wire == front + wire[|front|..];
    DrainStream(log, wire[|front|..]);
  }

  /** On any connection, whatever fails, everything before the first write that broke off inside a frame is
      received, in lock order. */
  lemma ReceivedUpToFirstTorn(dead: bool, jobs: map<Writer, seq<Message>>, actions: seq<Action>, k: nat)
    requires AllFit(jobs)
    requires k <= |Run(dead, jobs, actions).log| && NoneTorn(Run(dead, jobs, actions).log[..k])
    ensures Written(Run(dead, jobs, actions).log[..k]) <= Drain(Run(dead, jobs, actions).wire)
  {
    RunKeeps(dead, jobs, actions);
    var s := Run(dead, jobs, actions);
    JobsFit(jobs, s);
    assert forall e | e in s.log[..k] :: e in s.log;
    StreamPrefix(s.log, k);
    assert Stream(s.log) <= s.wire;
    DrainFront(s.log[..k], s.wire);
  }

  // ----- Connections that die -----

  /** Nothing follows a write that broke off. */
  ghost predicate Quiet(log: seq<Entry>) {
    log != [] ==>
      && Quiet(log[..|log| - 1])
      && (NoneTorn(log[..|log| - 1]) || Octets(log[|log| - 1]) == [])
  }

  ghost predicate DeadOk(s: State) {
    Quiet(s.log) && (s.holder.Some? ==> NoneTorn(s.log) || s.pos == 0)
  }

  lemma FinishDead(s: State, outcome: Outcome)
    requires DeadOk(s) && Holding(s)
    requires outcome == Failed(s.pos) || (outcome == Sent && s.pos == |Frame(Current(s))|)
    ensures DeadOk(Finish(s, outcome))
  {
    var log := Finish(s, outcome).log;
    assert log[..|log| - 1] == s.log;
  }

  lemma NextDead(s: State, a: Action)
    requires DeadOk(s)
    ensures DeadOk(Next(true, s, a))
  {
    match a
    case Unlock => if Holding(s) && s.pos == |Frame(Current(s))| { FinishDead(s, Sent); }
    case Fail => if Holding(s) { FinishDead(s, Failed(s.pos)); }
    case _ =>
  }

  lemma {:induction false} RunDead(jobs: map<Writer, seq<Message>>, actions: seq<Action>)
    ensures DeadOk(Run(true, jobs, actions))
  {
    if actions != [] {
      RunDead(jobs, actions[..|actions| - 1]);
      NextDead(Run(true, jobs, actions[..|actions| - 1]), actions[|actions| - 1]);
    }
  }

  /** The last turn adds its message, or nothing that can be read. */
  lemma DrainLast(log: seq<Entry>, e: Entry)
    requires LogFits(log) && |e.message| <= MAX_MESSAGE_SIZE && NoneTorn(log)
    ensures Drain(Stream(log) + Octets(e)) == Written(log) + if Octets(e) == Frame(e.message) then [e.message] else []
  {
    var f := Frame(e.message);
    DrainStream(log, Octets(e));
    assert f[..|f|] == f;
    DrainPartial(e.message, |Octets(e)|);
  }

  lemma {:induction false} DrainQuiet(log: seq<Entry>)
    requires LogFits(log) && Quiet(log)
    ensures Drain(Stream(log)) == Written(log)
  {
    if log == [] {
      assert Drain([]) == [];
    } else {
      var init, e := log[..|log| - 1], log[|log| - 1];
      assert e in log && LogFits(init);
      if NoneTorn(init) {
        DrainLast(init, e);
      } else {
        DrainQuiet(init);
        assert Stream(init) + [] == Stream(init) && Written(init) + [] == Written(init);
      }
    }
  }

  lemma DeadInLockOrder(jobs: map<Writer, seq<Message>>, actions: seq<Action>)
    requires AllFit(jobs)
    ensures InLockOrder(Run(true, jobs, actions))
  {
    var s := Run(true, jobs, actions);
    ReaderGetsLockOrder(true, jobs, actions);
    if !NoneTorn(s.log) {
      RunKeeps(true, jobs, actions);
      RunDead(jobs, actions);
      JobsFit(jobs, s);
      DrainQuiet(s.log);
      assert s.wire == Stream(s.log) + [] == Stream(s.log);
      assert Written(s.log) + [] == Written(s.log);
    }
  }

  /** After any run, a writer that gets the lock can put its next message out whole: no other writer's turn, past or to
      come, stands in its way, unless the connection has died of a torn write. */
  lemma TurnCompletes(dead: bool, jobs: map<Writer, seq<Message>>, actions: seq<Action>, w: Writer)
    requires var s := Run(dead, jobs, actions);
             s.holder == None && w in s.todo && s.todo[w] != [] && (dead ==> NoneTorn(s.log))
    ensures var s := Run(dead, jobs, actions); var m := s.todo[w][0];
            Run(dead, jobs, actions + [Lock(w)] + [Put(4 + |m|)] + [Unlock]) ==
            State(s.todo[w := s.todo[w][1..]], None, 4 + |m|, s.wire + Frame(m), s.log + [Entry(w, m, Sent)])
  {
    var s := Run(dead, jobs, actions);
    var m := s.todo[w][0];
    RunSnoc(dead, jobs, actions, Lock(w));
    RunSnoc(dead, jobs, actions + [Lock(w)], Put(4 + |m|));
    RunSnoc(dead, jobs, actions + [Lock(w)] + [Put(4 + |m|)], Unlock);
    Prefix(m, []);
    assert Frame(m)[0..0 + (4 + |m|)] == Frame(m);
  }

  lemma RunSnoc(dead: bool, jobs: map<Writer, seq<Message>>, actions: seq<Action>, a: Action)
    ensures Run(dead, jobs, actions + [a]) == Next(dead, Run(dead, jobs, actions), a)
  {
    assert (actions + [a])[..|actions|] == actions;
  }

  // ----- Connections that go on -----

  lemma RunOf6(dead: bool, jobs: map<Writer, seq<Message>>,
               a: Action, b: Action, c: Action, d: Action, e: Action, f: Action)
    ensures Run(dead, jobs, [a, b, c, d, e, f]) ==
            Next(dead, Next(dead, Next(dead, Next(dead, Next(dead, Next(dead, Start(jobs), a), b), c), d), e), f)
  {
    assert [a, b, c, d, e, f][..5] == [a, b, c, d, e] && [a, b, c, d, e][..4] == [a, b, c, d];
    assert [a, b, c, d][..3] == [a, b, c] && [a, b, c][..2] == [a, b] && [a, b][..1] == [a] && [a][..0] == [];
    assert Run(dead, jobs, [a]) == Next(dead, Run(dead, jobs, []), a);
    assert Run(dead, jobs, [a, b]) == Next(dead, Run(dead, jobs, [a]), b);
    assert Run(dead, jobs, [a, b, c]) == Next(dead, Run(dead, jobs, [a, b]), c);
    assert Run(dead, jobs, [a, b, c, d]) == Next(dead, Run(dead, jobs, [a, b, c]), d);
    assert Run(dead, jobs, [a, b, c, d, e]) == Next(dead, Run(dead, jobs, [a, b, c, d]), e);
  }

  function TwoTurns(next: Message): seq<Action> {
    [Lock(0), Put(4), Fail, Lock(1), Put(4 + |next|), Unlock]
  }

  /** The first writer's turn breaks off after the prefix, the second one's succeeds. */
  lemma TornThenWhole(lost: Message, next: Message)
    ensures var s := Run(false, map[0 := [lost], 1 := [next]], TwoTurns(next));
            && s.wire == Frame(lost)[..4] + Frame(next)
            && s.holder == None && s.log == [Entry(0, lost, Failed(4)), Entry(1, next, Sent)]
  {
    var jobs: map<Writer, seq<Message>> := map[0 := [lost], 1 := [next]];
    RunOf6(false, jobs, Lock(0), Put(4), Fail, Lock(1), Put(4 + |next|), Unlock);
    var s2 := Next(false, Next(false, Start(jobs), Lock(0)), Put(4));
    assert s2 == State(jobs, Some(0), 4, [] + Frame(lost)[0..4], []);
    var s3 := Next(false, s2, Fail);
    assert s3.holder == None && 1 in s3.todo && s3.todo[1] == [next] && s3.wire == Frame(lost)[..4];
    assert s3.log == [Entry(0, lost, Failed(4))];
    var s5 := Next(false, Next(false, s3, Lock(1)), Put(4 + |next|));
    assert Frame(next)[0..4 + |next|] == Frame(next);
    assert s5.wire == Frame(lost)[..4] + Frame(next);
  }

  lemma ReadsFrameAsBody(lost: Message, next: Message)
    requires |lost| == 4 + |next| <= MAX_MESSAGE_SIZE
    ensures Drain(Frame(lost)[..4] + Frame(next)) == [Frame(next)]
  {
    var body := Frame(next);
    assert Frame(lost)[..4] == PutBigEndian(|lost|, 4);
    assert Frame(lost)[..4] + body == Frame(body) + [];
    DrainFrame(body, []);
    assert Drain([]) == [];
  }

  /** On a connection that takes octets after such a write, the lock is handed on and the reader takes the next
      writer's whole frame, prefix included, for the body of the message that broke off. */
  lemma TornWriteMisleads(lost: Message, next: Message)
    requires |lost| == 4 + |next| <= MAX_MESSAGE_SIZE
    ensures var s := Run(false, map[0 := [lost], 1 := [next]], TwoTurns(next));
            Drain(s.wire) == [Frame(next)] && !InLockOrder(s)
  {
    TornThenWhole(lost, next);
    ReadsFrameAsBody(lost, next);
    WrittenSecond(lost, next);
    assert [next] + [] == [next];
    assert [Frame(next)][0] != [next][0] by { assert |Frame(next)| != |next|; }
  }

  lemma WrittenSecond(lost: Message, next: Message)
    requires |lost| > 0
    ensures Written([Entry(0, lost, Failed(4)), Entry(1, next, Sent)]) == [next]
  {
    var a, b := Entry(0, lost, Failed(4)), Entry(1, next, Sent);
    assert [a, b][..1] == [a] && [a][..0] == [];
    assert |Octets(a)| == 4 < |Frame(lost)|;
    assert Written([a]) == [];
  }

  /** Frames written under the lock are atomic relative to one another, in every run of writers whose messages fit,
      if and only if the connection takes nothing after a write that broke off inside its frame. */
  lemma AtomicIff(dead: bool)
    ensures (forall jobs: map<Writer, seq<Message>>, actions: seq<Action> | AllFit(jobs) ::
               InLockOrder(Run(dead, jobs, actions)))
            <==> dead
  {
    if dead {
      forall jobs: map<Writer, seq<Message>>, actions: seq<Action> | AllFit(jobs)
        ensures InLockOrder(Run(true, jobs, actions))
      {
        DeadInLockOrder(jobs, actions);
      }
    } else {
      var lost: Message, next: Message := [0, 0, 0, 0, 0], [0];
      var jobs: map<Writer, seq<Message>> := map[0 := [lost], 1 := [next]];
      TornWriteMisleads(lost, next);
      assert AllFit(jobs);
      assert !InLockOrder(Run(false, jobs, TwoTurns(next)));
    }
  }
}
