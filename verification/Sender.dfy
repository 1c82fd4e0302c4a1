// The sending side: SendFile's retry loop, against any server and against the
// modelled receiver over an unreliable channel with other senders at work.

module Sender {
  import opened Basics
  import opened DropFolder
  import opened Receiver

  const DEFAULT_RETRIES := 5

  /** How one round of the loop ends. */
  datatype Round = Cancelled | QueryFailed | UploadFailed | Confirmed | Conflicted | Incomplete

  datatype Verdict = Trying | Sent | GaveUp | Diverged | Stopped

  datatype Loop = Loop(attempt: nat, conflicts: nat, verdict: Verdict)

  function Retries(maxRetries: int): int {
    if maxRetries == 0 then DEFAULT_RETRIES else maxRetries
  }

  function MaxConflicts(retries: int): int {
    2 * (retries + 1) + 4
  }

  function Begin(retries: int): Loop {
    Loop(0, 0, if 0 <= retries then Trying else GaveUp)
  }

  /** A failure spends one attempt. */
  function Spend(retries: int, l: Loop): Loop {
    l.(attempt := l.attempt + 1, verdict := if l.attempt + 1 <= retries then Trying else GaveUp)
  }

  function Advance(retries: int, l: Loop, r: Round): Loop {
    match r
    case Cancelled => l.(verdict := Stopped)
    case Confirmed => l.(verdict := Sent)
    case Conflicted =>
      // re-query without spending the retry budget, within a bound
      l.(conflicts := l.conflicts + 1,
         verdict := if l.conflicts + 1 > MaxConflicts(retries) then Diverged else Trying)
    case _ => Spend(retries, l)
  }

  // ----- The bound, against any server -----

  function Drive(retries: int, rounds: seq<Round>): Loop {
    if rounds == [] then Begin(retries)
    else Advance(retries, Drive(retries, rounds[..|rounds| - 1]), rounds[|rounds| - 1])
  }

  /** The loop is still running before each of the rounds. */
  ghost predicate Played(retries: int, rounds: seq<Round>) {
    forall k | 0 <= k < |rounds| :: Drive(retries, rounds[..k]).verdict == Trying
  }

  function Bound(retries: int): int {
    if retries < 0 then 0 else 3 * (retries + 1) + 4
  }

  /** While it runs, the loop has spent one unit of one of its two budgets per round. */
  ghost predicate Spent(retries: int, l: Loop, n: int) {
    l.attempt + l.conflicts == n && l.attempt <= retries && l.conflicts <= MaxConflicts(retries)
  }

  lemma {:induction false} Budgets(retries: int, rounds: seq<Round>)
    requires Played(retries, rounds) && Drive(retries, rounds).verdict == Trying
    ensures Spent(retries, Drive(retries, rounds), |rounds|)
  {
    if rounds != [] {
      PlayedInit(retries, rounds);
      Budgets(retries, rounds[..|rounds| - 1]);
    }
  }

  lemma PlayedInit(retries: int, rounds: seq<Round>)
    requires Played(retries, rounds) && rounds != []
    ensures Played(retries, rounds[..|rounds| - 1]) && Drive(retries, rounds[..|rounds| - 1]).verdict == Trying
  {
    var init := rounds[..|rounds| - 1];
    forall k | 0 <= k < |init| ensures Drive(retries, init[..k]).verdict == Trying {
      assert init[..k] == rounds[..k];
    }
  }

  /** Whatever the server answers, the loop ends within the bound. */
  lemma LoopBound(retries: int, rounds: seq<Round>)
    requires Played(retries, rounds)
    ensures |rounds| <= if retries < 0 then 0 else 3 * (retries + 1) + 4
  {
    if rounds != [] {
      PlayedInit(retries, rounds);
      Budgets(retries, rounds[..|rounds| - 1]);
    }
  }

  function Repeat(r: Round, n: nat): seq<Round> {
    seq(n, _ => r)
  }

  lemma {:induction false} DriveConflicts(retries: int, n: nat)
    requires 0 <= retries && n <= MaxConflicts(retries)
    ensures Drive(retries, Repeat(Conflicted, n)) == Loop(0, n, Trying)
  {
    if n > 0 {
      assert Repeat(Conflicted, n)[..n - 1] == Repeat(Conflicted, n - 1);
      DriveConflicts(retries, n - 1);
    }
  }

  function WorstCase(retries: nat, n: nat): seq<Round> {
    Repeat(Conflicted, MaxConflicts(retries)) + Repeat(UploadFailed, n)
  }

  lemma {:induction false} DriveWorst(retries: nat, n: nat)
    requires n <= retries
    ensures Drive(retries, WorstCase(retries, n)) == Loop(n, MaxConflicts(retries), Trying)
  {
    var rounds := WorstCase(retries, n);
    if n == 0 {
      DriveConflicts(retries, MaxConflicts(retries));
      assert rounds == Repeat(Conflicted, MaxConflicts(retries));
    } else {
      DriveWorst(retries, n - 1);
      assert rounds[..|rounds| - 1] == WorstCase(retries, n - 1);
    }
  }

  lemma WorstPlayed(retries: nat)
    ensures Played(retries, WorstCase(retries, retries + 1))
  {
    var rounds, c := WorstCase(retries, retries + 1), MaxConflicts(retries);
    forall k | 0 <= k < |rounds| ensures Drive(retries, rounds[..k]).verdict == Trying {
      if k <= c {
        DriveConflicts(retries, k);
        assert rounds[..k] == Repeat(Conflicted, k);
      } else {
        DriveWorst(retries, k - c);
        assert rounds[..k] == WorstCase(retries, k - c);
      }
    }
  }

  /** The bound is reached. */
  lemma BoundIsTight(retries: nat)
    ensures exists rounds: seq<Round> :: Played(retries, rounds) && |rounds| == 3 * (retries + 1) + 4
  {
    WorstPlayed(retries);
    assert |WorstCase(retries, retries + 1)| == Bound(retries);
  }

  // ----- Against the receiver -----

  /** What happens around one round: cancellation, other PUTs before the query and between query and
      upload, lost requests and replies, and how much of the body arrives. */
  datatype Weather = Weather(
    cancelled: bool,
    before: seq<Put>,
    queryLost: bool,
    between: seq<Put>,
    uploadLost: bool,
    arrives: Option<nat>,  // None when the whole body gets through
    interrupted: bool,
    fault: Fault,
    replyLost: bool)

  const FAIR := Weather(false, [], false, [], false, None, false, NoFault, false)

  /** deliveries records every file delivered in the run: the PUT's name and the stored name. */
  datatype Session = Session(files: Files, loop: Loop, deliveries: seq<(string, string)>, puts: nat)

  function Record(put: Put, stored: Option<string>): seq<(string, string)> {
    if stored.Some? then [(put.name, stored.value)] else []
  }

  function Others(maxSize: int, s: Session, puts: seq<Put>): Session {
    if puts == [] then s
    else
      var s' := Others(maxSize, s, puts[..|puts| - 1]);
      var put := puts[|puts| - 1];
      var o := Serve(maxSize, s'.files, put);
      s'.(files := o.files, deliveries := s'.deliveries + Record(put, o.stored))
  }

  /** The offset at which the upload starts: what the receiver holds, or zero if that exceeds the file. */
  function StartOffset(files: Files, name: string, source: seq<byte>): nat {
    if |Held(files, name)| > |source| then 0 else |Held(files, name)|
  }

  /** The upload as it reaches the receiver. */
  function Upload(name: string, source: seq<byte>, offset: nat, w: Weather): Put
    requires offset <= |source|
  {
    var rest := source[offset..];
    var short := w.arrives.Some? && w.arrives.value < |rest|;
    Full(name, source, offset).(body := if short then rest[..w.arrives.value] else rest,
                                interrupted := w.interrupted || short, fault := w.fault)
  }

  function Answer(reply: Reply): Round {
    match reply
    case Progress(_, complete) => if complete then Confirmed else Incomplete
    case Conflict(_) => Conflicted
    case _ => UploadFailed
  }

  /** The upload and its answer. */
  function Deliver(
    maxSize: int, name: string, source: seq<byte>, retries: int, s: Session, offset: nat, w: Weather): Session
    requires offset <= |source|
  {
    var put := Upload(name, source, offset, w);
    var o := Serve(maxSize, s.files, put);
    Session(o.files,
            Advance(retries, s.loop, if w.replyLost then UploadFailed else Answer(o.reply)),
            s.deliveries + Record(put, o.stored),
            s.puts + 1)
  }

  /** One round of the loop. */
  function Turn(maxSize: int, name: string, source: seq<byte>, retries: int, s: Session, w: Weather): Session {
    if w.cancelled then s.(loop := Advance(retries, s.loop, Cancelled))
    else
      var s1 := Others(maxSize, s, w.before);
      if w.queryLost then s1.(loop := Advance(retries, s1.loop, QueryFailed))
      else
        var offset := StartOffset(s1.files, name, source);
        var s2 := Others(maxSize, s1, w.between);
        if w.uploadLost then s2.(loop := Advance(retries, s2.loop, UploadFailed))
        else Deliver(maxSize, name, source, retries, s2, offset, w)
  }

  /** n rounds of play, or fewer if the loop ends. */
  function Iterate(play: (Session, Weather) -> Session, s: Session, weather: nat -> Weather, n: nat): Session {
    if n == 0 then s
    else
      var p := Iterate(play, s, weather, n - 1);
      if p.loop.verdict != Trying then p else play(p, weather(n - 1))
  }

  function Play(maxSize: int, name: string, source: seq<byte>, retries: int): (Session, Weather) -> Session {
    (s, w) => Turn(maxSize, name, source, retries, s, w)
  }

  /** The session after n rounds. */
  function After(maxSize: int, files: Files, name: string, source: seq<byte>, retries: int,
                 weather: nat -> Weather, n: nat): Session
  {
    Iterate(Play(maxSize, name, source, retries), Session(files, Begin(retries), [], 0), weather, n)
  }

  /** The session after one more round. */
  function OneMore(play: (Session, Weather) -> Session, s: Session, w: Weather): Session {
    if s.loop.verdict != Trying then s else play(s, w)
  }

  lemma Unroll(play: (Session, Weather) -> Session, s: Session, weather: nat -> Weather, n: nat)
    ensures Iterate(play, s, weather, n + 1) == OneMore(play, Iterate(play, s, weather, n), weather(n))
  {
  }

  /** The rounds that play stands for; proofs about many rounds need no more of a round than this. */
  ghost predicate Plays(
    play: (Session, Weather) -> Session, maxSize: int, name: string, source: seq<byte>, retries: int) {
    forall s, w {:trigger OneMore(play, s, w)} ::
      OneMore(play, s, w) == if s.loop.verdict != Trying then s else Turn(maxSize, name, source, retries, s, w)
  }

  lemma PlayPlays(maxSize: int, name: string, source: seq<byte>, retries: int)
    ensures Plays(Play(maxSize, name, source, retries), maxSize, name, source, retries)
  {
  }

  // ----- Whatever the weather -----

  /** A PUT that announces the source if it is of this name, and that otherwise neither delivers anything else as this
      name's ".part" nor takes a file delivered under this name for its own ".part". */
  ghost predicate Allowed(maxSize: int, name: string, source: seq<byte>, s: Session, put: Put) {
    && Honest(name, source, put)
    && Spares(maxSize, s.files, name, source, put)
    && (put.name != name ==> forall d | d in s.deliveries && d.0 == name :: d.1 != PartName(put.name))
  }

  /** Each of these PUTs is allowed when its turn comes. */
  ghost predicate AllAllowed(maxSize: int, name: string, source: seq<byte>, s: Session, puts: seq<Put>) {
    forall k | 0 <= k < |puts| :: Allowed(maxSize, name, source, Others(maxSize, s, puts[..k]), puts[k])
  }

  ghost predicate AllowedWeather(maxSize: int, name: string, source: seq<byte>, s: Session, w: Weather) {
    !w.cancelled ==>
      && AllAllowed(maxSize, name, source, s, w.before)
      && (!w.queryLost ==> AllAllowed(maxSize, name, source, Others(maxSize, s, w.before), w.between))
  }

  /** ".part" is a prefix of the source, and every file delivered under the name is the source, still in place. */
  ghost predicate SessionOk(name: string, source: seq<byte>, s: Session) {
    && PartIsPrefix(s.files, name, source)
    && forall d | d in s.deliveries && d.0 == name ::
         d.1 != PartName(name) && d.1 in s.files && s.files[d.1] == source
  }

  /** A delivered file stays while the receiver serves one more PUT. */
  lemma ServeSession(maxSize: int, name: string, source: seq<byte>, s: Session, put: Put)
    requires SessionOk(name, source, s) && Allowed(maxSize, name, source, s, put)
    ensures var o := Serve(maxSize, s.files, put);
            SessionOk(name, source, s.(files := o.files, deliveries := s.deliveries + Record(put, o.stored)))
  {
    var o := Serve(maxSize, s.files, put);
    HonestKeeps(maxSize, s.files, name, source, put);
    forall d | d in s.deliveries && d.0 == name ensures d.1 in o.files && o.files[d.1] == source {
      OnlyOwnPart(maxSize, s.files, put, d.1);
    }
  }

  lemma {:induction false} OthersKeep(maxSize: int, name: string, source: seq<byte>, s: Session, puts: seq<Put>)
    requires SessionOk(name, source, s) && AllAllowed(maxSize, name, source, s, puts)
    ensures SessionOk(name, source, Others(maxSize, s, puts))
    ensures Others(maxSize, s, puts).loop == s.loop && s.deliveries <= Others(maxSize, s, puts).deliveries
  {
    if puts != [] {
      var init := puts[..|puts| - 1];
      assert forall k | 0 <= k < |init| :: init[..k] == puts[..k] && init[k] == puts[k];
      OthersKeep(maxSize, name, source, s, init);
      assert Allowed(maxSize, name, source, Others(maxSize, s, puts[..|puts| - 1]), puts[|puts| - 1]);
      ServeSession(maxSize, name, source, Others(maxSize, s, init), puts[|puts| - 1]);
    }
  }

  lemma ConfirmedMeansStored(maxSize: int, files: Files, put: Put)
    requires Answer(Serve(maxSize, files, put).reply) == Confirmed
    ensures Serve(maxSize, files, put).stored.Some?
  {
  }

  lemma UploadIsHonest(name: string, source: seq<byte>, offset: nat, w: Weather)
    requires offset <= |source|
    ensures Honest(name, source, Upload(name, source, offset, w)) && Upload(name, source, offset, w).name == name
  {
  }

  lemma DeliverKeeps(maxSize: int, name: string, source: seq<byte>, retries: int, s: Session, offset: nat, w: Weather)
    requires SessionOk(name, source, s) && offset <= |source|
    requires s.loop.verdict == Trying
    ensures var s' := Deliver(maxSize, name, source, retries, s, offset, w);
            && SessionOk(name, source, s')
            && s.deliveries <= s'.deliveries
            && (s'.loop.verdict == Sent ==> exists d :: d in s'.deliveries && d.0 == name)
  {
    var s' := Deliver(maxSize, name, source, retries, s, offset, w);
    var put := Upload(name, source, offset, w);
    var o := Serve(maxSize, s.files, put);
    UploadIsHonest(name, source, offset, w);
    ServeSession(maxSize, name, source, s, put);
    assert SessionOk(name, source, s.(files := o.files, deliveries := s'.deliveries));
    if s'.loop.verdict == Sent {
      ConfirmedMeansStored(maxSize, s.files, put);
      assert s'.deliveries[|s.deliveries|] == (name, o.stored.value);
    }
  }

  lemma TurnKeeps(maxSize: int, name: string, source: seq<byte>, retries: int, s: Session, w: Weather)
    requires SessionOk(name, source, s) && AllowedWeather(maxSize, name, source, s, w)
    requires s.loop.verdict == Trying
    ensures var s' := Turn(maxSize, name, source, retries, s, w);
            && SessionOk(name, source, s')
            && s.deliveries <= s'.deliveries
            && (s'.loop.verdict == Sent ==> exists d :: d in s'.deliveries && d.0 == name)
  {
    if !w.cancelled {
      OthersKeep(maxSize, name, source, s, w.before);
      var s1 := Others(maxSize, s, w.before);
      if !w.queryLost {
        OthersKeep(maxSize, name, source, s1, w.between);
        var s2 := Others(maxSize, s1, w.between);
        if !w.uploadLost {
          DeliverKeeps(maxSize, name, source, retries, s2, StartOffset(s1.files, name, source), w);
        }
      }
    }
  }

  /** All is well, and success means that the source was delivered under the name. */
  ghost predicate Safe(name: string, source: seq<byte>, s: Session) {
    SessionOk(name, source, s) && (s.loop.verdict == Sent ==> exists d :: d in s.deliveries && d.0 == name)
  }

  lemma SafeRound(play: (Session, Weather) -> Session, maxSize: int, name: string, source: seq<byte>, retries: int,
                  s: Session, w: Weather)
    requires Plays(play, maxSize, name, source, retries)
    requires Safe(name, source, s) && AllowedWeather(maxSize, name, source, s, w)
    ensures Safe(name, source, OneMore(play, s, w))
  {
    if s.loop.verdict == Trying { TurnKeeps(maxSize, name, source, retries, s, w); }
  }

  /** Before round i, the weather of that round is allowed. */
  ghost predicate AllowedAt(play: (Session, Weather) -> Session, maxSize: int, name: string, source: seq<byte>,
                            s: Session, weather: nat -> Weather, i: nat) {
    AllowedWeather(maxSize, name, source, Iterate(play, s, weather, i), weather(i))
  }

  lemma {:induction false} SafeRounds(
    play: (Session, Weather) -> Session, maxSize: int, name: string, source: seq<byte>, retries: int,
    s: Session, weather: nat -> Weather, n: nat)
    requires Plays(play, maxSize, name, source, retries) && Safe(name, source, s)
    requires forall i: nat | i < n :: AllowedAt(play, maxSize, name, source, s, weather, i)
    ensures Safe(name, source, Iterate(play, s, weather, n))
  {
    if n > 0 {
      SafeRounds(play, maxSize, name, source, retries, s, weather, n - 1);
      Unroll(play, s, weather, n - 1);
      assert AllowedAt(play, maxSize, name, source, s, weather, n - 1);
      SafeRound(play, maxSize, name, source, retries, Iterate(play, s, weather, n - 1), weather(n - 1));
    }
  }

  /** For every weather, from every directory whose ".part" is absent or a prefix of the source: ".part"
      stays a prefix, every delivery under the name is the source and stays, and success means that
      there was one. */
  lemma SafeDelivery(maxSize: int, files: Files, name: string, source: seq<byte>, retries: int,
                     weather: nat -> Weather, n: nat)
    requires PartIsPrefix(files, name, source)
    requires forall i: nat | i < n ::
               AllowedWeather(
                 maxSize, name, source, After(maxSize, files, name, source, retries, weather, i), weather(i))
    ensures var s := After(maxSize, files, name, source, retries, weather, n);
            && SessionOk(name, source, s)
            && (s.loop.verdict == Sent ==> exists d :: d in s.deliveries && d.0 == name)
  {
    var play := Play(maxSize, name, source, retries);
    PlayPlays(maxSize, name, source, retries);
    var s := Session(files, Begin(retries), [], 0);
    forall i: nat | i < n ensures AllowedAt(play, maxSize, name, source, s, weather, i) {
      assert After(maxSize, files, name, source, retries, weather, i) == Iterate(play, s, weather, i);
    }
    SafeRounds(play, maxSize, name, source, retries, s, weather, n);
  }

  // ----- A condition on names alone -----

  /** No name among these PUTs ends in ".part", and those of this name announce the source. */
  ghost predicate Plain(name: string, source: seq<byte>, puts: seq<Put>) {
    forall p | p in puts :: Honest(name, source, p) && !IsPart(p.name)
  }

  ghost predicate PlainDeliveries(name: string, s: Session) {
    forall d | d in s.deliveries && d.0 == name :: !IsPart(d.1)
  }

  lemma {:induction false} PlainOthers(maxSize: int, name: string, source: seq<byte>, s: Session, puts: seq<Put>)
    requires Plain(name, source, puts) && PlainDeliveries(name, s)
    ensures AllAllowed(maxSize, name, source, s, puts) && PlainDeliveries(name, Others(maxSize, s, puts))
  {
    if puts != [] {
      var init, put := puts[..|puts| - 1], puts[|puts| - 1];
      PlainOthers(maxSize, name, source, s, init);
      assert put in puts;
      var s' := Others(maxSize, s, init);
      PlainNamesSpare(maxSize, s'.files, name, source, put);
      assert IsPart(PartName(put.name));
      forall k | 0 <= k < |puts| ensures Allowed(maxSize, name, source, Others(maxSize, s, puts[..k]), puts[k]) {
        if k < |init| { assert init[..k] == puts[..k] && init[k] == puts[k]; }
      }
    }
  }

  lemma PlainTurn(maxSize: int, name: string, source: seq<byte>, retries: int, s: Session, w: Weather)
    requires !IsPart(name) && Plain(name, source, w.before) && Plain(name, source, w.between)
    requires PlainDeliveries(name, s)
    ensures AllowedWeather(maxSize, name, source, s, w)
    ensures PlainDeliveries(name, Turn(maxSize, name, source, retries, s, w))
  {
    PlainOthers(maxSize, name, source, s, w.before);
    var s1 := Others(maxSize, s, w.before);
    PlainOthers(maxSize, name, source, s1, w.between);
    var s2 := Others(maxSize, s1, w.between);
    PlainNamesSpare(maxSize, s2.files, name, source, Upload(name, source, StartOffset(s1.files, name, source), w));
  }

  lemma {:induction false} PlainRounds(
    play: (Session, Weather) -> Session, maxSize: int, name: string, source: seq<byte>, retries: int,
    s: Session, weather: nat -> Weather, n: nat)
    requires Plays(play, maxSize, name, source, retries) && !IsPart(name) && PlainDeliveries(name, s)
    requires forall i: nat :: Plain(name, source, weather(i).before) && Plain(name, source, weather(i).between)
    ensures var s' := Iterate(play, s, weather, n);
            PlainDeliveries(name, s') && AllowedWeather(maxSize, name, source, s', weather(n))
  {
    if n > 0 {
      PlainRounds(play, maxSize, name, source, retries, s, weather, n - 1);
      Unroll(play, s, weather, n - 1);
      PlainTurn(maxSize, name, source, retries, Iterate(play, s, weather, n - 1), weather(n - 1));
    }
    PlainTurn(maxSize, name, source, retries, Iterate(play, s, weather, n), weather(n));
  }

  /** If nobody uploads under a name that ends in ".part", every weather is allowed. */
  lemma PlainWeatherIsAllowed(maxSize: int, files: Files, name: string, source: seq<byte>, retries: int,
                              weather: nat -> Weather, n: nat)
    requires !IsPart(name)
    requires forall i: nat :: Plain(name, source, weather(i).before) && Plain(name, source, weather(i).between)
    ensures AllowedWeather(maxSize, name, source, After(maxSize, files, name, source, retries, weather, n), weather(n))
  {
    PlayPlays(maxSize, name, source, retries);
    PlainRounds(Play(maxSize, name, source, retries), maxSize, name, source, retries,
                Session(files, Begin(retries), [], 0), weather, n);
  }

  // ----- In fair weather -----

  /** What ".part" becomes when everything from the start offset on gets through. */
  lemma FairGrown(files: Files, name: string, source: seq<byte>)
    ensures var held := Held(files, name);
            var offset := StartOffset(files, name, source);
            Grown(files, Full(name, source, offset)) == if |held| <= |source| then held + source[|held|..] else []
  {
    var held := Held(files, name);
    if |held| <= |source| { assert held[..|held|] == held; }
  }

  lemma AppendRest(held: seq<byte>, source: seq<byte>)
    requires |held| <= |source|
    ensures held + source[|held|..] == source <==> held <= source
  {
    assert (held + source[|held|..])[..|held|] == held;
    assert source == source[..|held|] + source[|held|..];
  }

  /** The source has been delivered under the name. */
  ghost predicate Arrived(s: Session, name: string, source: seq<byte>) {
    exists d :: d in s.deliveries && d.0 == name && d.1 in s.files && s.files[d.1] == source
  }

  /** What the first upload makes of any ".part" whatsoever. */
  lemma FirstTurn(maxSize: int, name: string, source: seq<byte>, retries: int, s: Session)
    requires maxSize <= 0 || |source| <= maxSize
    requires s.loop.verdict == Trying
    ensures var s' := Turn(maxSize, name, source, retries, s, FAIR);
            && s'.puts == s.puts + 1
            && (s'.loop.verdict == Sent <==> Held(s.files, name) <= source || source == [])
            && (s'.loop.verdict != Sent ==>
                  s'.loop == Spend(retries, s.loop) && PartName(name) !in s'.files && s'.deliveries == s.deliveries)
            && (s'.loop.verdict == Sent ==> Arrived(s', name, source))
  {
    var held, offset := Held(s.files, name), StartOffset(s.files, name, source);
    assert Others(maxSize, s, []) == s;
    assert Upload(name, source, offset, FAIR) == Full(name, source, offset);
    FairGrown(s.files, name, source);
    if |held| <= |source| { AppendRest(held, source); }
    var o := Serve(maxSize, s.files, Full(name, source, offset));
    if o.stored.Some? {
      DeliveredMatchesDigest(maxSize, s.files, Full(name, source, offset));
      assert (name, o.stored.value) in Turn(maxSize, name, source, retries, s, FAIR).deliveries;
    }
  }

  /** One upload is enough exactly when what the receiver holds is a prefix of the source, or the source is empty. */
  lemma OneUploadIff(maxSize: int, files: Files, name: string, source: seq<byte>, retries: nat, weather: nat -> Weather)
    requires maxSize <= 0 || |source| <= maxSize
    requires weather(0) == FAIR
    ensures After(maxSize, files, name, source, retries, weather, 1).loop.verdict == Sent
            <==> Held(files, name) <= source || source == []
  {
    assert After(maxSize, files, name, source, retries, weather, 0) == Session(files, Begin(retries), [], 0);
    FirstTurn(maxSize, name, source, retries, Session(files, Begin(retries), [], 0));
  }

  /** From any ".part" at all, with one retry, a sole sender in fair weather succeeds within two uploads. */
  lemma SelfHealing(maxSize: int, files: Files, name: string, source: seq<byte>, retries: int, weather: nat -> Weather)
    requires maxSize <= 0 || |source| <= maxSize
    requires 1 <= retries && weather(0) == FAIR && weather(1) == FAIR
    ensures var s := After(maxSize, files, name, source, retries, weather, 2);
            s.loop.verdict == Sent && s.puts <= 2 && Arrived(s, name, source)
  {
    var s0 := Session(files, Begin(retries), [], 0);
    assert After(maxSize, files, name, source, retries, weather, 0) == s0;
    FirstTurn(maxSize, name, source, retries, s0);
    var s1 := After(maxSize, files, name, source, retries, weather, 1);
    assert s1 == Turn(maxSize, name, source, retries, s0, FAIR);
    if s1.loop.verdict != Sent {
      assert Held(s1.files, name) == [];
      FirstTurn(maxSize, name, source, retries, s1);
      assert After(maxSize, files, name, source, retries, weather, 2) == Turn(maxSize, name, source, retries, s1, FAIR);
    }
  }

  lemma {:induction false} OthersKeepLoop(maxSize: int, s: Session, puts: seq<Put>)
    ensures Others(maxSize, s, puts).loop == s.loop && Others(maxSize, s, puts).puts == s.puts
  {
    if puts != [] { OthersKeepLoop(maxSize, s, puts[..|puts| - 1]); }
  }

  lemma TurnAdvances(maxSize: int, name: string, source: seq<byte>, retries: int, s: Session, w: Weather)
    returns (r: Round)
    ensures Turn(maxSize, name, source, retries, s, w).loop == Advance(retries, s.loop, r)
  {
    OthersKeepLoop(maxSize, s, w.before);
    var s1 := Others(maxSize, s, w.before);
    OthersKeepLoop(maxSize, s1, w.between);
    var s2 := Others(maxSize, s1, w.between);
    var put := Upload(name, source, StartOffset(s1.files, name, source), w);
    r := if w.cancelled then Cancelled
         else if w.queryLost then QueryFailed
         else if w.uploadLost || w.replyLost then UploadFailed
         else Answer(Serve(maxSize, s2.files, put).reply);
  }

  lemma AdvanceSpends(retries: int, l: Loop, r: Round, k: nat)
    requires Spent(retries, l, k) && Advance(retries, l, r).verdict == Trying
    ensures Spent(retries, Advance(retries, l, r), k + 1)
  {
  }

  lemma TurnSpends(maxSize: int, name: string, source: seq<byte>, retries: int, s: Session, w: Weather, k: nat)
    requires Spent(retries, s.loop, k) && Turn(maxSize, name, source, retries, s, w).loop.verdict == Trying
    ensures Spent(retries, Turn(maxSize, name, source, retries, s, w).loop, k + 1)
  {
    var r := TurnAdvances(maxSize, name, source, retries, s, w);
    AdvanceSpends(retries, s.loop, r, k);
  }

  // ----- Which reply costs what -----

  /** The round gets as far as a reply that comes back. */
  predicate Answered(w: Weather) {
    !w.cancelled && !w.queryLost && !w.uploadLost && !w.replyLost
  }

  /** The reply that the receiver gives to the round's upload. */
  function ReplyOf(maxSize: int, name: string, source: seq<byte>, s: Session, w: Weather): Reply {
    var s1 := Others(maxSize, s, w.before);
    var put := Upload(name, source, StartOffset(s1.files, name, source), w);
    Serve(maxSize, Others(maxSize, s1, w.between).files, put).reply
  }

  /** A conflict costs no attempt and is counted against 2*(retries+1)+4 of its kind; a confirmation ends the loop;
      every other reply, like anything that gets lost, costs one attempt, and there are retries+1 of them. */
  lemma ReplyCosts(maxSize: int, name: string, source: seq<byte>, retries: int, s: Session, w: Weather)
    requires s.loop.verdict == Trying
    ensures var l, l' := s.loop, Turn(maxSize, name, source, retries, s, w).loop;
            var r := ReplyOf(maxSize, name, source, s, w);
            if w.cancelled then l' == Loop(l.attempt, l.conflicts, Stopped)
            else if Answered(w) && r.Conflict? then
              l' == Loop(l.attempt, l.conflicts + 1,
                         if l.conflicts + 1 > 2 * (retries + 1) + 4 then Diverged else Trying)
            else if Answered(w) && r.Progress? && r.complete then l' == Loop(l.attempt, l.conflicts, Sent)
            else l' == Loop(l.attempt + 1, l.conflicts, if l.attempt + 1 > retries then GaveUp else Trying)
  {
    OthersKeepLoop(maxSize, s, w.before);
    var s1 := Others(maxSize, s, w.before);
    OthersKeepLoop(maxSize, s1, w.between);
    if Answered(w) {
      UploadCosts(maxSize, name, source, retries, Others(maxSize, s1, w.between),
                  StartOffset(s1.files, name, source), w);
    }
  }

  lemma UploadCosts(maxSize: int, name: string, source: seq<byte>, retries: int, s: Session, offset: nat, w: Weather)
    requires s.loop.verdict == Trying && offset <= |source| && !w.replyLost
    ensures var l, l' := s.loop, Deliver(maxSize, name, source, retries, s, offset, w).loop;
            var r := Serve(maxSize, s.files, Upload(name, source, offset, w)).reply;
            if r.Conflict? then
              l' == Loop(l.attempt, l.conflicts + 1,
                         if l.conflicts + 1 > 2 * (retries + 1) + 4 then Diverged else Trying)
            else if r.Progress? && r.complete then l' == Loop(l.attempt, l.conflicts, Sent)
            else l' == Loop(l.attempt + 1, l.conflicts, if l.attempt + 1 > retries then GaveUp else Trying)
  {
  }

  /** The upload of the round is answered by a conflict. */
  predicate Conflicting(maxSize: int, name: string, source: seq<byte>, s: Session, w: Weather) {
    Answered(w) && ReplyOf(maxSize, name, source, s, w).Conflict?
  }

  lemma ConflictRound(play: (Session, Weather) -> Session, maxSize: int, name: string, source: seq<byte>, retries: int,
                      s: Session, w: Weather, k: nat)
    requires Plays(play, maxSize, name, source, retries) && Conflicting(maxSize, name, source, s, w)
    requires s.loop == Loop(0, k, Trying) && k < 2 * (retries + 1) + 4
    ensures OneMore(play, s, w).loop == Loop(0, k + 1, Trying)
  {
    ReplyCosts(maxSize, name, source, retries, s, w);
  }

  /** Round i meets a conflict. */
  predicate ConflictAt(play: (Session, Weather) -> Session, maxSize: int, name: string, source: seq<byte>,
                       s: Session, weather: nat -> Weather, i: nat) {
    Conflicting(maxSize, name, source, Iterate(play, s, weather, i), weather(i))
  }

  lemma {:induction false} ConflictRounds(
    play: (Session, Weather) -> Session, maxSize: int, name: string, source: seq<byte>, retries: int,
    s: Session, weather: nat -> Weather, k: nat)
    requires Plays(play, maxSize, name, source, retries)
    requires s.loop == Loop(0, 0, Trying) && retries >= 0 && k <= 2 * (retries + 1) + 4
    requires forall i: nat | i < k :: ConflictAt(play, maxSize, name, source, s, weather, i)
    ensures Iterate(play, s, weather, k).loop == Loop(0, k, Trying)
  {
    if k > 0 {
      ConflictRounds(play, maxSize, name, source, retries, s, weather, k - 1);
      Unroll(play, s, weather, k - 1);
      assert ConflictAt(play, maxSize, name, source, s, weather, k - 1);
      ConflictRound(play, maxSize, name, source, retries, Iterate(play, s, weather, k - 1), weather(k - 1), k - 1);
    }
  }

  /** However many conflicts there are within their budget, with any retries, even none, a fair round over a prefix of
      the source then ends in success. */
  lemma ConflictsThenSent(maxSize: int, files: Files, name: string, source: seq<byte>, retries: nat,
                          weather: nat -> Weather, k: nat)
    requires (maxSize <= 0 || |source| <= maxSize) && k <= 2 * (retries + 1) + 4
    requires forall i: nat | i < k ::
               Conflicting(maxSize, name, source, After(maxSize, files, name, source, retries, weather, i), weather(i))
    requires weather(k) == FAIR
    requires Held(After(maxSize, files, name, source, retries, weather, k).files, name) <= source
    ensures After(maxSize, files, name, source, retries, weather, k + 1).loop.verdict == Sent
  {
    var play := Play(maxSize, name, source, retries);
    PlayPlays(maxSize, name, source, retries);
    var s := Session(files, Begin(retries), [], 0);
    forall i: nat | i < k ensures ConflictAt(play, maxSize, name, source, s, weather, i) {
      assert After(maxSize, files, name, source, retries, weather, i) == Iterate(play, s, weather, i);
    }
    ConflictRounds(play, maxSize, name, source, retries, s, weather, k);
    Unroll(play, s, weather, k);
    FirstTurn(maxSize, name, source, retries, Iterate(play, s, weather, k));
  }

  /** Between query and upload another sender of the same source starts over and breaks off. */
  function Rewound(name: string, source: seq<byte>): Weather {
    FAIR.(between := [Full(name, source, 0).(body := [], interrupted := true)])
  }

  /** Such weather does make a conflict, out of any held prefix that is not empty; and every other sender's upload in it
      is an honest one. */
  lemma RewoundConflicts(maxSize: int, name: string, source: seq<byte>, s: Session)
    requires maxSize <= 0 || |source| <= maxSize
    requires [] < Held(s.files, name) <= source
    ensures Conflicting(maxSize, name, source, s, Rewound(name, source))
    ensures Honest(name, source, Rewound(name, source).between[0])
  {
    var w := Rewound(name, source);
    var put := w.between[0];
    assert Others(maxSize, s, []) == s;
    assert w.between[..0] == [];
    var o := Serve(maxSize, s.files, put);
    assert Others(maxSize, s, w.between).files == o.files;
    if |Held(s.files, name)| < |source| {
      assert Grown(s.files, put) == [];
      assert Held(o.files, name) == [];
    } else {
      assert Grown(s.files, put) == [];
    }
  }

  /** Without options there are five retries: the loop survives five failures and not six. */
  lemma DefaultRetries()
    ensures forall m | m != 0 :: Retries(m) == m
    ensures Drive(Retries(0), Repeat(UploadFailed, 5)).verdict == Trying
    ensures Drive(Retries(0), Repeat(UploadFailed, 6)).verdict == GaveUp
  {
    DriveFailures(Retries(0), 5);
    assert Repeat(UploadFailed, 6)[..5] == Repeat(UploadFailed, 5);
  }

  lemma {:induction false} DriveFailures(retries: int, n: nat)
    requires n <= retries
    ensures Drive(retries, Repeat(UploadFailed, n)) == Loop(n, 0, Trying)
  {
    if n > 0 {
      assert Repeat(UploadFailed, n)[..n - 1] == Repeat(UploadFailed, n - 1);
      DriveFailures(retries, n - 1);
    }
  }

  // ----- The session's budgets -----

  lemma {:induction false} SpentRounds(
    play: (Session, Weather) -> Session, maxSize: int, name: string, source: seq<byte>, retries: int,
    s: Session, weather: nat -> Weather, n: nat)
    requires Plays(play, maxSize, name, source, retries) && s.loop == Begin(retries)
    requires Iterate(play, s, weather, n).loop.verdict == Trying
    ensures Spent(retries, Iterate(play, s, weather, n).loop, n)
  {
    if n > 0 {
      Unroll(play, s, weather, n - 1);
      SpentRounds(play, maxSize, name, source, retries, s, weather, n - 1);
      TurnSpends(maxSize, name, source, retries, Iterate(play, s, weather, n - 1), weather(n - 1), n - 1);
    }
  }

  /** The session's loop spends its budgets like any other, so it ends within the same bound. */
  lemma SessionBudgets(maxSize: int, files: Files, name: string, source: seq<byte>, retries: int,
                       weather: nat -> Weather, n: nat)
    requires After(maxSize, files, name, source, retries, weather, n).loop.verdict == Trying
    ensures Spent(retries, After(maxSize, files, name, source, retries, weather, n).loop, n)
  {
    PlayPlays(maxSize, name, source, retries);
    SpentRounds(Play(maxSize, name, source, retries), maxSize, name, source, retries,
                Session(files, Begin(retries), [], 0), weather, n);
  }

  method ServeOthers(recv: Receiver, puts: seq<Put>, ghost s: Session)
    requires recv.files == s.files
    modifies recv
    ensures recv.files == Others(recv.maxSize, s, puts).files
  {
    for i := 0 to |puts|
      invariant recv.files == Others(recv.maxSize, s, puts[..i]).files
    {
      var _, _ := recv.HandlePut(puts[i]);
      assert puts[..i + 1][..i] == puts[..i];
    }
    assert puts[..|puts|] == puts;
  }

  /** One round: query the offset, upload from there, and classify the outcome. */
  method Attempt(recv: Receiver, name: string, source: seq<byte>, retries: int, w: Weather, ghost s: Session)
    returns (r: Round)
    requires recv.files == s.files
    modifies recv
    ensures var s' := Turn(recv.maxSize, name, source, retries, s, w);
            recv.files == s'.files && s'.loop == Advance(retries, s.loop, r)
  {
    if w.cancelled {
      return Cancelled;
    }
    OthersKeepLoop(recv.maxSize, s, w.before);
    OthersKeepLoop(recv.maxSize, Others(recv.maxSize, s, w.before), w.between);
    ServeOthers(recv, w.before, s);
    if w.queryLost {
      return QueryFailed;
    }
    var offset := recv.PartSize(name);
    if offset > |source| {
      offset := 0;
    }
    ServeOthers(recv, w.between, Others(recv.maxSize, s, w.before));
    if w.uploadLost {
      return UploadFailed;
    }
    var reply, _ := recv.HandlePut(Upload(name, source, offset, w));
    r := if w.replyLost then UploadFailed else Answer(reply);
  }

  /** How one round moves the two counters. */
  lemma Advanced(retries: int, attempt: nat, conflicts: nat, r: Round)
    ensures Advance(retries, Loop(attempt, conflicts, Trying), r) ==
            match r
            case Cancelled => Loop(attempt, conflicts, Stopped)
            case Confirmed => Loop(attempt, conflicts, Sent)
            case Conflicted =>
              Loop(attempt, conflicts + 1, if conflicts + 1 > MaxConflicts(retries) then Diverged else Trying)
            case _ => Loop(attempt + 1, conflicts, if attempt + 1 <= retries then Trying else GaveUp)
  {
  }

  method RoundAt(recv: Receiver, name: string, source: seq<byte>, retries: int, weather: nat -> Weather, n: nat,
                 ghost play: (Session, Weather) -> Session, ghost s: Session)
    returns (r: Round)
    requires Plays(play, recv.maxSize, name, source, retries) && s.loop == Begin(retries)
    requires var p := Iterate(play, s, weather, n); p.loop.verdict == Trying && recv.files == p.files
    modifies recv
    ensures var p, p' := Iterate(play, s, weather, n), Iterate(play, s, weather, n + 1);
            recv.files == p'.files && p'.loop == Advance(retries, p.loop, r)
    ensures n < Bound(retries)
  {
    SpentRounds(play, recv.maxSize, name, source, retries, s, weather, n);
    Unroll(play, s, weather, n);
    r := Attempt(recv, name, source, retries, weather(n), Iterate(play, s, weather, n));
  }

  /** The loop of SendFile. */
  method Retry(recv: Receiver, name: string, source: seq<byte>, retries: int, weather: nat -> Weather,
               ghost play: (Session, Weather) -> Session, ghost s: Session)
    returns (sent: bool, rounds: nat)
    requires Plays(play, recv.maxSize, name, source, retries) && s.loop == Begin(retries) && recv.files == s.files
    modifies recv
    ensures rounds <= Bound(retries)
    ensures var p := Iterate(play, s, weather, rounds);
            recv.files == p.files && p.loop.verdict != Trying && (sent <==> p.loop.verdict == Sent)
  {
    var attempt, conflicts := 0, 0;
    rounds := 0;
    while attempt <= retries
      invariant recv.files == Iterate(play, s, weather, rounds).files
      invariant Iterate(play, s, weather, rounds).loop ==
                Loop(attempt, conflicts, if attempt <= retries then Trying else GaveUp)
      invariant rounds <= Bound(retries)
      decreases Bound(retries) + 1 - rounds
    {
      var r := RoundAt(recv, name, source, retries, weather, rounds, play, s);
      rounds := rounds + 1;
      Advanced(retries, attempt, conflicts, r);
      match r {
        case Cancelled => return false, rounds;
        case Confirmed => return true, rounds;
        case Conflicted =>
          conflicts := conflicts + 1;
          if conflicts > MaxConflicts(retries) {
            return false, rounds;
          }
        case _ => attempt := attempt + 1;
      }
    }
    sent := false;
  }

  /** SendFile, working on the receiver's directory: it ends within the bound in the state that After describes. */
  method SendFile(recv: Receiver, name: string, source: seq<byte>, maxRetries: int, weather: nat -> Weather)
    returns (sent: bool, rounds: nat)
    modifies recv
    ensures rounds <= Bound(Retries(maxRetries))
    ensures var s := After(recv.maxSize, old(recv.files), name, source, Retries(maxRetries), weather, rounds);
            recv.files == s.files && s.loop.verdict != Trying && (sent <==> s.loop.verdict == Sent)
  {
    var retries := Retries(maxRetries);
    PlayPlays(recv.maxSize, name, source, retries);
    sent, rounds := Retry(recv, name, source, retries, weather, Play(recv.maxSize, name, source, retries),
                          Session(recv.files, Begin(retries), [], 0));
  }
}
