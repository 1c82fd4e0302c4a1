// SendFile's loop against the receiver whose uploads go in steps: the sender's own upload and everybody else's
// interleave at the gates, the choices of final names and the renames.

module SplitSend {
  import opened Basics
  import opened DropFolder
  import opened Receiver
  import opened Finalise
  import S = Sender

  /** The handler that serves this sender. */
  const ME: Tid := 0

  /** What happens around one round: steps of other handlers before the query, before the upload, after the body has
      been stored and after the final name has been chosen; and what becomes of requests, body and reply. */
  datatype Weather = Weather(
    cancelled: bool, queryLost: bool, uploadLost: bool, replyLost: bool,
    arrives: Option<nat>, interrupted: bool, fault: Fault,
    before: seq<Action>, between: seq<Action>, stored: seq<Action>, chosen: seq<Action>)

  /** deliveries has the final names under which files of this name were delivered. */
  datatype Session = Session(state: State, loop: S.Loop, deliveries: seq<string>)

  /** The final name that the step gives to a file of this name, if it does. */
  function Given(name: string, s: State, a: Action): seq<string> {
    if a.Rename? && Chosen(s, a.t) && s.jobs[a.t].name == name then [s.jobs[a.t].final.value] else []
  }

  function Step(name: string, s: Session, a: Action): Session {
    s.(state := Next(s.state, a), deliveries := s.deliveries + Given(name, s.state, a))
  }

  /** Steps of other handlers. */
  function Others(name: string, s: Session, actions: seq<Action>): Session {
    if actions == [] then s
    else
      var p, a := Others(name, s, actions[..|actions| - 1]), actions[|actions| - 1];
      if a.t == ME then p else Step(name, p, a)
  }

  function Upload(name: string, source: seq<byte>, offset: nat, w: Weather): Put
    requires offset <= |source|
  {
    S.Upload(name, source, offset, S.FAIR.(arrives := w.arrives, interrupted := w.interrupted, fault := w.fault))
  }

  /** The body is in ".part", with the right digest. */
  function BodyIn(name: string, s: Session, put: Put): Session
    requires put.total.Some? && put.offset.Some? && 0 <= put.offset.value <= |Held(s.state.files, put.name)|
  {
    Step(name, s, Store(ME, Some(Grown(s.state.files, put))))
  }

  /** And the final name has been chosen. */
  function NameChosen(name: string, s: Session, w: Weather): Session {
    Step(name, Others(name, s, w.stored), Choose(ME))
  }

  function Replied(retries: int, s: Session, r: S.Round, w: Weather): Session {
    s.(loop := S.Advance(retries, s.loop, if w.replyLost then S.UploadFailed else r))
  }

  /** The upload, by a handler that holds the gate. */
  function ServeUpload(maxSize: int, name: string, retries: int, s: Session, put: Put, w: Weather): Session {
    var o := Serve(maxSize, s.state.files, put);
    if o.stored.None? then
      var left := Step(name, s, Store(ME, Leaves(maxSize, s.state.files, put)));
      Replied(retries, Step(name, left, Release(ME)), S.Answer(o.reply), w)
    else
      var ready := Others(name, NameChosen(name, BodyIn(name, s, put), w), w.chosen);
      Replied(retries, Step(name, ready, Rename(ME)), S.Confirmed, w)
  }

  /** One round of the loop; an upload that never gets its gate fails. */
  function Turn(maxSize: int, name: string, source: seq<byte>, retries: int, s: Session, w: Weather): Session {
    if w.cancelled then s.(loop := S.Advance(retries, s.loop, S.Cancelled))
    else
      var s1 := Others(name, s, w.before);
      if w.queryLost then s1.(loop := S.Advance(retries, s1.loop, S.QueryFailed))
      else
        var offset := S.StartOffset(s1.state.files, name, source);
        var s2 := Others(name, s1, w.between);
        var s3 := Step(name, s2, Acquire(ME, name));
        if w.uploadLost || !Storing(s3.state, ME)
        then s2.(loop := S.Advance(retries, s2.loop, S.UploadFailed))
        else ServeUpload(maxSize, name, retries, s3, Upload(name, source, offset, w), w)
  }

  // ----- What is asked of the other handlers -----

  /** Who uploads under this name uploads the source: its ".part" is left a prefix of it, and is the source when the
      digest matches.  And nobody else has chosen the name that a delivery is renamed to and holds something else. */
  ghost predicate AllowedStep(name: string, source: seq<byte>, s: State, a: Action) {
    a.t in s.jobs && s.jobs[a.t].name == name ==>
      match a
      case Store(t, content) => content.Some? ==> content.value <= source
      case Choose(t) => PartName(name) in s.files ==> s.files[PartName(name)] == source
      case Rename(t) => forall u :: !Rival(s, t, u)
      case _ => true
  }

  ghost predicate AllAllowed(name: string, source: seq<byte>, s: Session, actions: seq<Action>) {
    forall k | 0 <= k < |actions| && actions[k].t != ME ::
      AllowedStep(name, source, Others(name, s, actions[..k]).state, actions[k])
  }

  /** The steps that fall into the upload itself, and no rival at its rename. */
  ghost predicate AllowedUpload(maxSize: int, name: string, source: seq<byte>, s: Session, put: Put, w: Weather) {
    Serve(maxSize, s.state.files, put).stored.Some? ==>
      var s1 := BodyIn(name, s, put);
      var s2 := NameChosen(name, s1, w);
      && AllAllowed(name, source, s1, w.stored)
      && AllAllowed(name, source, s2, w.chosen)
      && forall u :: !Rival(Others(name, s2, w.chosen).state, ME, u)
  }

  ghost predicate AllowedWeather(maxSize: int, name: string, source: seq<byte>, s: Session, w: Weather) {
    !w.cancelled ==>
      var s1 := Others(name, s, w.before);
      && AllAllowed(name, source, s, w.before)
      && (!w.queryLost ==>
            var s2 := Others(name, s1, w.between);
            var s3 := Step(name, s2, Acquire(ME, name));
            && AllAllowed(name, source, s1, w.between)
            && (!w.uploadLost && Storing(s3.state, ME) ==>
                  AllowedUpload(maxSize, name, source, s3,
                                Upload(name, source, S.StartOffset(s1.state.files, name, source), w), w)))
  }

  // ----- Preservation -----

  /** ".part" is a prefix of the source, and the source once a final name is chosen; every delivery under this name
      is the source, in place, and out of everybody's reach. */
  ghost predicate Ok(name: string, source: seq<byte>, s: Session) {
    && Inv(s.state) && PartIsPrefix(s.state.files, name, source)
    && (forall t | Chosen(s.state, t) && s.state.jobs[t].name == name :: PartOf(s.state, t) == source)
    && forall f | f in s.deliveries :: Guarded(s.state, f, source)
  }

  /** A step of a handler of another name. */
  lemma ForeignPart(s: State, a: Action, name: string)
    requires Inv(s) && (a.t in s.jobs ==> s.jobs[a.t].name != name)
    ensures var part, s' := PartName(name), Next(s, a);
            (part in s'.files <==> part in s.files) && (part in s.files ==> s'.files[part] == s.files[part])
  {
    if a.t in s.jobs {
      assert JobOk(s, a.t);
      PartsDiffer(name, s.jobs[a.t].name);
    }
  }

  lemma StepPart(name: string, source: seq<byte>, s: Session, a: Action)
    requires Ok(name, source, s) && AllowedStep(name, source, s.state, a)
    ensures PartIsPrefix(Next(s.state, a).files, name, source)
  {
    if a.t in s.state.jobs && s.state.jobs[a.t].name == name {
      assert JobOk(s.state, a.t);
      PartsDiffer(name, name);
    } else {
      ForeignPart(s.state, a, name);
    }
  }

  lemma StepChosen(name: string, source: seq<byte>, s: Session, a: Action, t: Tid)
    requires Ok(name, source, s) && AllowedStep(name, source, s.state, a)
    requires var s' := Next(s.state, a); Chosen(s', t) && s'.jobs[t].name == name
    ensures PartOf(Next(s.state, a), t) == source
  {
    if t != a.t { OtherParts(s.state, a, t); }
  }

  lemma StepDeliveries(name: string, source: seq<byte>, s: Session, a: Action, f: string)
    requires Ok(name, source, s) && AllowedStep(name, source, s.state, a)
    requires f in Step(name, s, a).deliveries
    ensures Guarded(Next(s.state, a), f, source)
  {
    if f in s.deliveries {
      GuardedStep(s.state, a, f, source);
    } else {
      assert f in Given(name, s.state, a);
      GuardedIffNoRival(s.state, a.t);
    }
  }

  lemma StepOk(name: string, source: seq<byte>, s: Session, a: Action)
    requires Ok(name, source, s) && AllowedStep(name, source, s.state, a)
    ensures Ok(name, source, Step(name, s, a))
  {
    var s' := Step(name, s, a);
    NextKeeps(s.state, a);
    StepPart(name, source, s, a);
    forall t | Chosen(s'.state, t) && s'.state.jobs[t].name == name ensures PartOf(s'.state, t) == source {
      StepChosen(name, source, s, a, t);
    }
    forall f | f in s'.deliveries ensures Guarded(s'.state, f, source) {
      StepDeliveries(name, source, s, a, f);
    }
  }

  lemma {:induction false} OthersOk(name: string, source: seq<byte>, s: Session, actions: seq<Action>)
    requires Ok(name, source, s) && AllAllowed(name, source, s, actions)
    ensures Ok(name, source, Others(name, s, actions))
  {
    if actions != [] {
      var init, a := actions[..|actions| - 1], actions[|actions| - 1];
      assert forall k | 0 <= k < |init| :: init[..k] == actions[..k] && init[k] == actions[k];
      OthersOk(name, source, s, init);
      if a.t != ME {
        assert AllowedStep(name, source, Others(name, s, actions[..|actions| - 1]).state, a);
        StepOk(name, source, Others(name, s, init), a);
      }
    }
  }

  /** Others leave this sender's job and its ".part" alone, and the loop and the deliveries so far. */
  lemma {:induction false} OthersMine(name: string, s: Session, actions: seq<Action>)
    requires Inv(s.state)
    ensures var s' := Others(name, s, actions);
            && Inv(s'.state) && s'.loop == s.loop && s.deliveries <= s'.deliveries
            && (ME in s'.state.jobs <==> ME in s.state.jobs)
            && (ME in s.state.jobs ==>
                  var part := PartName(s.state.jobs[ME].name);
                  && s'.state.jobs[ME] == s.state.jobs[ME]
                  && (part in s'.state.files <==> part in s.state.files)
                  && (part in s.state.files ==> s'.state.files[part] == s.state.files[part]))
  {
    if actions != [] {
      var p, a := Others(name, s, actions[..|actions| - 1]), actions[|actions| - 1];
      OthersMine(name, s, actions[..|actions| - 1]);
      if a.t != ME {
        NextKeeps(p.state, a);
        if ME in p.state.jobs { OtherParts(p.state, a, ME); }
      }
    }
  }

  /** What a delivering upload of the source has in ".part". */
  lemma DeliversSource(maxSize: int, files: Files, name: string, source: seq<byte>, put: Put)
    requires put.name == name && put.sum == Some(Sha(source)) && Serve(maxSize, files, put).stored.Some?
    ensures Grown(files, put) == source
  {
    DeliveredMatchesDigest(maxSize, files, put);
  }

  lemma NotDelivering(maxSize: int, name: string, source: seq<byte>, retries: int, s: Session, put: Put, w: Weather)
    requires Ok(name, source, s) && Storing(s.state, ME) && s.state.jobs[ME].name == name
    requires put.name == name && Honest(name, source, put) && Serve(maxSize, s.state.files, put).stored.None?
    ensures var s' := ServeUpload(maxSize, name, retries, s, put, w);
            Ok(name, source, s') && ME !in s'.state.jobs && s.deliveries <= s'.deliveries
  {
    HonestKeeps(maxSize, s.state.files, name, source, put);
    var a := Store(ME, Leaves(maxSize, s.state.files, put));
    StepOk(name, source, s, a);
    StepOk(name, source, Step(name, s, a), Release(ME));
  }

  /** Up to the choice of the final name. */
  lemma Choosing(maxSize: int, name: string, source: seq<byte>, s: Session, put: Put, w: Weather)
    requires Ok(name, source, s) && Storing(s.state, ME) && s.state.jobs[ME].name == name
    requires put.name == name && put.sum == Some(Sha(source)) && Serve(maxSize, s.state.files, put).stored.Some?
    requires AllAllowed(name, source, BodyIn(name, s, put), w.stored)
    ensures var s' := NameChosen(name, BodyIn(name, s, put), w);
            && Ok(name, source, s') && s.deliveries <= s'.deliveries
            && Chosen(s'.state, ME) && s'.state.jobs[ME].name == name
  {
    DeliversSource(maxSize, s.state.files, name, source, put);
    var s1 := BodyIn(name, s, put);
    StepOk(name, source, s, Store(ME, Some(source)));
    OthersOk(name, source, s1, w.stored);
    OthersMine(name, s1, w.stored);
    StepOk(name, source, Others(name, s1, w.stored), Choose(ME));
  }

  lemma Delivering(maxSize: int, name: string, source: seq<byte>, retries: int, s: Session, put: Put, w: Weather)
    requires Ok(name, source, s) && Storing(s.state, ME) && s.state.jobs[ME].name == name
    requires put.name == name && put.sum == Some(Sha(source)) && Serve(maxSize, s.state.files, put).stored.Some?
    requires AllowedUpload(maxSize, name, source, s, put, w)
    ensures var s' := ServeUpload(maxSize, name, retries, s, put, w);
            Ok(name, source, s') && ME !in s'.state.jobs && s.deliveries < s'.deliveries
  {
    Choosing(maxSize, name, source, s, put, w);
    var s3 := NameChosen(name, BodyIn(name, s, put), w);
    OthersOk(name, source, s3, w.chosen);
    OthersMine(name, s3, w.chosen);
    StepOk(name, source, Others(name, s3, w.chosen), Rename(ME));
  }

  /** All is well between rounds, and success means that the source was delivered under the name. */
  ghost predicate Safe(name: string, source: seq<byte>, s: Session) {
    Ok(name, source, s) && ME !in s.state.jobs && (s.loop.verdict == S.Sent ==> s.deliveries != [])
  }

  lemma UploadSafe(maxSize: int, name: string, source: seq<byte>, retries: int, s: Session, put: Put, w: Weather)
    requires Ok(name, source, s) && Storing(s.state, ME) && s.state.jobs[ME].name == name
    requires put.name == name && put.sum == Some(Sha(source)) && Honest(name, source, put)
    requires AllowedUpload(maxSize, name, source, s, put, w) && s.loop.verdict == S.Trying
    ensures var s' := ServeUpload(maxSize, name, retries, s, put, w);
            Safe(name, source, s') && s.deliveries <= s'.deliveries
  {
    if Serve(maxSize, s.state.files, put).stored.Some? {
      Delivering(maxSize, name, source, retries, s, put, w);
    } else {
      NotDelivering(maxSize, name, source, retries, s, put, w);
    }
  }

  lemma TurnSafe(maxSize: int, name: string, source: seq<byte>, retries: int, s: Session, w: Weather)
    requires Safe(name, source, s) && s.loop.verdict == S.Trying && !IsPart(name)
    requires AllowedWeather(maxSize, name, source, s, w)
    ensures var s' := Turn(maxSize, name, source, retries, s, w);
            Safe(name, source, s') && s.deliveries <= s'.deliveries
  {
    if !w.cancelled {
      var s1 := Others(name, s, w.before);
      OthersOk(name, source, s, w.before);
      OthersMine(name, s, w.before);
      if !w.queryLost {
        var s2 := Others(name, s1, w.between);
        OthersOk(name, source, s1, w.between);
        OthersMine(name, s1, w.between);
        var s3 := Step(name, s2, Acquire(ME, name));
        StepOk(name, source, s2, Acquire(ME, name));
        if !w.uploadLost && Storing(s3.state, ME) {
          var offset := S.StartOffset(s1.state.files, name, source);
          S.UploadIsHonest(name, source, offset,
                           S.FAIR.(arrives := w.arrives, interrupted := w.interrupted, fault := w.fault));
          UploadSafe(maxSize, name, source, retries, s3, Upload(name, source, offset, w), w);
        }
      }
    }
  }

  // ----- Any number of rounds -----

  function OneMore(play: (Session, Weather) -> Session, s: Session, w: Weather): Session {
    if s.loop.verdict != S.Trying then s else play(s, w)
  }

  /** n rounds, or fewer if the loop ends. */
  function Iterate(play: (Session, Weather) -> Session, s: Session, weather: nat -> Weather, n: nat): Session {
    if n == 0 then s
    else
      var p := Iterate(play, s, weather, n - 1);
      if p.loop.verdict != S.Trying then p else play(p, weather(n - 1))
  }

  function Play(maxSize: int, name: string, source: seq<byte>, retries: int): (Session, Weather) -> Session {
    (s, w) => Turn(maxSize, name, source, retries, s, w)
  }

  /** The session after n rounds. */
  function After(maxSize: int, files: Files, name: string, source: seq<byte>, retries: int,
                 weather: nat -> Weather, n: nat): Session
  {
    Iterate(Play(maxSize, name, source, retries), Session(Start(files), S.Begin(retries), []), weather, n)
  }

  lemma Unroll(play: (Session, Weather) -> Session, s: Session, weather: nat -> Weather, n: nat)
    ensures Iterate(play, s, weather, n + 1) == OneMore(play, Iterate(play, s, weather, n), weather(n))
  {
  }

  /** The rounds that play stands for. */
  ghost predicate Plays(
    play: (Session, Weather) -> Session, maxSize: int, name: string, source: seq<byte>, retries: int) {
    forall s, w {:trigger OneMore(play, s, w)} ::
      OneMore(play, s, w) == if s.loop.verdict != S.Trying then s else Turn(maxSize, name, source, retries, s, w)
  }

  lemma PlayPlays(maxSize: int, name: string, source: seq<byte>, retries: int)
    ensures Plays(Play(maxSize, name, source, retries), maxSize, name, source, retries)
  {
  }

  lemma SafeRound(play: (Session, Weather) -> Session, maxSize: int, name: string, source: seq<byte>, retries: int,
                  s: Session, w: Weather)
    requires Plays(play, maxSize, name, source, retries)
    requires Safe(name, source, s) && !IsPart(name) && AllowedWeather(maxSize, name, source, s, w)
    ensures Safe(name, source, OneMore(play, s, w)) && s.deliveries <= OneMore(play, s, w).deliveries
  {
    if s.loop.verdict == S.Trying { TurnSafe(maxSize, name, source, retries, s, w); }
  }

  /** Before round i, the weather of that round is allowed. */
  ghost predicate AllowedAt(play: (Session, Weather) -> Session, maxSize: int, name: string, source: seq<byte>,
                            s: Session, weather: nat -> Weather, i: nat) {
    AllowedWeather(maxSize, name, source, Iterate(play, s, weather, i), weather(i))
  }

  lemma {:induction false} SafeRounds(
    play: (Session, Weather) -> Session, maxSize: int, name: string, source: seq<byte>, retries: int,
    s: Session, weather: nat -> Weather, n: nat)
    requires Plays(play, maxSize, name, source, retries) && Safe(name, source, s) && !IsPart(name)
    requires forall i: nat | i < n :: AllowedAt(play, maxSize, name, source, s, weather, i)
    ensures Safe(name, source, Iterate(play, s, weather, n))
  {
    if n > 0 {
      SafeRounds(play, maxSize, name, source, retries, s, weather, n - 1);
      Unroll(play, s, weather, n - 1);
      assert AllowedAt(play, maxSize, name, source, s, weather, n - 1);
      SafeRound(play, maxSize, name, source, retries, Iterate(play, s, weather, n - 1), weather(n - 1));
    }
  }

  /** For every interleaving of upload steps, every cut, lost request and reply and file-system failure: as long as
      whoever uploads under the name uploads the source and no rename under it has a rival, ".part" stays a prefix of
      the source, every delivery under the name is the source and stays in place, and success means that there was
      one. */
  lemma SplitDelivery(maxSize: int, files: Files, name: string, source: seq<byte>, retries: int,
                      weather: nat -> Weather, n: nat)
    requires !IsPart(name) && PartIsPrefix(files, name, source)
    requires forall i: nat | i < n ::
               AllowedWeather(
                 maxSize, name, source, After(maxSize, files, name, source, retries, weather, i), weather(i))
    ensures var s := After(maxSize, files, name, source, retries, weather, n);
            && PartIsPrefix(s.state.files, name, source)
            && (forall f | f in s.deliveries ::
                  f in s.state.files && s.state.files[f] == source && Stays(s.state, f, source))
            && (s.loop.verdict == S.Sent ==> s.deliveries != [])
  {
    var play := Play(maxSize, name, source, retries);
    PlayPlays(maxSize, name, source, retries);
    var s := Session(Start(files), S.Begin(retries), []);
    forall i: nat | i < n ensures AllowedAt(play, maxSize, name, source, s, weather, i) {
      assert After(maxSize, files, name, source, retries, weather, i) == Iterate(play, s, weather, i);
    }
    SafeRounds(play, maxSize, name, source, retries, s, weather, n);
    var end := Iterate(play, s, weather, n);
    forall f | f in end.deliveries ensures Stays(end.state, f, source) {
      assert Guarded(end.state, f, source);
      StaysIff(end.state, f);
    }
  }

  // ----- Alone -----

  /** Nobody else does anything in this round. */
  predicate Alone(w: Weather) {
    w.before == [] && w.between == [] && w.stored == [] && w.chosen == []
  }

  /** The weather of the one-step session. */
  function Whole(w: Weather): S.Weather {
    S.Weather(w.cancelled, [], w.queryLost, [], w.uploadLost, w.arrives, w.interrupted, w.fault, w.replyLost)
  }

  lemma AloneUpload(maxSize: int, name: string, retries: int, s: Session, put: Put, w: Weather)
    requires Alone(w) && !IsPart(name) && put.name == name
    requires s.state.jobs == map[ME := Job(name, None)]
    ensures var s', o := ServeUpload(maxSize, name, retries, s, put, w), Serve(maxSize, s.state.files, put);
            && s'.state == State(o.files, map[])
            && s'.loop == S.Advance(retries, s.loop, if w.replyLost then S.UploadFailed else S.Answer(o.reply))
  {
    var files, o := s.state.files, Serve(maxSize, s.state.files, put);
    if o.stored.Some? {
      SerialIsServe(maxSize, files, put, ME);
      assert Next(Start(files), Acquire(ME, name)) == s.state;
      DeliveredMatchesDigest(maxSize, files, put);
    } else {
      NotDeliveringIsStore(maxSize, files, put);
      assert map[ME := Job(name, None)] - {ME} == map[];
    }
  }

  /** Undisturbed rounds are the rounds of the one-step session, so what is proved of those (the bound, self-healing)
      holds of the steps as well. */
  lemma AloneIsTurn(maxSize: int, name: string, source: seq<byte>, retries: int, s: Session, w: Weather, t: S.Session)
    requires Alone(w) && !IsPart(name) && s.state.jobs == map[] && t.files == s.state.files && t.loop == s.loop
    ensures var s' := Turn(maxSize, name, source, retries, s, w);
            var t' := S.Turn(maxSize, name, source, retries, t, Whole(w));
            s'.state == State(t'.files, map[]) && s'.loop == t'.loop
  {
    if !w.cancelled && !w.queryLost && !w.uploadLost {
      var s3 := Step(name, s, Acquire(ME, name));
      assert s3.state == State(s.state.files, map[ME := Job(name, None)]);
      AloneUpload(maxSize, name, retries, s3,
                  Upload(name, source, S.StartOffset(s.state.files, name, source), w), w);
    }
  }
}
