// Per-IP token buckets with idle eviction, over real time and real tokens.

module RateLimit {
  type Ip = nat

  datatype Config = Config(rate: real, burst: int, ttl: real)

  /** NewLimiter replaces a non-positive burst and a non-positive ttl by defaults. */
  function NewConfig(rate: real, burst: int, ttl: real): Config {
    Config(rate, if burst <= 0 then 10 else burst, if ttl <= 0.0 then 300.0 else ttl)
  }

  predicate WellFormed(c: Config) {
    c.burst > 0 && c.ttl > 0.0
  }

  datatype Bucket = Bucket(tokens: real, last: real, lastSeen: real)

  type Table = map<Ip, Bucket>

  /** Tokens earned in d seconds. */
  function Earns(c: Config, d: real): real {
    d * c.rate
  }

  function Refilled(c: Config, b: Bucket, now: real): real {
    var t := b.tokens + Earns(c, now - b.last);
    if t > c.burst as real then c.burst as real else t
  }

  /** An entry's answer at time now. */
  function Granted(c: Config, b: Bucket, now: real): bool {
    Refilled(c, b, now) >= 1.0
  }

  function Spend(c: Config, b: Bucket, now: real): Bucket {
    Bucket(Refilled(c, b, now) - (if Granted(c, b, now) then 1.0 else 0.0), now, now)
  }

  function Fresh(c: Config, now: real): Bucket {
    Bucket(c.burst as real - 1.0, now, now)
  }

  /** Allow: the answer, and the table afterwards. */
  function Answer(c: Config, t: Table, ip: Ip, now: real): bool {
    c.rate > 0.0 && ip in t ==> Granted(c, t[ip], now)
  }

  function Touch(c: Config, t: Table, ip: Ip, now: real): Table {
    if c.rate <= 0.0 then t else t[ip := if ip in t then Spend(c, t[ip], now) else Fresh(c, now)]
  }

  /** One pass of the cleanup goroutine. */
  function Expire(c: Config, t: Table, now: real): Table {
    map ip | ip in t && !(t[ip].lastSeen < now - c.ttl) :: t[ip]
  }

  class IpLimiter {
    var tokens: real
    var last: real
    var lastSeen: real
    const config: Config

    constructor (tokens: real, now: real, config: Config)
      ensures Value() == Bucket(tokens, now, now) && this.config == config
    {
      this.tokens, last, lastSeen, this.config := tokens, now, now, config;
    }

    function Value(): Bucket
      reads this
    {
      Bucket(tokens, last, lastSeen)
    }

    method Allow(now: real) returns (ok: bool)
      modifies this
      ensures ok == Granted(config, old(Value()), now) && Value() == Spend(config, old(Value()), now)
    {
      var elapsed := now - last;
      last := now;
      lastSeen := now;
      tokens := tokens + Earns(config, elapsed);
      if tokens > config.burst as real {
        tokens := config.burst as real;
      }
      if tokens >= 1.0 {
        tokens := tokens - 1.0;
        return true;
      }
      ok := false;
    }
  }

  class Limiter {
    const config: Config
    var ips: map<Ip, IpLimiter>

    ghost predicate Valid()
      reads this, ips.Values
    {
      && (forall a | a in ips :: ips[a].config == config)
      && forall a, b | a in ips && b in ips && ips[a] == ips[b] :: a == b
    }

    function Entries(): Table
      reads this, ips.Values
    {
      map ip | ip in ips :: ips[ip].Value()
    }

    constructor (rate: real, burst: int, ttl: real)
      ensures Valid() && Entries() == map[] && WellFormed(config) && config.rate == rate
      ensures config.burst == (if burst > 0 then burst else 10) && config.ttl == (if ttl > 0.0 then ttl else 300.0)
    {
      config := NewConfig(rate, burst, ttl);
      ips := map[];
    }

    method Allow(ip: Ip, now: real) returns (ok: bool)
      requires Valid()
      modifies this, ips.Values
      ensures Valid() && fresh(ips.Values - old(ips.Values))
      ensures ok == Answer(config, old(Entries()), ip, now) && Entries() == Touch(config, old(Entries()), ip, now)
    {
      if config.rate <= 0.0 {
        return true;
      }
      ghost var before := Entries();
      if ip !in ips {
        var entry := new IpLimiter(config.burst as real, now, config);
        ips := ips[ip := entry];
        // just created: the first request always passes
        entry.tokens := entry.tokens - 1.0;
        assert Entries() == before[ip := Fresh(config, now)];
        return true;
      }
      ok := ips[ip].Allow(now);
      assert Entries() == before[ip := Spend(config, before[ip], now)];
    }

    method Cleanup(now: real)
      requires Valid()
      modifies this
      ensures Valid() && Entries() == Expire(config, old(Entries()), now)
    {
      var cutoff := now - config.ttl;
      var snapshot := ips;
      var todo := snapshot.Keys;
      while todo != {}
        invariant todo <= snapshot.Keys && ips.Keys <= snapshot.Keys
        invariant forall ip | ip in ips :: ips[ip] == snapshot[ip]
        invariant forall ip | ip in snapshot :: ip in ips <==> ip in todo || !(snapshot[ip].lastSeen < cutoff)
      {
        var ip :| ip in todo;
        if snapshot[ip].lastSeen < cutoff {
          ips := ips - {ip};
        }
        todo := todo - {ip};
      }
    }
  }

  // ----- Runs -----

  datatype Event = Request(ip: Ip, now: real) | Tick(now: real)

  /** Calls happen at non-decreasing times. */
  ghost predicate Ordered(es: seq<Event>) {
    forall i, j | 0 <= i < j < |es| :: es[i].now <= es[j].now
  }

  datatype State = State(table: Table, answers: seq<bool>)

  function Step(c: Config, evict: bool, s: State, e: Event): State {
    match e
    case Request(ip, now) => State(Touch(c, s.table, ip, now), s.answers + [Answer(c, s.table, ip, now)])
    case Tick(now) => State(if evict then Expire(c, s.table, now) else s.table, s.answers)
  }

  function Run(c: Config, evict: bool, es: seq<Event>): State {
    if es == [] then State(map[], []) else Step(c, evict, Run(c, evict, es[..|es| - 1]), es[|es| - 1])
  }

  lemma EarnsIs(c: Config, d: real)
    ensures Earns(c, d) == d * c.rate
  {
  }

  lemma EarnsMonotone(c: Config, d: real, d': real)
    requires c.rate > 0.0 && d <= d'
    ensures Earns(c, d) <= Earns(c, d')
  {
    assert (d' - d) * c.rate >= 0.0;
  }

  lemma EarnsNonNegative(c: Config, d: real)
    requires c.rate > 0.0 && d >= 0.0
    ensures Earns(c, d) >= 0.0
  {
  }

  lemma EarnsAdd(c: Config, d: real, d': real, sum: real)
    requires d + d' == sum
    ensures Earns(c, d) + Earns(c, d') == Earns(c, sum)
  {
    assert d * c.rate + d' * c.rate == (d + d') * c.rate;
  }

  ghost predicate BucketOk(c: Config, b: Bucket, now: real) {
    0.0 <= b.tokens <= c.burst as real && b.last == b.lastSeen <= now
  }

  /** Without having been touched again, the bucket is full at time now. */
  ghost predicate Full(c: Config, b: Bucket, now: real) {
    b.tokens + Earns(c, now - b.last) >= c.burst as real
  }

  /** The evicting table a is the table b without some entries that are full again. */
  ghost predicate Matches(c: Config, a: Table, b: Table, now: real) {
    && (forall ip | ip in a :: ip in b && a[ip] == b[ip])
    && (forall ip | ip in b :: BucketOk(c, b[ip], now) && (ip in a || Full(c, b[ip], now)))
  }

  lemma FullLater(c: Config, b: Bucket, now: real, later: real)
    requires c.rate > 0.0 && Full(c, b, now) && now <= later
    ensures Full(c, b, later)
  {
    EarnsMonotone(c, now - b.last, later - b.last);
  }

  lemma MatchesLater(c: Config, a: Table, b: Table, now: real, later: real)
    requires c.rate > 0.0 && Matches(c, a, b, now) && now <= later
    ensures Matches(c, a, b, later)
  {
    forall ip | ip in b && ip !in a ensures Full(c, b[ip], later) { FullLater(c, b[ip], now, later); }
  }

  lemma SpendOk(c: Config, b: Bucket, now: real)
    requires WellFormed(c) && c.rate > 0.0 && BucketOk(c, b, now)
    ensures BucketOk(c, Spend(c, b, now), now)
  {
    EarnsNonNegative(c, now - b.last);
  }

  /** A full bucket answers and ends up like a fresh one. */
  lemma SpendFull(c: Config, b: Bucket, now: real)
    requires WellFormed(c) && Full(c, b, now)
    ensures Granted(c, b, now) && Spend(c, b, now) == Fresh(c, now)
  {
  }

  lemma RequestMatches(c: Config, a: Table, b: Table, ip: Ip, now: real)
    requires WellFormed(c) && c.rate > 0.0 && Matches(c, a, b, now)
    ensures Answer(c, a, ip, now) == Answer(c, b, ip, now)
    ensures Matches(c, Touch(c, a, ip, now), Touch(c, b, ip, now), now)
  {
    if ip in b {
      SpendOk(c, b[ip], now);
      if ip !in a { SpendFull(c, b[ip], now); }
    }
  }

  lemma TickMatches(c: Config, a: Table, b: Table, now: real)
    requires WellFormed(c) && c.rate > 0.0 && Earns(c, c.ttl) >= c.burst as real && Matches(c, a, b, now)
    ensures Matches(c, Expire(c, a, now), b, now)
  {
    forall ip | ip in b && ip !in Expire(c, a, now) ensures Full(c, b[ip], now) {
      if ip in a { EarnsMonotone(c, c.ttl, now - b[ip].last); }
    }
  }

  lemma {:induction false} RunsMatch(c: Config, es: seq<Event>, now: real)
    requires WellFormed(c) && c.rate > 0.0 && Earns(c, c.ttl) >= c.burst as real
    requires Ordered(es) && forall e | e in es :: e.now <= now
    ensures Matches(c, Run(c, true, es).table, Run(c, false, es).table, now)
    ensures Run(c, true, es).answers == Run(c, false, es).answers
  {
    if es != [] {
      var init, e := es[..|es| - 1], es[|es| - 1];
      RunsMatch(c, init, e.now);
      var a, b := Run(c, true, init), Run(c, false, init);
      match e {
        case Request(ip, t) => RequestMatches(c, a.table, b.table, ip, t);
        case Tick(t) => TickMatches(c, a.table, b.table, t);
      }
      MatchesLater(c, Run(c, true, es).table, Run(c, false, es).table, e.now, now);
    }
  }

  /** Eviction cannot be seen when an entry has time to fill up before it expires. */
  lemma EvictionInvisible(c: Config, es: seq<Event>)
    requires WellFormed(c) && Ordered(es)
    requires c.rate <= 0.0 || c.ttl * c.rate >= c.burst as real
    ensures Run(c, true, es).answers == Run(c, false, es).answers
  {
    if c.rate <= 0.0 {
      Disabled(c, es);
    } else if es != [] {
      RunsMatch(c, es, es[|es| - 1].now);
    }
  }

  lemma {:induction false} Disabled(c: Config, es: seq<Event>)
    requires c.rate <= 0.0
    ensures Run(c, true, es) == Run(c, false, es)
    ensures Run(c, true, es).table == map[]
  {
    if es != [] {
      Disabled(c, es[..|es| - 1]);
      assert Expire(c, map[], es[|es| - 1].now) == map[];
    }
  }

  /** A cleanup forgets exactly the IPs last seen longer ago than the idle time, and answers nobody. */
  lemma TickExpires(c: Config, es: seq<Event>, now: real, ip: Ip)
    ensures var s, s' := Run(c, true, es), Run(c, true, es + [Tick(now)]);
            && s'.answers == s.answers
            && (ip in s'.table <==> ip in s.table && now - s.table[ip].lastSeen <= c.ttl)
            && (ip in s'.table ==> s'.table[ip] == s.table[ip])
  {
    LastStep(c, true, es + [Tick(now)], es, Tick(now));
  }

  // ----- Below the threshold -----

  function Burst(n: nat, now: real): seq<Event> {
    seq(n, _ => Request(0, now))
  }

  /** The first requests of one IP drain its bucket, and all pass. */
  lemma {:induction false} DrainFresh(c: Config, evict: bool, n: nat)
    requires WellFormed(c) && c.rate > 0.0 && 1 <= n <= c.burst
    ensures Run(c, evict, Burst(n, 0.0)).table == map[0 := Bucket((c.burst - n) as real, 0.0, 0.0)]
    ensures |Run(c, evict, Burst(n, 0.0)).answers| == n
  {
    assert Burst(n, 0.0)[..n - 1] == Burst(n - 1, 0.0);
    if n > 1 {
      DrainFresh(c, evict, n - 1);
    } else {
      assert Run(c, evict, Burst(0, 0.0)) == State(map[], []);
    }
  }

  /** All of one IP's burst, a cleanup at time t, and the same burst again. */
  function TwoBursts(n: nat, t: real, m: nat): seq<Event> {
    Burst(n, 0.0) + [Tick(t)] + Burst(m, t)
  }

  /** Nothing is earned between two requests at the same time. */
  lemma SpendAtOnce(c: Config, b: Bucket)
    requires b.tokens <= c.burst as real
    ensures Refilled(c, b, b.last) == b.tokens
  {
    assert Earns(c, b.last - b.last) == 0.0;
  }

  lemma LastStep(c: Config, evict: bool, es: seq<Event>, init: seq<Event>, e: Event)
    requires es == init + [e]
    ensures Run(c, evict, es) == Step(c, evict, Run(c, evict, init), e)
  {
    assert es[..|es| - 1] == init;
  }

  /** The evicting limiter forgets the first burst and grants the second in full. */
  lemma {:induction false} EvictedBurst(c: Config, t: real, m: nat)
    requires WellFormed(c) && c.rate > 0.0 && c.ttl < t && m <= c.burst
    ensures var s := Run(c, true, TwoBursts(c.burst, t, m));
            && |s.answers| == c.burst + m
            && s.table == (if m == 0 then map[] else map[0 := Bucket((c.burst - m) as real, t, t)])
            && (m > 0 ==> s.answers[c.burst + m - 1])
  {
    var es := TwoBursts(c.burst, t, m);
    if m == 0 {
      DrainFresh(c, true, c.burst);
      LastStep(c, true, es, Burst(c.burst, 0.0), Tick(t));
    } else {
      EvictedBurst(c, t, m - 1);
      LastStep(c, true, es, TwoBursts(c.burst, t, m - 1), Request(0, t));
      if m > 1 { SpendAtOnce(c, Bucket((c.burst - (m - 1)) as real, t, t)); }
    }
  }

  /** The limiter that keeps its entries has refilled less than a burst by then. */
  lemma {:induction false} KeptBurst(c: Config, t: real, m: nat)
    requires WellFormed(c) && c.rate > 0.0 && 0.0 < t && Earns(c, t) < c.burst as real && m <= c.burst
    ensures var s := Run(c, false, TwoBursts(c.burst, t, m));
            && |s.answers| == c.burst + m
            && (if m == 0 then s.table == map[0 := Bucket(0.0, 0.0, 0.0)]
                else s.table.Keys == {0} && s.table[0].last == t && s.table[0].tokens <= c.burst as real
                     && (s.table[0].tokens <= Earns(c, t) - m as real || s.table[0].tokens < 1.0))
            && (m == c.burst ==> !s.answers[c.burst + m - 1])
  {
    var es := TwoBursts(c.burst, t, m);
    if m == 0 {
      DrainFresh(c, false, c.burst);
      LastStep(c, false, es, Burst(c.burst, 0.0), Tick(t));
    } else {
      KeptBurst(c, t, m - 1);
      LastStep(c, false, es, TwoBursts(c.burst, t, m - 1), Request(0, t));
      var b := Run(c, false, TwoBursts(c.burst, t, m - 1)).table[0];
      if m > 1 { SpendAtOnce(c, b); }
    }
  }

  /** Eviction is invisible in every run if and only if a full refill fits into the idle time. */
  lemma EvictionInvisibleIff(c: Config)
    requires WellFormed(c)
    ensures (forall es: seq<Event> | Ordered(es) :: Run(c, true, es).answers == Run(c, false, es).answers)
            <==> c.rate <= 0.0 || c.ttl * c.rate >= c.burst as real
  {
    EarnsIs(c, c.ttl);
    if c.rate <= 0.0 || Earns(c, c.ttl) >= c.burst as real {
      forall es: seq<Event> | Ordered(es) ensures Run(c, true, es).answers == Run(c, false, es).answers {
        EvictionInvisible(c, es);
      }
    } else {
      var es := EvictionShows(c);
    }
  }

  /** Two bursts, the second just after expiry, are answered differently. */
  lemma EvictionShows(c: Config) returns (es: seq<Event>)
    requires WellFormed(c) && c.rate > 0.0 && Earns(c, c.ttl) < c.burst as real
    ensures Ordered(es) && Run(c, true, es).answers != Run(c, false, es).answers
  {
    var t := TooEarly(c);
    es := TwoBursts(c.burst, t, c.burst);
    EvictedBurst(c, t, c.burst);
    KeptBurst(c, t, c.burst);
    assert Run(c, true, es).answers[2 * c.burst - 1] != Run(c, false, es).answers[2 * c.burst - 1];
  }

  /** A time after expiry at which an empty bucket is not yet full. */
  lemma TooEarly(c: Config) returns (t: real)
    requires WellFormed(c) && c.rate > 0.0 && Earns(c, c.ttl) < c.burst as real
    ensures c.ttl < t && Earns(c, t) < c.burst as real
  {
    var gap := c.burst as real - Earns(c, c.ttl);
    var d := gap / (2.0 * c.rate);
    assert d * (2.0 * c.rate) == gap;
    t := c.ttl + d;
    assert Earns(c, t) == Earns(c, c.ttl) + gap / 2.0;
  }

  // ----- The window bound -----

  /** Requests of ip at times in [from, to] that were granted. */
  function GrantedIn(c: Config, evict: bool, es: seq<Event>, ip: Ip, from: real, to: real): nat {
    if es == [] then 0
    else
      var init, e := es[..|es| - 1], es[|es| - 1];
      GrantedIn(c, evict, init, ip, from, to) +
        if e.Request? && e.ip == ip && from <= e.now <= to && Answer(c, Run(c, evict, init).table, ip, e.now) then 1
        else 0
  }

  /** What was granted since the window opened, plus what is left, has been earned. */
  ghost predicate Earned(c: Config, t: Table, ip: Ip, granted: nat, from: real) {
    granted > 0 ==>
      ip in t && t[ip].last >= from && granted as real + t[ip].tokens <= c.burst as real + Earns(c, t[ip].last - from)
  }

  ghost predicate TableOk(c: Config, t: Table, now: real) {
    forall ip | ip in t :: BucketOk(c, t[ip], now)
  }

  /** One more request of an entry that has been granted something in the window. */
  lemma SpendEarned(c: Config, b: Bucket, now: real, granted: nat, from: real)
    requires WellFormed(c) && c.rate > 0.0 && BucketOk(c, b, now) && b.last >= from
    requires granted as real + b.tokens <= c.burst as real + Earns(c, b.last - from)
    ensures (granted + if Granted(c, b, now) then 1 else 0) as real + Spend(c, b, now).tokens
            <= c.burst as real + Earns(c, now - from)
  {
    EarnsAdd(c, b.last - from, now - b.last, now - from);
  }

  /** The first granted request of the window leaves at most a burst less one. */
  lemma FirstEarned(c: Config, b: Bucket, now: real, from: real)
    requires c.rate > 0.0 && from <= now && b.tokens <= c.burst as real - 1.0
    ensures 1.0 + b.tokens <= c.burst as real + Earns(c, now - from)
  {
    EarnsNonNegative(c, now - from);
  }

  lemma RequestEarned(c: Config, t: Table, ip: Ip, e: Event, granted: nat, from: real, to: real)
    requires WellFormed(c) && c.rate > 0.0 && from <= to && e.Request? && e.ip == ip && TableOk(c, t, e.now)
    requires Earned(c, t, ip, granted, from)
    ensures Earned(c, Touch(c, t, ip, e.now), ip,
                   granted + if from <= e.now <= to && Answer(c, t, ip, e.now) then 1 else 0, from)
  {
    if granted > 0 {
      SpendEarned(c, t[ip], e.now, granted, from);
    } else if from <= e.now {
      if Answer(c, t, ip, e.now) { FirstEarned(c, Touch(c, t, ip, e.now)[ip], e.now, from); }
    }
  }

  /** What has been earned by the last granted request is no more than the whole window earns. */
  lemma EarnedBound(c: Config, t: Table, ip: Ip, granted: nat, from: real, to: real)
    requires WellFormed(c) && c.rate > 0.0 && Earned(c, t, ip, granted, from)
    requires granted > 0 ==> t[ip].last <= to && t[ip].tokens >= 0.0
    requires from <= to
    ensures granted as real <= c.burst as real + Earns(c, to - from)
  {
    EarnsNonNegative(c, to - from);
    if granted > 0 { EarnsMonotone(c, t[ip].last - from, to - from); }
  }

  lemma TouchOk(c: Config, t: Table, ip: Ip, now: real)
    requires WellFormed(c) && c.rate > 0.0 && TableOk(c, t, now)
    ensures TableOk(c, Touch(c, t, ip, now), now)
  {
    if ip in t { SpendOk(c, t[ip], now); }
  }

  lemma {:induction false} WindowInduction(c: Config, es: seq<Event>, ip: Ip, from: real, to: real, now: real)
    requires WellFormed(c) && c.rate > 0.0 && Ordered(es) && from <= to && forall e | e in es :: e.now <= now
    ensures TableOk(c, Run(c, false, es).table, now)
    ensures Earned(c, Run(c, false, es).table, ip, GrantedIn(c, false, es, ip, from, to), from)
    ensures GrantedIn(c, false, es, ip, from, to) as real <= c.burst as real + Earns(c, to - from)
  {
    if es == [] {
      EarnsNonNegative(c, to - from);
    } else {
      var init, e := es[..|es| - 1], es[|es| - 1];
      WindowInduction(c, init, ip, from, to, e.now);
      var t, granted := Run(c, false, init).table, GrantedIn(c, false, init, ip, from, to);
      if e.Request? {
        TouchOk(c, t, e.ip, e.now);
        if e.ip == ip {
          RequestEarned(c, t, ip, e, granted, from, to);
          var granted' := GrantedIn(c, false, es, ip, from, to);
          if granted' > granted { EarnedBound(c, Touch(c, t, ip, e.now), ip, granted', from, to); }
        }
      }
    }
  }

  lemma {:induction false} SameGrants(c: Config, es: seq<Event>, ip: Ip, from: real, to: real)
    requires WellFormed(c) && Ordered(es) && c.rate > 0.0 && Earns(c, c.ttl) >= c.burst as real
    ensures GrantedIn(c, true, es, ip, from, to) == GrantedIn(c, false, es, ip, from, to)
  {
    if es != [] {
      var init, e := es[..|es| - 1], es[|es| - 1];
      SameGrants(c, init, ip, from, to);
      RunsMatch(c, init, e.now);
      if e.Request? { RequestMatches(c, Run(c, true, init).table, Run(c, false, init).table, e.ip, e.now); }
    }
  }

  /** In any time window one IP is granted at most a burst plus what the window earns; the same holds
      with eviction once eviction is invisible. */
  lemma WindowBound(c: Config, evict: bool, es: seq<Event>, ip: Ip, from: real, to: real)
    requires WellFormed(c) && c.rate > 0.0 && Ordered(es) && from <= to
    requires evict ==> c.ttl * c.rate >= c.burst as real
    ensures GrantedIn(c, evict, es, ip, from, to) as real <= c.burst as real + (to - from) * c.rate
  {
    EarnsIs(c, c.ttl);
    EarnsIs(c, to - from);
    WindowEarned(c, evict, es, ip, from, to);
  }

  lemma WindowEarned(c: Config, evict: bool, es: seq<Event>, ip: Ip, from: real, to: real)
    requires WellFormed(c) && c.rate > 0.0 && Ordered(es) && from <= to
    requires evict ==> Earns(c, c.ttl) >= c.burst as real
    ensures GrantedIn(c, evict, es, ip, from, to) as real <= c.burst as real + Earns(c, to - from)
  {
    if es == [] {
      EarnsNonNegative(c, to - from);
    } else {
      WindowInduction(c, es, ip, from, to, es[|es| - 1].now);
      if evict { SameGrants(c, es, ip, from, to); }
    }
  }

  // ----- Who must be granted -----

  /** The requests of ip. */
  function Requests(es: seq<Event>, ip: Ip): nat {
    if es == [] then 0
    else
      var e := es[|es| - 1];
      Requests(es[..|es| - 1], ip) + if e.Request? && e.ip == ip then 1 else 0
  }

  /** With a rate that is not positive nobody is ever turned away. */
  lemma {:induction false} UnlimitedPasses(c: Config, evict: bool, es: seq<Event>)
    requires c.rate <= 0.0
    ensures forall ok | ok in Run(c, evict, es).answers :: ok
  {
    if es != [] { UnlimitedPasses(c, evict, es[..|es| - 1]); }
  }

  /** Every request is answered at once. */
  lemma OneAnswerEach(c: Config, evict: bool, es: seq<Event>, e: Event)
    ensures var before, after := Run(c, evict, es).answers, Run(c, evict, es + [e]).answers;
            if e.Request? then |after| == |before| + 1 && after[..|before|] == before else after == before
  {
    LastStep(c, evict, es + [e], es, e);
  }

  lemma {:induction false} RunTableOk(c: Config, evict: bool, es: seq<Event>, now: real)
    requires WellFormed(c) && c.rate > 0.0 && Ordered(es) && forall e | e in es :: e.now <= now
    ensures TableOk(c, Run(c, evict, es).table, now)
  {
    if es != [] {
      var init, e := es[..|es| - 1], es[|es| - 1];
      RunTableOk(c, evict, init, e.now);
      if e.Request? { TouchOk(c, Run(c, evict, init).table, e.ip, e.now); }
    }
  }

  /** Since time from, the bucket has lost no more than was granted. */
  ghost predicate Holds(c: Config, b: Bucket, granted: nat, from: real) {
    from <= b.last && b.tokens >= c.burst as real + Earns(c, b.last - from) - granted as real
  }

  lemma SpendHolds(c: Config, b: Bucket, now: real, granted: nat, from: real)
    requires Holds(c, b, granted, from) && b.last <= now && Refilled(c, b, now) < c.burst as real
    ensures Holds(c, Spend(c, b, now), granted + if Granted(c, b, now) then 1 else 0, from)
  {
    EarnsAdd(c, b.last - from, now - b.last, now - from);
  }

  /** A full bucket that spends a token has lost that one since now. */
  lemma CappedHolds(c: Config, b: Bucket, now: real, granted: nat)
    requires WellFormed(c) && Refilled(c, b, now) >= c.burst as real
    ensures Granted(c, b, now) && Holds(c, Spend(c, b, now), granted + 1, now)
  {
    assert Earns(c, now - now) == 0.0;
  }

  lemma FreshHolds(c: Config, now: real, granted: nat)
    ensures Holds(c, Fresh(c, now), granted + 1, now)
  {
    assert Earns(c, now - now) == 0.0;
  }

  /** Since the bucket was last full, it has lost one token for each request granted and no other. */
  lemma {:induction false} Level(c: Config, evict: bool, es: seq<Event>, ip: Ip, until: real) returns (from: real)
    requires WellFormed(c) && c.rate > 0.0 && Ordered(es) && forall e | e in es :: e.now <= until
    requires ip in Run(c, evict, es).table
    ensures from <= until && Holds(c, Run(c, evict, es).table[ip], GrantedIn(c, evict, es, ip, from, until), from)
  {
    var init, e := es[..|es| - 1], es[|es| - 1];
    var t := Run(c, evict, init).table;
    if !(e.Request? && e.ip == ip) {
      from := Level(c, evict, init, ip, until);
    } else if ip in t && Refilled(c, t[ip], e.now) < c.burst as real {
      RunTableOk(c, evict, init, e.now);
      from := Level(c, evict, init, ip, until);
      SpendHolds(c, t[ip], e.now, GrantedIn(c, evict, init, ip, from, until), from);
    } else {
      from := e.now;
      var before := GrantedIn(c, evict, init, ip, from, until);
      if ip in t { CappedHolds(c, t[ip], e.now, before); } else { FreshHolds(c, e.now, before); }
    }
  }

  /** Granting one more request at time now would keep the window that opened at from within its bound. */
  ghost predicate Fits(c: Config, evict: bool, es: seq<Event>, ip: Ip, from: real, now: real) {
    GrantedIn(c, evict, es, ip, from, now) as real + 1.0 <= c.burst as real + (now - from) * c.rate
  }

  lemma FitsIs(c: Config, evict: bool, es: seq<Event>, ip: Ip, from: real, now: real)
    ensures Fits(c, evict, es, ip, from, now)
            <==> GrantedIn(c, evict, es, ip, from, now) as real + 1.0 <= c.burst as real + Earns(c, now - from)
  {
  }

  /** An empty bucket shows a window without room. */
  lemma EmptyIsFull(c: Config, b: Bucket, now: real, granted: nat, from: real)
    requires WellFormed(c) && Holds(c, b, granted, from) && !Granted(c, b, now)
    ensures granted as real + 1.0 > c.burst as real + Earns(c, now - from)
  {
    EarnsAdd(c, b.last - from, now - b.last, now - from);
  }

  lemma OrderedFirst(es: seq<Event>, e: Event)
    requires Ordered(es + [e])
    ensures Ordered(es) && forall d | d in es :: d.now <= e.now
  {
    forall i, j | 0 <= i < j < |es| ensures es[i].now <= es[j].now {
      assert (es + [e])[i] == es[i] && (es + [e])[j] == es[j];
    }
    forall d | d in es ensures d.now <= e.now {
      var i :| 0 <= i < |es| && es[i] == d;
      assert (es + [e])[i] == d && (es + [e])[|es|] == e;
    }
  }

  /** A request is turned away only if some window has no room for it, with eviction or without. */
  lemma GrantedIfFits(c: Config, evict: bool, es: seq<Event>, ip: Ip, now: real)
    requires WellFormed(c) && c.rate > 0.0 && Ordered(es + [Request(ip, now)])
    requires forall from: real | from <= now :: Fits(c, evict, es, ip, from, now)
    ensures var after := Run(c, evict, es + [Request(ip, now)]).answers; after != [] && after[|after| - 1]
  {
    OrderedFirst(es, Request(ip, now));
    LastStep(c, evict, es + [Request(ip, now)], es, Request(ip, now));
    var t := Run(c, evict, es).table;
    if ip in t && !Granted(c, t[ip], now) {
      var from := Level(c, evict, es, ip, now);
      EmptyIsFull(c, t[ip], now, GrantedIn(c, evict, es, ip, from, now), from);
      FitsIs(c, evict, es, ip, from, now);
    }
  }

  /** The limiter is the greedy one: it grants exactly the requests that leave every window within a burst plus what
      the window earns; with eviction too, once eviction is invisible. */
  lemma GrantedIff(c: Config, evict: bool, es: seq<Event>, ip: Ip, now: real)
    requires WellFormed(c) && c.rate > 0.0 && Ordered(es + [Request(ip, now)])
    requires evict ==> c.ttl * c.rate >= c.burst as real
    ensures var after := Run(c, evict, es + [Request(ip, now)]).answers;
            && after != []
            && (after[|after| - 1] <==> forall from: real | from <= now :: Fits(c, evict, es, ip, from, now))
  {
    var all := es + [Request(ip, now)];
    var after := Run(c, evict, all).answers;
    LastStep(c, evict, all, es, Request(ip, now));
    if after[|after| - 1] {
      forall from: real | from <= now ensures Fits(c, evict, es, ip, from, now) {
        WindowBound(c, evict, all, ip, from, now);
        assert all[..|all| - 1] == es;
      }
    } else if forall from: real | from <= now :: Fits(c, evict, es, ip, from, now) {
      GrantedIfFits(c, evict, es, ip, now);
    }
  }

  lemma {:induction false} GrantedAtMost(c: Config, evict: bool, es: seq<Event>, ip: Ip, from: real, to: real)
    ensures GrantedIn(c, evict, es, ip, from, to) <= Requests(es, ip)
  {
    if es != [] { GrantedAtMost(c, evict, es[..|es| - 1], ip, from, to); }
  }

  /** The first requests of an IP, as many as the burst, all pass. */
  lemma FirstBurstPasses(c: Config, evict: bool, es: seq<Event>, ip: Ip, now: real)
    requires WellFormed(c) && c.rate > 0.0 && Ordered(es + [Request(ip, now)])
    requires Requests(es, ip) < c.burst
    ensures var after := Run(c, evict, es + [Request(ip, now)]).answers; after != [] && after[|after| - 1]
  {
    forall from: real | from <= now ensures Fits(c, evict, es, ip, from, now) {
      GrantedAtMost(c, evict, es, ip, from, now);
      assert GrantedIn(c, evict, es, ip, from, now) + 1 <= c.burst;
      EarnsNonNegative(c, now - from);
      FitsIs(c, evict, es, ip, from, now);
    }
    GrantedIfFits(c, evict, es, ip, now);
  }

  /** An entry was last touched by a request of its IP. */
  lemma {:induction false} LastIsARequest(c: Config, evict: bool, es: seq<Event>, ip: Ip)
    requires c.rate > 0.0 && ip in Run(c, evict, es).table
    ensures Request(ip, Run(c, evict, es).table[ip].last) in es
  {
    var init, e := es[..|es| - 1], es[|es| - 1];
    assert es == init + [e];
    if !(e.Request? && e.ip == ip) { LastIsARequest(c, evict, init, ip); }
  }

  /** The time since then earns a token. */
  ghost predicate Rested(c: Config, since: real, now: real) {
    (now - since) * c.rate >= 1.0
  }

  lemma RestedHasToken(c: Config, b: Bucket, now: real)
    requires WellFormed(c) && b.tokens >= 0.0 && Rested(c, b.last, now)
    ensures Granted(c, b, now)
  {
    EarnsIs(c, now - b.last);
    assert c.burst as real >= 1.0;
  }

  /** A request passes that comes when all earlier ones of its IP are at least 1/rate ago. */
  lemma RestedPasses(c: Config, evict: bool, es: seq<Event>, ip: Ip, now: real)
    requires WellFormed(c) && c.rate > 0.0 && Ordered(es + [Request(ip, now)])
    requires forall e | e in es && e.Request? && e.ip == ip :: Rested(c, e.now, now)
    ensures var after := Run(c, evict, es + [Request(ip, now)]).answers; after != [] && after[|after| - 1]
  {
    OrderedFirst(es, Request(ip, now));
    LastStep(c, evict, es + [Request(ip, now)], es, Request(ip, now));
    var t := Run(c, evict, es).table;
    if ip in t {
      RunTableOk(c, evict, es, now);
      LastIsARequest(c, evict, es, ip);
      RestedHasToken(c, t[ip], now);
    }
  }
}
