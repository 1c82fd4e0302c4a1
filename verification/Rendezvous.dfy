// Meeting of an external connection and the client's data connection: registration, fulfilment,
// cancellation and waiting, with the gap between leaving the lock and closing the ready channel.

module Rendezvous {
  import opened Basics

  type ConnId = string
  type Conn = nat
  type Token = string

  /** One registration, by identity: the index of a pendingConn.  taker is the call that removed it from the
      map, closes how often its ready channel was closed. */
  datatype Pending = Pending(id: ConnId, token: Token, data: Option<Conn>, once: bool, closes: nat, taker: Option<nat>)

  datatype Kind = Fulfil(conn: Conn, token: Token) | Cancel

  /** A FulfillPending or CancelPending call that removed registration p and has left the lock. */
  datatype Stage = Unlocked | Assigned | Returned

  datatype Call = Call(p: nat, kind: Kind, stage: Stage)

  /** entries is the pending map; pending and calls are all registrations and calls so far; refused counts failed
      fulfilments; waits are the finished WaitReady calls. */
  datatype State = State(
    entries: map<ConnId, nat>,
    pending: seq<Pending>,
    calls: seq<Call>,
    refused: nat,
    waits: seq<(nat, Option<Conn>)>)

  datatype Action =
    | Register(id: ConnId, token: Token)                 // token "" when the random source failed
    | FulfilLocked(id: ConnId, conn: Conn, token: Token)
    | CancelLocked(id: ConnId)
    | Assign(call: nat)                                  // p.dataConn = dataConn
    | Close(call: nat)                                   // closeOnce.Do(close(ready))
    | Wait(p: nat)                                       // <-p.ready, then read p.dataConn

  const START := State(map[], [], [], 0, [])

  /** Leaving the locked section with registration p in hand. */
  function Take(s: State, id: ConnId, kind: Kind): State
    requires id in s.entries && s.entries[id] < |s.pending|
  {
    var p := s.entries[id];
    s.(entries := s.entries - {id},
       pending := s.pending[p := s.pending[p].(taker := Some(|s.calls|))],
       calls := s.calls + [Call(p, kind, Unlocked)])
  }

  predicate Known(s: State, id: ConnId) {
    id in s.entries && s.entries[id] < |s.pending|
  }

  /** FulfillPending's two checks under the lock. */
  predicate Admits(s: State, id: ConnId, token: Token) {
    Known(s, id) && var p := s.pending[s.entries[id]]; p.token != "" && p.token == token
  }

  predicate Live(s: State, c: nat) {
    c < |s.calls| && s.calls[c].p < |s.pending|
  }

  predicate CanClose(s: State, c: nat) {
    && Live(s, c)
    && match s.calls[c].kind
       case Fulfil(_, _) => s.calls[c].stage == Assigned
       case Cancel => s.calls[c].stage == Unlocked
  }

  function Closed(p: Pending): Pending {
    if p.once then p else p.(once := true, closes := p.closes + 1)
  }

  function Next(s: State, a: Action): State {
    match a
    case Register(id, token) =>
      s.(entries := s.entries[id := |s.pending|], pending := s.pending + [Pending(id, token, None, false, 0, None)])
    case FulfilLocked(id, conn, token) =>
      if Admits(s, id, token) then Take(s, id, Fulfil(conn, token)) else s.(refused := s.refused + 1)
    case CancelLocked(id) =>
      if Known(s, id) then Take(s, id, Cancel) else s
    case Assign(c) =>
      if Live(s, c) && s.calls[c].kind.Fulfil? && s.calls[c].stage == Unlocked then
        var call := s.calls[c];
        s.(pending := s.pending[call.p := s.pending[call.p].(data := Some(call.kind.conn))],
           calls := s.calls[c := call.(stage := Assigned)])
      else s
    case Close(c) =>
      if CanClose(s, c) then
        var call := s.calls[c];
        s.(pending := s.pending[call.p := Closed(s.pending[call.p])],
           calls := s.calls[c := call.(stage := Returned)])
      else s
    case Wait(p) =>
      if p < |s.pending| && s.pending[p].closes > 0 then s.(waits := s.waits + [(p, s.pending[p].data)]) else s
  }

  function Run(actions: seq<Action>): State {
    if actions == [] then START else Next(Run(actions[..|actions| - 1]), actions[|actions| - 1])
  }

  // ----- The invariant -----

  /** What a registration looks like at each stage of the one call that took it. */
  ghost predicate Progress(p: Pending, call: Call) {
    && (p.data == match call.kind
                  case Fulfil(conn, _) => if call.stage == Unlocked then None else Some(conn)
                  case Cancel => None)
    && p.once == (call.stage == Returned) && p.closes == (if p.once then 1 else 0)
    && (call.kind.Fulfil? ==> p.token != "" && p.token == call.kind.token)
    && (call.kind.Cancel? ==> call.stage != Assigned)
  }

  ghost predicate PendingOk(s: State, p: nat)
    requires p < |s.pending|
  {
    match s.pending[p].taker
    case None => s.pending[p].data == None && !s.pending[p].once && s.pending[p].closes == 0
    case Some(c) => c < |s.calls| && s.calls[c].p == p && Progress(s.pending[p], s.calls[c])
  }

  ghost predicate CallOk(s: State, c: nat)
    requires c < |s.calls|
  {
    s.calls[c].p < |s.pending| && s.pending[s.calls[c].p].taker == Some(c)
  }

  ghost predicate EntryOk(s: State, id: ConnId)
    requires id in s.entries
  {
    s.entries[id] < |s.pending| && s.pending[s.entries[id]].id == id && s.pending[s.entries[id]].taker == None
  }

  ghost predicate WaitOk(s: State, k: nat)
    requires k < |s.waits|
  {
    var (p, r) := s.waits[k];
    p < |s.pending| && s.pending[p].closes == 1 && r == s.pending[p].data
  }

  ghost predicate Inv(s: State) {
    && (forall p: nat | p < |s.pending| :: PendingOk(s, p))
    && (forall c: nat | c < |s.calls| :: CallOk(s, c))
    && (forall id | id in s.entries :: EntryOk(s, id))
    && forall k: nat | k < |s.waits| :: WaitOk(s, k)
  }

  lemma RegisterKeeps(s: State, id: ConnId, token: Token)
    requires Inv(s)
    ensures Inv(Next(s, Register(id, token)))
  {
    var s' := Next(s, Register(id, token));
    forall p: nat | p < |s'.pending| ensures PendingOk(s', p) {
      if p < |s.pending| { assert PendingOk(s, p); }
    }
    forall c: nat | c < |s'.calls| ensures CallOk(s', c) { assert CallOk(s, c); }
    forall d | d in s'.entries ensures EntryOk(s', d) {
      if d != id { assert EntryOk(s, d); }
    }
    forall k: nat | k < |s'.waits| ensures WaitOk(s', k) { assert WaitOk(s, k); }
  }

  lemma TakeKeeps(s: State, id: ConnId, kind: Kind)
    requires Inv(s) && Known(s, id)
    requires kind.Fulfil? ==> Admits(s, id, kind.token)
    ensures Inv(Take(s, id, kind))
  {
    var s' := Take(s, id, kind);
    assert EntryOk(s, id);
    forall p: nat | p < |s'.pending| ensures PendingOk(s', p) { assert PendingOk(s, p); }
    forall c: nat | c < |s'.calls| ensures CallOk(s', c) {
      if c < |s.calls| { assert CallOk(s, c); }
    }
    forall d | d in s'.entries ensures EntryOk(s', d) {
      assert EntryOk(s, d);
    }
    forall k: nat | k < |s'.waits| ensures WaitOk(s', k) {
      assert WaitOk(s, k) && PendingOk(s, s.waits[k].0);
    }
  }

  /** A step of call c that changes only its own stage and its registration's data and channel. */
  lemma StepKeeps(s: State, s': State, c: nat)
    requires Inv(s) && Live(s, c) && s.calls[c].stage != Returned
    requires |s'.calls| == |s.calls| && |s'.pending| == |s.pending| && s'.entries == s.entries && s'.waits == s.waits
    requires forall d: nat | d < |s.calls| && d != c :: s'.calls[d] == s.calls[d]
    requires forall p: nat | p < |s.pending| && p != s.calls[c].p :: s'.pending[p] == s.pending[p]
    requires s'.calls[c].p == s.calls[c].p
    requires var p := s.calls[c].p;
             s'.pending[p].id == s.pending[p].id && s'.pending[p].taker == s.pending[p].taker
             && Progress(s'.pending[p], s'.calls[c])
    ensures Inv(s')
  {
    assert CallOk(s, c) && PendingOk(s, s.calls[c].p);
    forall p: nat | p < |s'.pending| ensures PendingOk(s', p) { assert PendingOk(s, p); }
    forall d: nat | d < |s'.calls| ensures CallOk(s', d) { assert CallOk(s, d); }
    forall d | d in s'.entries ensures EntryOk(s', d) {
      assert EntryOk(s, d);
    }
    forall k: nat | k < |s'.waits| ensures WaitOk(s', k) {
      assert WaitOk(s, k) && PendingOk(s, s.waits[k].0);
    }
  }

  lemma NextKeeps(s: State, a: Action)
    requires Inv(s)
    ensures Inv(Next(s, a))
  {
    match a
    case Register(id, token) => RegisterKeeps(s, id, token);
    case FulfilLocked(id, conn, token) =>
      if Admits(s, id, token) { TakeKeeps(s, id, Fulfil(conn, token)); } else { SameKeeps(s, Next(s, a)); }
    case CancelLocked(id) =>
      if Known(s, id) { TakeKeeps(s, id, Cancel); }
    case Assign(c) =>
      if Next(s, a) != s {
        assert CallOk(s, c) && PendingOk(s, s.calls[c].p);
        StepKeeps(s, Next(s, a), c);
      }
    case Close(c) =>
      if CanClose(s, c) {
        assert CallOk(s, c) && PendingOk(s, s.calls[c].p);
        StepKeeps(s, Next(s, a), c);
      }
    case Wait(p) =>
      if Next(s, a) != s { assert PendingOk(s, p); }
      SameKeeps(s, Next(s, a));
  }

  lemma SameKeeps(s: State, s': State)
    requires Inv(s) && s' == s.(refused := s'.refused, waits := s'.waits)
    requires forall k: nat | k < |s'.waits| :: (k < |s.waits| && s'.waits[k] == s.waits[k]) || WaitOk(s', k)
    ensures Inv(s')
  {
    forall p: nat | p < |s'.pending| ensures PendingOk(s', p) { assert PendingOk(s, p); }
    forall c: nat | c < |s'.calls| ensures CallOk(s', c) { assert CallOk(s, c); }
    forall d | d in s'.entries ensures EntryOk(s', d) { assert EntryOk(s, d); }
    forall k: nat | k < |s'.waits| ensures WaitOk(s', k) {
      if k < |s.waits| && s'.waits[k] == s.waits[k] { assert WaitOk(s, k); }
    }
  }

  lemma {:induction false} RunKeeps(actions: seq<Action>)
    ensures Inv(Run(actions))
  {
    if actions != [] {
      RunKeeps(actions[..|actions| - 1]);
      NextKeeps(Run(actions[..|actions| - 1]), actions[|actions| - 1]);
    }
  }

  // ----- Results, for every interleaving -----

  /** At most one fulfilment or cancellation ever gets hold of a registration, and it is done with the
      registration's ready channel at most once. */
  lemma OneTaker(actions: seq<Action>, c: nat, d: nat, p: nat)
    ensures var s := Run(actions);
            && (c < |s.calls| && d < |s.calls| && s.calls[c].p == s.calls[d].p ==> c == d)
            && (p < |s.pending| ==> s.pending[p].closes <= 1)
  {
    RunKeeps(actions);
    var s := Run(actions);
    if c < |s.calls| && d < |s.calls| { assert CallOk(s, c) && CallOk(s, d); }
    if p < |s.pending| { assert PendingOk(s, p); }
  }

  /** A waiter gets the connection of the one fulfilment that won, whose token was the registration's own and
      not empty, or nothing exactly when a cancellation won; every waiter on a registration gets the same. */
  lemma WaiterGetsWinner(actions: seq<Action>, k: nat)
    requires k < |Run(actions).waits|
    ensures var s := Run(actions); var (p, r) := s.waits[k];
            && p < |s.pending| && s.pending[p].taker.Some? && s.pending[p].taker.value < |s.calls|
            && var call := s.calls[s.pending[p].taker.value];
            && call.p == p && call.stage == Returned
            && (r == None <==> call.kind.Cancel?)
            && (r.Some? ==> call.kind == Fulfil(r.value, s.pending[p].token) && s.pending[p].token != "")
  {
    RunKeeps(actions);
    var s := Run(actions);
    assert WaitOk(s, k) && PendingOk(s, s.waits[k].0);
  }

  /** A registration's waiters are released if and only if the call that took it has run to its end; in
      particular a fulfilment that has returned is never lost. */
  lemma ReleasedIffReturned(actions: seq<Action>, p: nat)
    requires p < |Run(actions).pending|
    ensures var s := Run(actions);
            s.pending[p].closes > 0 <==>
            exists c: nat :: c < |s.calls| && s.calls[c].p == p && s.calls[c].stage == Returned
  {
    RunKeeps(actions);
    var s := Run(actions);
    assert PendingOk(s, p);
    if c: nat :| c < |s.calls| && s.calls[c].p == p && s.calls[c].stage == Returned {
      assert CallOk(s, c);
    }
  }

  // ----- Connection ids that are registered again -----

  /** Neither in the map nor taken: no call can reach the registration any more. */
  predicate Stranded(s: State, p: nat) {
    p < |s.pending| && s.pending[p].taker == None && (s.pending[p].id in s.entries ==> s.entries[s.pending[p].id] != p)
  }

  lemma StrandedStep(s: State, a: Action, p: nat)
    requires Inv(s) && Stranded(s, p)
    ensures Stranded(Next(s, a), p)
  {
    match a
    case FulfilLocked(id, _, _) =>
      if Known(s, id) { assert EntryOk(s, id); }
    case CancelLocked(id) =>
      if Known(s, id) { assert EntryOk(s, id); }
    case _ =>
  }

  /** Once stranded, a registration's waiters are never released. */
  lemma {:induction false} StrandedForever(actions: seq<Action>, more: seq<Action>, p: nat)
    requires Stranded(Run(actions), p)
    ensures var s := Run(actions + more); Stranded(s, p) && s.pending[p].closes == 0
  {
    var all := actions + more;
    RunKeeps(all);
    if more == [] {
      assert all == actions;
    } else {
      var init := more[..|more| - 1];
      assert all[..|all| - 1] == actions + init;
      StrandedForever(actions, init, p);
      RunKeeps(actions + init);
      StrandedStep(Run(actions + init), more[|more| - 1], p);
    }
    assert PendingOk(Run(all), p);
  }

  /** A step strands a registration if and only if it registers an id that is still in the map. */
  lemma StrandsIff(actions: seq<Action>, a: Action)
    ensures var s := Run(actions);
            (exists p :: Stranded(Next(s, a), p) && !Stranded(s, p)) <==> a.Register? && a.id in s.entries
  {
    RunKeeps(actions);
    var s := Run(actions);
    var s' := Next(s, a);
    if a.Register? && a.id in s.entries {
      assert EntryOk(s, a.id);
      assert Stranded(s', s.entries[a.id]) && !Stranded(s, s.entries[a.id]);
    } else {
      forall p | Stranded(s', p) ensures Stranded(s, p) {
        match a
        case FulfilLocked(id, _, _) => if Known(s, id) { assert EntryOk(s, id); }
        case CancelLocked(id) => if Known(s, id) { assert EntryOk(s, id); }
        case _ =>
      }
    }
  }

  // ----- Every call does its work, after any run -----

  lemma RunSnoc(actions: seq<Action>, a: Action)
    ensures Run(actions + [a]) == Next(Run(actions), a)
  {
    assert (actions + [a])[..|actions|] == actions;
  }

  /** A fulfilment takes the registration of its id if its token is the registration's and not empty, and is refused
      otherwise, without touching anything. */
  lemma FulfilTakesIff(actions: seq<Action>, id: ConnId, conn: Conn, token: Token)
    ensures var s, s' := Run(actions), Run(actions + [FulfilLocked(id, conn, token)]);
            if id in s.entries && s.entries[id] < |s.pending| && token != "" && s.pending[s.entries[id]].token == token
            then s'.entries == s.entries - {id} && s'.refused == s.refused
                 && s'.calls == s.calls + [Call(s.entries[id], Fulfil(conn, token), Unlocked)]
            else s' == s.(refused := s.refused + 1)
    ensures id in Run(actions).entries ==> Run(actions).entries[id] < |Run(actions).pending|
  {
    RunKeeps(actions);
    RunSnoc(actions, FulfilLocked(id, conn, token));
    if id in Run(actions).entries { assert EntryOk(Run(actions), id); }
  }

  /** A cancellation takes the registration of its id, if there is one. */
  lemma CancelTakesIff(actions: seq<Action>, id: ConnId)
    ensures var s, s' := Run(actions), Run(actions + [CancelLocked(id)]);
            if id in s.entries
            then s'.entries == s.entries - {id} && s'.calls == s.calls + [Call(s.entries[id], Cancel, Unlocked)]
            else s' == s
  {
    RunKeeps(actions);
    RunSnoc(actions, CancelLocked(id));
    if id in Run(actions).entries { assert EntryOk(Run(actions), id); }
  }

  /** The connection that a call hands over. */
  function Handed(kind: Kind): Option<Conn> {
    match kind
    case Fulfil(conn, _) => Some(conn)
    case Cancel => None
  }

  lemma CallSteps(s: State, c: nat)
    requires Inv(s) && c < |s.calls| && s.calls[c].stage == Unlocked
    ensures var s', p := Next(Next(s, Assign(c)), Close(c)), s.calls[c].p;
            && p < |s'.pending| && |s'.pending| == |s.pending| && s'.waits == s.waits
            && s'.pending[p].data == Handed(s.calls[c].kind) && s'.pending[p].closes == 1
  {
    assert CallOk(s, c) && PendingOk(s, s.calls[c].p);
  }

  /** Whatever happened before: a call that has taken a registration can run to its end, and a waiter is then given
      the connection of the fulfilment, or nothing after a cancellation. */
  lemma WaiterIsServed(actions: seq<Action>, c: nat)
    requires c < |Run(actions).calls| && Run(actions).calls[c].stage == Unlocked
    ensures var s := Run(actions); var p := s.calls[c].p;
            Run(actions + [Assign(c)] + [Close(c)] + [Wait(p)]).waits == s.waits + [(p, Handed(s.calls[c].kind))]
  {
    var p := Run(actions).calls[c].p;
    RunKeeps(actions);
    CallSteps(Run(actions), c);
    RunSnoc(actions, Assign(c));
    RunSnoc(actions + [Assign(c)], Close(c));
    RunSnoc(actions + [Assign(c)] + [Close(c)], Wait(p));
  }

  /** So an external connection that is registered under a token meets the data connection that brings this token. */
  lemma TokensMeet(actions: seq<Action>, id: ConnId, token: Token, conn: Conn)
    requires token != ""
    ensures var s := Run(actions); var p, c := |s.pending|, |s.calls|;
            var taken := actions + [Register(id, token)] + [FulfilLocked(id, conn, token)];
            Run(taken + [Assign(c)] + [Close(c)] + [Wait(p)]).waits == s.waits + [(p, Some(conn))]
  {
    var s := Run(actions);
    var taken := actions + [Register(id, token)] + [FulfilLocked(id, conn, token)];
    RunSnoc(actions, Register(id, token));
    FulfilTakesIff(actions + [Register(id, token)], id, conn, token);
    TakenWaits(actions + [Register(id, token)], id, conn, token);
    WaiterIsServed(taken, |s.calls|);
  }

  lemma TakenWaits(actions: seq<Action>, id: ConnId, conn: Conn, token: Token)
    ensures Run(actions + [FulfilLocked(id, conn, token)]).waits == Run(actions).waits
  {
    RunSnoc(actions, FulfilLocked(id, conn, token));
  }
}
