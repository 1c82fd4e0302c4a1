// Operator approval of unknown clients: Submit waits for a decision, Decide looks a request up and then,
// without the lock, sends to its one-place channel.

module Approval {
  import opened Basics

  type Name = string
  type Fingerprint = string

  /** One Submit call.  chan is its one-place decision channel, result what its select returned, cleaned that
      its deferred cleanup ran (so that Submit has returned); superseded that a later Submit replaced it;
      approvedBy is the Decide call whose approval went into the channel. */
  datatype Request = Request(
    name: Name, fp: Fingerprint, chan: Option<bool>, result: Option<bool>,
    cleaned: bool, superseded: bool, approvedBy: Option<nat>)

  /** A Decide call that found request req; sent is what it returns. */
  datatype Call = Call(req: nat, approve: bool, sent: Option<bool>)

  datatype State = State(pending: map<Name, nat>, requests: seq<Request>, calls: seq<Call>)

  datatype Action =
    | Submit(name: Name, fp: Fingerprint)       // the locked section
    | Lookup(name: Name, approve: bool)         // Decide up to the end of its locked section
    | Send(call: nat)                           // the rest of Decide
    | Receive(req: nat)                         // Submit's select takes a decision,
    | Expire(req: nat)                          // or its context is done, decision or not
    | Cleanup(req: nat)                         // Submit's deferred function

  const START := State(map[], [], [])

  function Put(r: Request, d: bool): Request {
    if r.chan.None? then r.(chan := Some(d)) else r
  }

  function Replace(s: State, name: Name): seq<Request> {
    if name in s.pending && s.pending[name] < |s.requests| then
      var prev := s.pending[name];
      s.requests[prev := Put(s.requests[prev], false).(superseded := true)]
    else s.requests
  }

  predicate Waiting(s: State, r: nat) {
    r < |s.requests| && s.requests[r].result.None?
  }

  predicate InFlight(s: State, c: nat) {
    c < |s.calls| && s.calls[c].sent.None? && s.calls[c].req < |s.requests|
  }

  function SendTo(s: State, c: nat): State
    requires InFlight(s, c)
  {
    var call := s.calls[c];
    var r := s.requests[call.req];
    if r.chan.Some? then s.(calls := s.calls[c := call.(sent := Some(false))])
    else
      var r' := r.(chan := Some(call.approve), approvedBy := if call.approve then Some(c) else r.approvedBy);
      s.(requests := s.requests[call.req := r'], calls := s.calls[c := call.(sent := Some(true))])
  }

  /** Request r is the one that the operator sees under its name. */
  predicate Registered(s: State, r: nat) {
    r < |s.requests| && s.requests[r].name in s.pending && s.pending[s.requests[r].name] == r
  }

  function Next(s: State, a: Action): State {
    match a
    case Submit(name, fp) =>
      State(s.pending[name := |s.requests|],
            Replace(s, name) + [Request(name, fp, None, None, false, false, None)],
            s.calls)
    case Lookup(name, approve) =>
      if name in s.pending then s.(calls := s.calls + [Call(s.pending[name], approve, None)]) else s
    case Send(c) => if InFlight(s, c) then SendTo(s, c) else s
    case Receive(r) =>
      if Waiting(s, r) && s.requests[r].chan.Some?
      then s.(requests := s.requests[r := s.requests[r].(result := s.requests[r].chan, chan := None)])
      else s
    case Expire(r) =>
      if Waiting(s, r) then s.(requests := s.requests[r := s.requests[r].(result := Some(false))]) else s
    case Cleanup(r) =>
      if r < |s.requests| && s.requests[r].result.Some? && !s.requests[r].cleaned
      then s.(requests := s.requests[r := s.requests[r].(cleaned := true)],
              pending := if Registered(s, r) then s.pending - {s.requests[r].name} else s.pending)
      else s
  }

  function RunFrom(s: State, actions: seq<Action>): State {
    if actions == [] then s else Next(RunFrom(s, actions[..|actions| - 1]), actions[|actions| - 1])
  }

  // ----- The invariant -----

  /** An operator's approve reached request r: a Decide call with it has put it into r's channel. */
  predicate ApproveReached(s: State, r: nat, c: nat) {
    c < |s.calls| && s.calls[c] == Call(r, true, Some(true))
  }

  ghost predicate RequestOk(s: State, r: nat)
    requires r < |s.requests|
  {
    var q := s.requests[r];
    && (q.chan == Some(true) || q.result == Some(true) ==> q.approvedBy.Some?)
    && (q.approvedBy.Some? ==> ApproveReached(s, r, q.approvedBy.value))
    && (q.superseded ==> q.chan.Some? || q.result.Some?)
    && (q.cleaned ==> q.result.Some?)
    && (Registered(s, r) <==> !q.superseded && !q.cleaned)
  }

  ghost predicate EntryOk(s: State, name: Name)
    requires name in s.pending
  {
    s.pending[name] < |s.requests| && s.requests[s.pending[name]].name == name
  }

  ghost predicate CallOk(s: State, c: nat)
    requires c < |s.calls|
  {
    s.calls[c].req < |s.requests|
  }

  ghost predicate Inv(s: State) {
    && (forall r: nat | r < |s.requests| :: RequestOk(s, r))
    && (forall name | name in s.pending :: EntryOk(s, name))
    && forall c: nat | c < |s.calls| :: CallOk(s, c)
  }

  lemma SubmitKeeps(s: State, name: Name, fp: Fingerprint)
    requires Inv(s)
    ensures Inv(Next(s, Submit(name, fp)))
  {
    var s' := Next(s, Submit(name, fp));
    if name in s.pending { assert EntryOk(s, name) && RequestOk(s, s.pending[name]); }
    forall r: nat | r < |s'.requests| ensures RequestOk(s', r) {
      if r < |s.requests| { assert RequestOk(s, r); }
    }
    forall n | n in s'.pending ensures EntryOk(s', n) {
      if n != name { assert EntryOk(s, n); }
    }
    forall c: nat | c < |s'.calls| ensures CallOk(s', c) { assert CallOk(s, c); }
  }

  lemma LookupKeeps(s: State, name: Name, approve: bool)
    requires Inv(s)
    ensures Inv(Next(s, Lookup(name, approve)))
  {
    var s' := Next(s, Lookup(name, approve));
    if name in s.pending { assert EntryOk(s, name); }
    forall r: nat | r < |s'.requests| ensures RequestOk(s', r) { assert RequestOk(s, r); }
    forall n | n in s'.pending ensures EntryOk(s', n) { assert EntryOk(s, n); }
    forall c: nat | c < |s'.calls| ensures CallOk(s', c) {
      if c < |s.calls| { assert CallOk(s, c); }
    }
  }

  lemma SendKeeps(s: State, c: nat)
    requires Inv(s) && InFlight(s, c)
    ensures Inv(SendTo(s, c))
  {
    var s' := SendTo(s, c);
    forall r: nat | r < |s'.requests| ensures RequestOk(s', r) { assert RequestOk(s, r); }
    forall n | n in s'.pending ensures EntryOk(s', n) { assert EntryOk(s, n); }
    forall d: nat | d < |s'.calls| ensures CallOk(s', d) { assert CallOk(s, d); }
  }

  /** A step of request r's own Submit call. */
  lemma OwnStepKeeps(s: State, a: Action)
    requires Inv(s) && (a.Receive? || a.Expire? || a.Cleanup?)
    ensures Inv(Next(s, a))
  {
    var s' := Next(s, a);
    forall r: nat | r < |s'.requests| ensures RequestOk(s', r) { assert RequestOk(s, r); }
    forall n | n in s'.pending ensures EntryOk(s', n) { assert EntryOk(s, n); }
    forall c: nat | c < |s'.calls| ensures CallOk(s', c) { assert CallOk(s, c); }
  }

  lemma NextKeeps(s: State, a: Action)
    requires Inv(s)
    ensures Inv(Next(s, a))
  {
    match a
    case Submit(name, fp) => SubmitKeeps(s, name, fp);
    case Lookup(name, approve) => LookupKeeps(s, name, approve);
    case Send(c) => if InFlight(s, c) { SendKeeps(s, c); }
    case _ => OwnStepKeeps(s, a);
  }

  lemma {:induction false} RunKeeps(actions: seq<Action>)
    ensures Inv(RunFrom(START, actions))
  {
    if actions != [] {
      RunKeeps(actions[..|actions| - 1]);
      NextKeeps(RunFrom(START, actions[..|actions| - 1]), actions[|actions| - 1]);
    }
  }

  // ----- Results, for every interleaving -----

  /** Submit returns approved only for a request that an operator's approve reached. */
  lemma ApprovedByOperator(actions: seq<Action>, r: nat)
    requires var s := RunFrom(START, actions); r < |s.requests| && s.requests[r].result == Some(true)
    ensures exists c: nat :: ApproveReached(RunFrom(START, actions), r, c)
  {
    RunKeeps(actions);
    var s := RunFrom(START, actions);
    assert RequestOk(s, r);
    assert ApproveReached(s, r, s.requests[r].approvedBy.value);
  }

  /** A superseded waiter has returned, or its next step can take a decision that is in its channel. */
  lemma SupersededIsReleased(actions: seq<Action>, r: nat)
    requires var s := RunFrom(START, actions); r < |s.requests| && s.requests[r].superseded
    ensures var s := RunFrom(START, actions);
            s.requests[r].result.Some? || Next(s, Receive(r)).requests[r].result == s.requests[r].chan
    ensures var s := RunFrom(START, actions); s.requests[r].result.None? ==> s.requests[r].chan.Some?
  {
    RunKeeps(actions);
    assert RequestOk(RunFrom(START, actions), r);
  }

  /** The operator sees exactly the requests that were neither replaced nor cleaned up, and a cleanup
      takes away nobody else's registration, in particular not its successor's. */
  lemma CleanupSparesOthers(actions: seq<Action>, r: nat, q: nat)
    requires q < |RunFrom(START, actions).requests|
    ensures var s := RunFrom(START, actions);
            && (Registered(s, q) <==> !s.requests[q].superseded && !s.requests[q].cleaned)
            && (q != r ==> (Registered(Next(s, Cleanup(r)), q) <==> Registered(s, q)))
  {
    RunKeeps(actions);
    var s := RunFrom(START, actions);
    NextKeeps(s, Cleanup(r));
    assert RequestOk(s, q) && RequestOk(Next(s, Cleanup(r)), q);
  }

  /** Request r has decision d in its channel, or has returned it. */
  predicate Decided(s: State, r: nat, d: bool) {
    && r < |s.requests|
    && (s.requests[r].result == Some(d) || (s.requests[r].result.None? && s.requests[r].chan == Some(d)))
  }

  lemma {:induction false} DecisionStands(s: State, more: seq<Action>, r: nat, d: bool)
    requires Decided(s, r, d)
    requires Expire(r) !in more
    ensures Decided(RunFrom(s, more), r, d)
  {
    if more != [] {
      var init, a := more[..|more| - 1], more[|more| - 1];
      DecisionStands(s, init, r, d);
      assert a in more;
    }
  }

  /** A decision that Decide reports as made for a request still waiting is final: no later decision, superseding
      request or cleanup changes it, and only the end of the waiter's context can pre-empt it. */
  lemma SentDecisionIsFinal(s: State, c: nat, more: seq<Action>)
    requires InFlight(s, c) && Waiting(s, s.calls[c].req)
    requires Expire(s.calls[c].req) !in more
    ensures var s', r := Next(s, Send(c)), s.calls[c].req;
            s'.calls[c].sent == Some(true) ==> Decided(RunFrom(s', more), r, s.calls[c].approve)
  {
    var s' := Next(s, Send(c));
    if s'.calls[c].sent == Some(true) { DecisionStands(s', more, s.calls[c].req, s.calls[c].approve); }
  }

  // ----- Which decision a waiter gets -----

  /** Submit puts a new request in front of the operator, without a decision; a waiter it replaces is rejected, unless
      that has a decision already; nobody else's request is touched. */
  lemma SubmitRegisters(actions: seq<Action>, name: Name, fp: Fingerprint)
    ensures var s, n := RunFrom(START, actions), |RunFrom(START, actions).requests|;
            var s' := RunFrom(START, actions + [Submit(name, fp)]);
            && |s'.requests| == n + 1 && s'.requests[n] == Request(name, fp, None, None, false, false, None)
            && Registered(s', n)
            && forall r: nat | r < n :: OthersMove(s, s', r, name)
  {
    RunKeeps(actions);
    RunAppend(START, actions, [Submit(name, fp)]);
    RunOf1(RunFrom(START, actions), Submit(name, fp));
    var s := RunFrom(START, actions);
    if name in s.pending { assert EntryOk(s, name); }
    forall r: nat | r < |s.requests| ensures OthersMove(s, Next(s, Submit(name, fp)), r, name) {
      assert RequestOk(s, r);
    }
  }

  /** What a new request of that name means for an old request r. */
  predicate OthersMove(s: State, s': State, r: nat, name: Name) {
    && r < |s.requests| && r < |s'.requests|
    && var q, q' := s.requests[r], s'.requests[r];
    if Registered(s, r) && q.name == name
    then q' == q.(chan := if q.chan.Some? then q.chan else Some(false), superseded := true) && !Registered(s', r)
    else q' == q && (Registered(s', r) <==> Registered(s, r))
  }

  /** Decide finds exactly the registered request of that name, and reports and stores its decision if and only if
      the request has none in its channel yet. */
  lemma DecideReaches(actions: seq<Action>, r: nat, d: bool)
    requires Registered(RunFrom(START, actions), r)
    ensures var s := RunFrom(START, actions); var q, c := s.requests[r], |s.calls|;
            var s' := RunFrom(START, actions + [Lookup(q.name, d), Send(c)]);
            && |s'.calls| == c + 1 && s'.calls[c] == Call(r, d, Some(q.chan.None?))
            && |s'.requests| == |s.requests|
            && s'.requests[r].chan == (if q.chan.None? then Some(d) else q.chan)
            && s'.requests[r].result == q.result
            && forall i | 0 <= i < |s.requests| && i != r :: s'.requests[i] == s.requests[i]
  {
    var s := RunFrom(START, actions);
    var name, c := s.requests[r].name, |s.calls|;
    RunAppend(START, actions, [Lookup(name, d), Send(c)]);
    RunOf2(s, Lookup(name, d), Send(c));
    assert Next(s, Lookup(name, d)).calls == s.calls + [Call(r, d, None)];
  }

  /** Without a registered request of that name, Decide changes nothing. */
  lemma DecideMisses(actions: seq<Action>, name: Name, d: bool)
    requires forall r: nat | Registered(RunFrom(START, actions), r) :: RunFrom(START, actions).requests[r].name != name
    ensures RunFrom(START, actions + [Lookup(name, d)]) == RunFrom(START, actions)
  {
    RunKeeps(actions);
    var s := RunFrom(START, actions);
    RunAppend(START, actions, [Lookup(name, d)]);
    RunOf1(s, Lookup(name, d));
    if name in s.pending {
      assert EntryOk(s, name);
      assert Registered(s, s.pending[name]);
    }
  }

  /** The way of a decision: Decide looks request r up and, as call c, sends; the waiter takes it and cleans up. */
  function Verdict(name: Name, d: bool, c: nat, r: nat): seq<Action> {
    [Lookup(name, d)] + [Send(c)] + [Receive(r)] + [Cleanup(r)]
  }

  /** From any state, a new request that is decided returns that decision, and the operator sees it no longer. */
  lemma DecisionArrives(s: State, name: Name, fp: Fingerprint, d: bool)
    ensures var n, c := |s.requests|, |s.calls|;
            var s' := RunFrom(Next(s, Submit(name, fp)), Verdict(name, d, c, n));
            && n < |s'.requests| && s'.requests[n].result == Some(d) && s'.requests[n].cleaned
            && c < |s'.calls| && s'.calls[c] == Call(n, d, Some(true))
            && name !in s'.pending
  {
    var n, c, s0 := |s.requests|, |s.calls|, Next(s, Submit(name, fp));
    var s1 := Next(s0, Lookup(name, d));
    assert s1.calls == s0.calls + [Call(n, d, None)];
    var s2 := Next(s1, Send(c));
    assert s2.requests[n] == Request(name, fp, Some(d), None, false, false, if d then Some(c) else None);
    var s3 := Next(s2, Receive(n));
    assert s3.requests[n].result == Some(d) && s3.pending == s0.pending;
    RunOf4(s0, Lookup(name, d), Send(c), Receive(n), Cleanup(n));
  }

  lemma RunOf1(s: State, a: Action)
    ensures RunFrom(s, [a]) == Next(s, a)
  {
    assert [a][..0] == [];
  }

  lemma RunOf4(s: State, a: Action, b: Action, c: Action, d: Action)
    ensures RunFrom(s, [a] + [b] + [c] + [d]) == Next(Next(Next(Next(s, a), b), c), d)
  {
    RunOf1(s, a);
    RunAppend(s, [a], [b]);
    RunOf1(Next(s, a), b);
    RunAppend(s, [a] + [b], [c]);
    RunOf1(Next(Next(s, a), b), c);
    RunAppend(s, [a] + [b] + [c], [d]);
    RunOf1(Next(Next(Next(s, a), b), c), d);
  }

  /** Which of the two ways out of its select request r's waiter takes first: a decision, or the end of its context. */
  datatype Way = Neither | Decision | Context

  function FirstWay(more: seq<Action>, r: nat): Way {
    if more == [] then Neither
    else
      var before, a := FirstWay(more[..|more| - 1], r), more[|more| - 1];
      if before != Neither then before
      else if a == Receive(r) then Decision
      else if a == Expire(r) then Context
      else Neither
  }

  lemma ReturnedStep(s: State, a: Action, r: nat)
    requires r < |s.requests| && s.requests[r].result.Some?
    ensures r < |Next(s, a).requests| && Next(s, a).requests[r].result == s.requests[r].result
  {
  }

  lemma WaitingStep(s: State, a: Action, r: nat, d: bool)
    requires Waiting(s, r) && s.requests[r].chan == Some(d)
    ensures r < |Next(s, a).requests|
    ensures var q := Next(s, a).requests[r];
            if a == Receive(r) then q.result == Some(d)
            else if a == Expire(r) then q.result == Some(false)
            else q.result == None && q.chan == Some(d)
  {
  }

  /** A waiter that has returned keeps its result. */
  lemma {:induction false} ResultStands(s: State, more: seq<Action>, r: nat)
    requires r < |s.requests| && s.requests[r].result.Some?
    ensures var s' := RunFrom(s, more); r < |s'.requests| && s'.requests[r].result == s.requests[r].result
  {
    if more != [] {
      var init, a := more[..|more| - 1], more[|more| - 1];
      ResultStands(s, init, r);
      ReturnedStep(RunFrom(s, init), a, r);
    }
  }

  /** What becomes of a waiter with a decision in its channel. */
  lemma {:induction false} WayDecides(s: State, more: seq<Action>, r: nat, d: bool)
    requires Waiting(s, r) && s.requests[r].chan == Some(d)
    ensures var s' := RunFrom(s, more);
            && r < |s'.requests|
            && match FirstWay(more, r)
               case Neither => s'.requests[r].result == None && s'.requests[r].chan == Some(d)
               case Decision => s'.requests[r].result == Some(d)
               case Context => s'.requests[r].result == Some(false)
  {
    if more != [] {
      var init, a := more[..|more| - 1], more[|more| - 1];
      WayDecides(s, init, r, d);
      if FirstWay(init, r) == Neither {
        WaitingStep(RunFrom(s, init), a, r, d);
      } else {
        ReturnedStep(RunFrom(s, init), a, r);
      }
    }
  }

  /** When Decide reports a decision as made and the waiter eventually returns, it returns just that decision if
      and only if it was still waiting and either the decision is a rejection or its select takes the decision
      before its context ends; or it had already returned the same. */
  lemma ReportIsTrueIff(s: State, c: nat, more: seq<Action>)
    requires InFlight(s, c) && Next(s, Send(c)).calls[c].sent == Some(true)
    requires !Waiting(RunFrom(Next(s, Send(c)), more), s.calls[c].req)
    ensures var r, d := s.calls[c].req, s.calls[c].approve;
            var end := RunFrom(Next(s, Send(c)), more);
            && r < |end.requests|
            && (end.requests[r].result == Some(d) <==>
                  if Waiting(s, r) then !d || FirstWay(more, r) == Decision else s.requests[r].result == Some(d))
  {
    var s', r := Next(s, Send(c)), s.calls[c].req;
    if Waiting(s, r) {
      WayDecides(s', more, r, s.calls[c].approve);
    } else {
      ResultStands(s', more, r);
    }
  }

  /** Decide can report an approval as made although the request was rejected: its waiter was superseded
      between the lookup and the send ... */
  lemma ReportedApprovalMayBeLost(name: Name, fp: Fingerprint)
    ensures var s := RunFrom(START, [Submit(name, fp), Lookup(name, true), Submit(name, fp), Receive(0), Send(0)]);
            && |s.calls| == 1 && |s.requests| == 2
            && s.calls[0].sent == Some(true) && s.requests[0].result == Some(false)
  {
    var s3 := RunFrom(START, [Submit(name, fp), Lookup(name, true), Submit(name, fp)]);
    RunOf3(START, Submit(name, fp), Lookup(name, true), Submit(name, fp));
    assert s3.requests[0].chan == Some(false) && s3.calls == [Call(0, true, None)];
    RunOf2(s3, Receive(0), Send(0));
    RunAppend(START, [Submit(name, fp), Lookup(name, true), Submit(name, fp)], [Receive(0), Send(0)]);
    assert [Submit(name, fp), Lookup(name, true), Submit(name, fp)] + [Receive(0), Send(0)]
        == [Submit(name, fp), Lookup(name, true), Submit(name, fp), Receive(0), Send(0)];
  }

  /** ... or its context ended although the approval was already in its channel. */
  lemma ReportedApprovalMayExpire(name: Name, fp: Fingerprint)
    ensures var s := RunFrom(START, [Submit(name, fp), Lookup(name, true), Send(0), Expire(0)]);
            && |s.calls| == 1 && |s.requests| == 1
            && s.calls[0].sent == Some(true) && s.requests[0].result == Some(false)
  {
    var s2 := RunFrom(START, [Submit(name, fp), Lookup(name, true)]);
    RunOf2(START, Submit(name, fp), Lookup(name, true));
    assert s2.requests[0].chan == None && s2.calls == [Call(0, true, None)];
    RunOf2(s2, Send(0), Expire(0));
    RunAppend(START, [Submit(name, fp), Lookup(name, true)], [Send(0), Expire(0)]);
    assert [Submit(name, fp), Lookup(name, true)] + [Send(0), Expire(0)]
        == [Submit(name, fp), Lookup(name, true), Send(0), Expire(0)];
  }

  lemma {:induction false} RunAppend(s: State, actions: seq<Action>, more: seq<Action>)
    ensures RunFrom(s, actions + more) == RunFrom(RunFrom(s, actions), more)
  {
    if more == [] {
      assert actions + more == actions;
    } else {
      var init := more[..|more| - 1];
      assert (actions + more)[..|actions + more| - 1] == actions + init;
      RunAppend(s, actions, init);
    }
  }

  lemma RunOf2(s: State, a: Action, b: Action)
    ensures RunFrom(s, [a, b]) == Next(Next(s, a), b)
  {
    assert [a, b][..1] == [a] && [a][..0] == [];
    assert RunFrom(s, [a]) == Next(s, a);
  }

  lemma RunOf3(s: State, a: Action, b: Action, c: Action)
    ensures RunFrom(s, [a, b, c]) == Next(Next(Next(s, a), b), c)
  {
    assert [a, b, c][..2] == [a, b];
    RunOf2(s, a, b);
  }
}
