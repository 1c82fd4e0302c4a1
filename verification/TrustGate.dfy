// The trust-on-first-use gate for clients, over the store of known fingerprints and the approver.

module TrustGate {
  import opened Basics
  import A = Approval
  import K = KnownHosts

  type Name = string
  type Fingerprint = string

  datatype Verdict = Accept | Reject | Fail

  datatype Stage = Arrived | Unknown | Asking(request: nat) | Done(verdict: Verdict)

  /** One tofuCheck call; seen is what its lookup found. */
  datatype Gate = Gate(
    name: Name, tls: bool, cert: Option<Fingerprint>, auto: bool, seen: Option<Fingerprint>, stage: Stage)

  /** origin is the file that was loaded at the start, file the one that is there now, if a path is configured. */
  datatype State = State(
    origin: seq<K.Host>, backed: bool, hosts: map<Name, Fingerprint>, file: seq<K.Host>,
    approver: A.State, gates: seq<Gate>)

  /** How a rewrite of the file ends: the entries in some order, or an error. */
  type Disk = Option<seq<K.Host>>

  datatype Action =
    | Arrive(name: Name, tls: bool, cert: Option<Fingerprint>, auto: bool)
    | Look(gate: nat)
    | AutoAdd(gate: nat, disk: Disk)
    | Ask(gate: nat)
    | Settle(gate: nat, disk: Disk)         // after Submit has returned
    | Operate(act: A.Action)                // operators deciding, and Submit calls going on
    | Forget(name: Name, disk: Disk)        // an operator removes a known host

  function Start(origin: seq<K.Host>, backed: bool): State {
    State(origin, backed, K.Load(origin), origin, A.START, [])
  }

  ghost predicate CanWrite(s: State, hosts: map<Name, Fingerprint>, disk: Disk) {
    s.backed && disk.Some? ==> K.IsListing(disk.value, hosts)
  }

  predicate Saved(s: State, disk: Disk) {
    !s.backed || disk.Some?
  }

  /** The store after a change: the in-memory map always, the file if it could be rewritten. */
  function Stored(s: State, hosts: map<Name, Fingerprint>, disk: Disk): State {
    s.(hosts := hosts, file := if s.backed && disk.Some? then disk.value else s.file)
  }

  predicate At(s: State, g: nat, stage: Stage) {
    g < |s.gates| && s.gates[g].stage == stage && s.gates[g].cert.Some?
  }

  function Move(s: State, g: nat, stage: Stage): State
    requires g < |s.gates|
  {
    s.(gates := s.gates[g := s.gates[g].(stage := stage)])
  }

  /** known.Add and what tofuCheck returns after it. */
  function Trust(s: State, g: nat, disk: Disk): State
    requires g < |s.gates| && s.gates[g].cert.Some?
  {
    var q := s.gates[g];
    Move(Stored(s, s.hosts[q.name := q.cert.value], disk), g, Done(if Saved(s, disk) then Accept else Fail))
  }

  ghost predicate CanTrust(s: State, g: nat, disk: Disk) {
    g < |s.gates| && s.gates[g].cert.Some? && CanWrite(s, s.hosts[s.gates[g].name := s.gates[g].cert.value], disk)
  }

  function Opened(a: Action): Gate
    requires a.Arrive?
  {
    Gate(a.name, a.tls, a.cert, a.auto, None,
         if !a.tls then Done(Accept) else if a.cert.None? then Done(Fail) else Arrived)
  }

  function LookedUp(s: State, q: Gate): Gate {
    if q.name in s.hosts
    then q.(seen := Some(s.hosts[q.name]), stage := Done(if q.cert == Some(s.hosts[q.name]) then Accept else Reject))
    else q.(stage := Unknown)
  }

  /** The Submit call of an asking gate has returned, with this decision. */
  predicate Returned(s: State, g: nat, d: bool) {
    && g < |s.gates| && s.gates[g].stage.Asking? && s.gates[g].stage.request < |s.approver.requests|
    && var r := s.approver.requests[s.gates[g].stage.request];
    r.cleaned && r.result == Some(d)
  }

  ghost function Next(s: State, a: Action): State {
    match a
    case Arrive(_, _, _, _) => s.(gates := s.gates + [Opened(a)])
    case Look(g) => if At(s, g, Arrived) then s.(gates := s.gates[g := LookedUp(s, s.gates[g])]) else s
    case AutoAdd(g, disk) =>
      if At(s, g, Unknown) && s.gates[g].auto && CanTrust(s, g, disk) then Trust(s, g, disk) else s
    case Ask(g) =>
      if At(s, g, Unknown) && !s.gates[g].auto then
        Move(s.(approver := A.Next(s.approver, A.Submit(s.gates[g].name, s.gates[g].cert.value))),
             g, Asking(|s.approver.requests|))
      else s
    case Settle(g, disk) =>
      if Returned(s, g, true) && CanTrust(s, g, disk) then Trust(s, g, disk)
      else if Returned(s, g, false) then Move(s, g, Done(Reject))
      else s
    case Operate(act) => if act.Submit? then s else s.(approver := A.Next(s.approver, act))
    case Forget(name, disk) =>
      if CanWrite(s, s.hosts - {name}, disk) then Stored(s, s.hosts - {name}, disk) else s
  }

  ghost function Run(origin: seq<K.Host>, backed: bool, actions: seq<Action>): State {
    if actions == [] then Start(origin, backed)
    else Next(Run(origin, backed, actions[..|actions| - 1]), actions[|actions| - 1])
  }

  // ----- Where trust comes from -----

  /** Gate g found no entry for name, and its server approves unknown clients automatically. */
  predicate AutoApproved(s: State, g: nat, name: Name, fp: Fingerprint) {
    && g < |s.gates| && s.gates[g].name == name && s.gates[g].cert == Some(fp)
    && s.gates[g].tls && s.gates[g].auto && s.gates[g].seen.None? && !s.gates[g].stage.Arrived?
  }

  /** Request r carried the fingerprint under this name, and an operator's approve (Decide call c) reached it. */
  predicate OperatorApproved(a: A.State, r: nat, c: nat, name: Name, fp: Fingerprint) {
    r < |a.requests| && a.requests[r].name == name && a.requests[r].fp == fp && A.ApproveReached(a, r, c)
  }

  ghost predicate Approved(a: A.State, name: Name, fp: Fingerprint) {
    exists r: nat, c: nat :: OperatorApproved(a, r, c, name, fp)
  }

  /** The fingerprint was loaded, auto-approved, or carried by an approved request. */
  ghost predicate Vouched(s: State, name: Name, fp: Fingerprint) {
    || K.Host(name, fp) in s.origin
    || (exists g: nat :: AutoApproved(s, g, name, fp))
    || Approved(s.approver, name, fp)
  }

  // ----- Vouching is for good -----

  ghost predicate ApproverGrows(a: A.State, a': A.State) {
    && |a.requests| <= |a'.requests| && |a.calls| <= |a'.calls|
    && (forall r: nat | r < |a.requests| ::
          a'.requests[r].name == a.requests[r].name && a'.requests[r].fp == a.requests[r].fp)
    && forall c: nat | c < |a.calls| && a.calls[c].sent.Some? :: a'.calls[c] == a.calls[c]
  }

  lemma ApproverNextGrows(a: A.State, act: A.Action)
    ensures ApproverGrows(a, A.Next(a, act))
  {
  }

  ghost predicate SameGate(q: Gate, q': Gate) {
    && q'.name == q.name && q'.tls == q.tls && q'.cert == q.cert && q'.auto == q.auto
    && (!q.stage.Arrived? ==> q'.seen == q.seen && !q'.stage.Arrived?)
  }

  ghost predicate Grows(s: State, s': State) {
    && s'.origin == s.origin && |s.gates| <= |s'.gates|
    && ApproverGrows(s.approver, s'.approver)
    && forall g: nat | g < |s.gates| :: SameGate(s.gates[g], s'.gates[g])
  }

  /** A step of gate g alone. */
  lemma GateStepGrows(s: State, s': State, g: nat)
    requires s'.origin == s.origin && s'.approver == s.approver && |s'.gates| == |s.gates|
    requires forall h: nat | h < |s.gates| && h != g :: s'.gates[h] == s.gates[h]
    requires g < |s.gates| ==> SameGate(s.gates[g], s'.gates[g])
    ensures Grows(s, s')
  {
  }

  lemma ApproverStepGrows(s: State, a': A.State)
    requires ApproverGrows(s.approver, a')
    ensures Grows(s, s.(approver := a'))
  {
  }

  lemma AskGrows(s: State, g: nat)
    ensures Grows(s, Next(s, Ask(g)))
  {
    if At(s, g, Unknown) && !s.gates[g].auto {
      ApproverNextGrows(s.approver, A.Submit(s.gates[g].name, s.gates[g].cert.value));
    }
  }

  lemma NextGrows(s: State, a: Action)
    ensures Grows(s, Next(s, a))
  {
    match a
    case Ask(g) => AskGrows(s, g);
    case Operate(act) =>
      ApproverNextGrows(s.approver, act);
      ApproverStepGrows(s, A.Next(s.approver, act));
    case Arrive(_, _, _, _) =>
    case Forget(_, _) => GateStepGrows(s, Next(s, a), |s.gates|);
    case Look(g) => GateStepGrows(s, Next(s, a), g);
    case AutoAdd(g, disk) => GateStepGrows(s, Next(s, a), g);
    case Settle(g, disk) => GateStepGrows(s, Next(s, a), g);
  }

  lemma ApprovedStays(a: A.State, a': A.State, name: Name, fp: Fingerprint)
    requires ApproverGrows(a, a') && Approved(a, name, fp)
    ensures Approved(a', name, fp)
  {
    var r: nat, c: nat :| OperatorApproved(a, r, c, name, fp);
    assert OperatorApproved(a', r, c, name, fp);
  }

  lemma VouchedStays(s: State, s': State, name: Name, fp: Fingerprint)
    requires Grows(s, s') && Vouched(s, name, fp)
    ensures Vouched(s', name, fp)
  {
    if g: nat :| AutoApproved(s, g, name, fp) {
      assert SameGate(s.gates[g], s'.gates[g]) && AutoApproved(s', g, name, fp);
    } else if Approved(s.approver, name, fp) {
      ApprovedStays(s.approver, s'.approver, name, fp);
    }
  }

  // ----- The invariant -----

  ghost predicate GateOk(s: State, g: nat)
    requires g < |s.gates|
  {
    var q := s.gates[g];
    match q.stage
    case Arrived => q.tls && q.cert.Some? && q.seen.None?
    case Unknown => q.tls && q.cert.Some? && q.seen.None?
    case Asking(r) =>
      && q.tls && q.cert.Some? && q.seen.None? && !q.auto
      && r < |s.approver.requests| && s.approver.requests[r].name == q.name && s.approver.requests[r].fp == q.cert.value
    case Done(v) =>
      v.Accept? && q.tls ==>
        && q.cert.Some? && Vouched(s, q.name, q.cert.value)
        && match q.seen
           case Some(fp) => q.cert.value == fp
           case None => q.auto || Approved(s.approver, q.name, q.cert.value)
  }

  ghost predicate HostOk(s: State, name: Name)
    requires name in s.hosts
  {
    Vouched(s, name, s.hosts[name])
  }

  ghost predicate EntryOk(s: State, i: nat)
    requires i < |s.file|
  {
    Vouched(s, s.file[i].name, s.file[i].fingerprint)
  }

  ghost predicate GatesOk(s: State) {
    forall g: nat | g < |s.gates| :: GateOk(s, g)
  }

  ghost predicate StoreOk(s: State) {
    && (forall name | name in s.hosts :: HostOk(s, name))
    && forall i: nat | i < |s.file| :: EntryOk(s, i)
  }

  ghost predicate Inv(s: State) {
    A.Inv(s.approver) && GatesOk(s) && StoreOk(s)
  }

  lemma GateStays(s: State, s': State, g: nat)
    requires Grows(s, s') && g < |s.gates| && GateOk(s, g) && s'.gates[g] == s.gates[g]
    ensures GateOk(s', g)
  {
    var q := s.gates[g];
    if q.stage == Done(Accept) && q.tls {
      VouchedStays(s, s', q.name, q.cert.value);
      if q.seen.None? && !q.auto { ApprovedStays(s.approver, s'.approver, q.name, q.cert.value); }
    }
  }

  /** All gates but g are untouched. */
  lemma GatesStay(s: State, s': State, g: nat)
    requires Grows(s, s') && GatesOk(s)
    requires |s'.gates| == |s.gates| && forall h: nat | h < |s.gates| && h != g :: s'.gates[h] == s.gates[h]
    requires g < |s.gates| ==> GateOk(s', g)
    ensures GatesOk(s')
  {
    forall h: nat | h < |s'.gates| ensures GateOk(s', h) {
      assert GateOk(s, h);
      if h != g { GateStays(s, s', h); }
    }
  }

  lemma StoreStays(s: State, s': State)
    requires Grows(s, s') && StoreOk(s) && s'.hosts == s.hosts && s'.file == s.file
    ensures StoreOk(s')
  {
    forall name | name in s'.hosts ensures HostOk(s', name) {
      assert HostOk(s, name);
      VouchedStays(s, s', name, s.hosts[name]);
    }
    forall i: nat | i < |s'.file| ensures EntryOk(s', i) {
      assert EntryOk(s, i);
      VouchedStays(s, s', s.file[i].name, s.file[i].fingerprint);
    }
  }

  /** A change to the store, each of whose new entries is an old one or vouched for. */
  lemma StoreChanges(s: State, s': State, hosts: map<Name, Fingerprint>, disk: Disk)
    requires Grows(s, s') && StoreOk(s) && s'.hosts == hosts && CanWrite(s, hosts, disk)
    requires s'.file == Stored(s, hosts, disk).file
    requires forall name | name in hosts ::
               (name in s.hosts && hosts[name] == s.hosts[name]) || Vouched(s', name, hosts[name])
    ensures StoreOk(s')
  {
    forall name | name in hosts ensures HostOk(s', name) {
      if name in s.hosts && hosts[name] == s.hosts[name] {
        assert HostOk(s, name);
        VouchedStays(s, s', name, hosts[name]);
      }
    }
    forall i: nat | i < |s'.file| ensures EntryOk(s', i) {
      if s.backed && disk.Some? {
        assert HostOk(s', s'.file[i].name);
      } else {
        assert EntryOk(s, i);
        VouchedStays(s, s', s.file[i].name, s.file[i].fingerprint);
      }
    }
  }

  /** Trusting gate g's client, once that is vouched for. */
  lemma TrustKeeps(s: State, g: nat, disk: Disk)
    requires Inv(s) && CanTrust(s, g, disk)
    requires var q := s.gates[g];
             && !q.stage.Arrived? && q.tls && q.seen.None?
             && (q.auto || Approved(s.approver, q.name, q.cert.value))
    ensures Inv(Trust(s, g, disk))
  {
    var s', q := Trust(s, g, disk), s.gates[g];
    assert Grows(s, s');
    if q.auto { assert AutoApproved(s', g, q.name, q.cert.value); }
    assert Vouched(s', q.name, q.cert.value);
    GatesStay(s, s', g);
    StoreChanges(s, s', s.hosts[q.name := q.cert.value], disk);
  }

  lemma LookKeeps(s: State, g: nat)
    requires Inv(s)
    ensures Inv(Next(s, Look(g)))
  {
    var s' := Next(s, Look(g));
    NextGrows(s, Look(g));
    if At(s, g, Arrived) {
      assert GateOk(s, g);
      var q := s.gates[g];
      if q.name in s.hosts {
        assert HostOk(s, q.name);
        VouchedStays(s, s', q.name, s.hosts[q.name]);
      }
      GatesStay(s, s', g);
      StoreStays(s, s');
    }
  }

  lemma AskKeeps(s: State, g: nat)
    requires Inv(s)
    ensures Inv(Next(s, Ask(g)))
  {
    var s' := Next(s, Ask(g));
    NextGrows(s, Ask(g));
    if At(s, g, Unknown) && !s.gates[g].auto {
      assert GateOk(s, g);
      A.NextKeeps(s.approver, A.Submit(s.gates[g].name, s.gates[g].cert.value));
      GatesStay(s, s', g);
      StoreStays(s, s');
    }
  }

  lemma SettleKeeps(s: State, g: nat, disk: Disk)
    requires Inv(s)
    ensures Inv(Next(s, Settle(g, disk)))
  {
    var s' := Next(s, Settle(g, disk));
    NextGrows(s, Settle(g, disk));
    if g < |s.gates| { assert GateOk(s, g); }
    if Returned(s, g, true) && CanTrust(s, g, disk) {
      var q := s.gates[g];
      var r := q.stage.request;
      assert A.RequestOk(s.approver, r);
      assert OperatorApproved(s.approver, r, s.approver.requests[r].approvedBy.value, q.name, q.cert.value);
      TrustKeeps(s, g, disk);
    } else if Returned(s, g, false) {
      GatesStay(s, s', g);
      StoreStays(s, s');
    }
  }

  lemma NextKeeps(s: State, a: Action)
    requires Inv(s)
    ensures Inv(Next(s, a))
  {
    var s' := Next(s, a);
    NextGrows(s, a);
    match a
    case Arrive(_, _, _, _) =>
      forall g: nat | g < |s'.gates| ensures GateOk(s', g) {
        if g < |s.gates| {
          assert GateOk(s, g);
          GateStays(s, s', g);
        }
      }
      StoreStays(s, s');
    case Look(g) => LookKeeps(s, g);
    case AutoAdd(g, disk) =>
      if At(s, g, Unknown) && s.gates[g].auto && CanTrust(s, g, disk) {
        assert GateOk(s, g);
        TrustKeeps(s, g, disk);
      }
    case Ask(g) => AskKeeps(s, g);
    case Settle(g, disk) => SettleKeeps(s, g, disk);
    case Operate(act) =>
      A.NextKeeps(s.approver, act);
      GatesStay(s, s', |s.gates|);
      StoreStays(s, s');
    case Forget(name, disk) =>
      GatesStay(s, s', |s.gates|);
      if CanWrite(s, s.hosts - {name}, disk) { StoreChanges(s, s', s.hosts - {name}, disk); }
  }

  lemma {:induction false} LoadFrom(list: seq<K.Host>, name: Name)
    requires name in K.Load(list)
    ensures K.Host(name, K.Load(list)[name]) in list
  {
    var init, h := list[..|list| - 1], list[|list| - 1];
    if name in K.Load(init) { LoadFrom(init, name); }
    assert list == init + [h];
  }

  lemma {:induction false} RunKeeps(origin: seq<K.Host>, backed: bool, actions: seq<Action>)
    ensures Inv(Run(origin, backed, actions))
    ensures Run(origin, backed, actions).origin == origin
  {
    if actions == [] {
      var s := Start(origin, backed);
      forall name | name in s.hosts ensures HostOk(s, name) { LoadFrom(origin, name); }
      A.RunKeeps([]);
    } else {
      RunKeeps(origin, backed, actions[..|actions| - 1]);
      NextKeeps(Run(origin, backed, actions[..|actions| - 1]), actions[|actions| - 1]);
      NextGrows(Run(origin, backed, actions[..|actions| - 1]), actions[|actions| - 1]);
    }
  }

  // ----- Results, for every interleaving -----

  /** Every stored fingerprint, in memory and on file, was loaded, auto-approved, or carried by a request that an
      operator approved. */
  lemma StoredIsVouched(origin: seq<K.Host>, backed: bool, actions: seq<Action>, name: Name, i: nat)
    ensures var s := Run(origin, backed, actions);
            && (name in s.hosts ==> Vouched(s, name, s.hosts[name]))
            && (i < |s.file| ==> Vouched(s, s.file[i].name, s.file[i].fingerprint))
  {
    RunKeeps(origin, backed, actions);
    var s := Run(origin, backed, actions);
    if name in s.hosts { assert HostOk(s, name); }
    if i < |s.file| { assert EntryOk(s, i); }
  }

  /** A TLS client that is let in has shown a fingerprint that is vouched for under its name: the stored one if
      there was one, and otherwise, unless the server approves automatically, one that an operator approved. */
  lemma AcceptedIsVouched(origin: seq<K.Host>, backed: bool, actions: seq<Action>, g: nat)
    requires var s := Run(origin, backed, actions);
             g < |s.gates| && s.gates[g].tls && s.gates[g].stage == Done(Accept)
    ensures var s := Run(origin, backed, actions); var q := s.gates[g];
            && q.cert.Some? && Vouched(s, q.name, q.cert.value)
            && (q.seen.Some? ==> q.seen == q.cert)
            && (q.seen.None? && !q.auto ==> Approved(s.approver, q.name, q.cert.value))
  {
    RunKeeps(origin, backed, actions);
    assert GateOk(Run(origin, backed, actions), g);
  }

  lemma RunAppend(origin: seq<K.Host>, backed: bool, actions: seq<Action>, a: Action)
    ensures Run(origin, backed, actions + [a]) == Next(Run(origin, backed, actions), a)
  {
    assert (actions + [a])[..|actions|] == actions;
  }

  lemma DoneStays(s: State, a: Action, g: nat)
    requires g < |s.gates| && s.gates[g].stage.Done?
    ensures g < |Next(s, a).gates| && Next(s, a).gates[g] == s.gates[g]
  {
  }

  /** A tofuCheck that has returned keeps its verdict. */
  lemma {:induction false} VerdictStands(
    origin: seq<K.Host>, backed: bool, actions: seq<Action>, more: seq<Action>, g: nat)
    requires var s := Run(origin, backed, actions); g < |s.gates| && s.gates[g].stage.Done?
    ensures var s, s' := Run(origin, backed, actions), Run(origin, backed, actions + more);
            g < |s'.gates| && s'.gates[g] == s.gates[g]
  {
    if more == [] {
      assert actions + more == actions;
    } else {
      var init, a := more[..|more| - 1], more[|more| - 1];
      VerdictStands(origin, backed, actions, init, g);
      assert actions + more == (actions + init) + [a];
      RunAppend(origin, backed, actions + init, a);
      DoneStays(Run(origin, backed, actions + init), a, g);
    }
  }

  /** Once a client is looked up whose name is stored, nothing that happens afterwards, no operator and no other
      check, changes the outcome: it is let in if it showed the stored fingerprint, which is vouched for, and is
      rejected otherwise. */
  lemma KnownAcceptedIff(origin: seq<K.Host>, backed: bool, actions: seq<Action>, g: nat, more: seq<Action>)
    requires var s := Run(origin, backed, actions); At(s, g, Arrived) && s.gates[g].name in s.hosts
    ensures var s, s' := Run(origin, backed, actions), Run(origin, backed, actions + [Look(g)] + more);
            var q := s.gates[g];
            && g < |s'.gates| && s'.gates[g].stage.Done?
            && (s'.gates[g].stage.verdict == Accept <==> q.cert == Some(s.hosts[q.name]))
            && s'.gates[g].stage.verdict != Fail
            && Vouched(s, q.name, s.hosts[q.name])
  {
    RunAppend(origin, backed, actions, Look(g));
    VerdictStands(origin, backed, actions + [Look(g)], more, g);
    StoredIsVouched(origin, backed, actions, Run(origin, backed, actions).gates[g].name, 0);
  }

  // ----- Who is let in -----

  lemma {:induction false} RunBacked(origin: seq<K.Host>, backed: bool, actions: seq<Action>)
    ensures Run(origin, backed, actions).backed == backed
  {
    if actions != [] { RunBacked(origin, backed, actions[..|actions| - 1]); }
  }

  /** A connection without TLS is let in unchecked, one without a certificate fails, and neither is ever asked about. */
  lemma UncheckedArrivals(
    origin: seq<K.Host>, backed: bool, actions: seq<Action>, name: Name, tls: bool, cert: Option<Fingerprint>,
    auto: bool, more: seq<Action>)
    requires !tls || cert.None?
    ensures var g := |Run(origin, backed, actions).gates|;
            var s := Run(origin, backed, actions + [Arrive(name, tls, cert, auto)] + more);
            g < |s.gates| && s.gates[g].stage == Done(if tls then Fail else Accept)
  {
    var a := Arrive(name, tls, cert, auto);
    RunAppend(origin, backed, actions, a);
    VerdictStands(origin, backed, actions + [a], more, |Run(origin, backed, actions).gates|);
  }

  /** A TLS client with a certificate and an unknown name is looked up in vain, and its gate then waits for a decision;
      nothing is stored before that. */
  lemma UnknownWaits(
    origin: seq<K.Host>, backed: bool, actions: seq<Action>, name: Name, fp: Fingerprint, auto: bool)
    requires name !in Run(origin, backed, actions).hosts
    ensures var s := Run(origin, backed, actions);
            Run(origin, backed, actions + [Arrive(name, true, Some(fp), auto)] + [Look(|s.gates|)])
            == s.(gates := s.gates + [Gate(name, true, Some(fp), auto, None, Unknown)])
  {
    var s := Run(origin, backed, actions);
    var a := Arrive(name, true, Some(fp), auto);
    RunAppend(origin, backed, actions, a);
    RunAppend(origin, backed, actions + [a], Look(|s.gates|));
    UnknownSteps(s, name, fp, auto);
  }

  lemma UnknownSteps(s: State, name: Name, fp: Fingerprint, auto: bool)
    requires name !in s.hosts
    ensures Next(Next(s, Arrive(name, true, Some(fp), auto)), Look(|s.gates|))
            == s.(gates := s.gates + [Gate(name, true, Some(fp), auto, None, Unknown)])
  {
    assert Next(s, Arrive(name, true, Some(fp), auto)).gates
        == s.gates + [Gate(name, true, Some(fp), auto, None, Arrived)];
    assert (s.gates + [Gate(name, true, Some(fp), auto, None, Arrived)])
           [|s.gates| := Gate(name, true, Some(fp), auto, None, Unknown)]
        == s.gates + [Gate(name, true, Some(fp), auto, None, Unknown)];
  }

  /** A name that an operator forgets is unknown, at once and even if the file cannot be rewritten; no other entry is
      touched, and no check that has been made or is under way. */
  lemma ForgottenIsUnknown(origin: seq<K.Host>, backed: bool, actions: seq<Action>, name: Name, disk: Disk)
    requires CanWrite(Run(origin, backed, actions), Run(origin, backed, actions).hosts - {name}, disk)
    ensures var s, s' := Run(origin, backed, actions), Run(origin, backed, actions + [Forget(name, disk)]);
            && s'.hosts == s.hosts - {name} && s'.gates == s.gates && s'.approver == s.approver
            && (backed && disk.Some? ==> K.IsListing(s'.file, s.hosts - {name}))
            && (!backed || disk.None? ==> s'.file == s.file)
  {
    RunBacked(origin, backed, actions);
    RunAppend(origin, backed, actions, Forget(name, disk));
  }

  /** The store holds the fingerprint under the name and is otherwise as before, and so does the file if it was
      rewritten; if it could not be, it is as before. */
  ghost predicate Remembers(s: State, s': State, name: Name, fp: Fingerprint, disk: Disk) {
    && s'.hosts == s.hosts[name := fp]
    && (s.backed && disk.Some? ==> K.IsListing(s'.file, s.hosts[name := fp]))
    && (!s.backed || disk.None? ==> s'.file == s.file)
  }

  /** An unknown client whose server approves automatically: once known.Add has returned, the gate lets it in, for
      good, if and only if the store could be saved, and otherwise fails. */
  lemma AutoApprovedIsLetIn(
    origin: seq<K.Host>, backed: bool, actions: seq<Action>, g: nat, disk: Disk, more: seq<Action>)
    requires var s := Run(origin, backed, actions); At(s, g, Unknown) && s.gates[g].auto && CanTrust(s, g, disk)
    ensures var s, s' := Run(origin, backed, actions), Run(origin, backed, actions + [AutoAdd(g, disk)]);
            Remembers(s, s', s.gates[g].name, s.gates[g].cert.value, disk)
    ensures var s' := Run(origin, backed, actions + [AutoAdd(g, disk)] + more);
            g < |s'.gates| && s'.gates[g].stage == Done(if !backed || disk.Some? then Accept else Fail)
  {
    RunBacked(origin, backed, actions);
    RunAppend(origin, backed, actions, AutoAdd(g, disk));
    VerdictStands(origin, backed, actions + [AutoAdd(g, disk)], more, g);
  }

  /** The same for a client whose request came back approved. */
  lemma ApprovedIsLetIn(
    origin: seq<K.Host>, backed: bool, actions: seq<Action>, g: nat, disk: Disk, more: seq<Action>)
    requires var s := Run(origin, backed, actions); Returned(s, g, true) && CanTrust(s, g, disk)
    ensures var s, s' := Run(origin, backed, actions), Run(origin, backed, actions + [Settle(g, disk)]);
            Remembers(s, s', s.gates[g].name, s.gates[g].cert.value, disk)
    ensures var s' := Run(origin, backed, actions + [Settle(g, disk)] + more);
            g < |s'.gates| && s'.gates[g].stage == Done(if !backed || disk.Some? then Accept else Fail)
  {
    RunBacked(origin, backed, actions);
    RunAppend(origin, backed, actions, Settle(g, disk));
    VerdictStands(origin, backed, actions + [Settle(g, disk)], more, g);
  }

  /** A client whose request came back rejected is turned away for good, and nothing is stored. */
  lemma RejectedStoresNothing(
    origin: seq<K.Host>, backed: bool, actions: seq<Action>, g: nat, disk: Disk, more: seq<Action>)
    requires Returned(Run(origin, backed, actions), g, false)
    ensures var s, s' := Run(origin, backed, actions), Run(origin, backed, actions + [Settle(g, disk)]);
            s'.hosts == s.hosts && s'.file == s.file
    ensures var s' := Run(origin, backed, actions + [Settle(g, disk)] + more);
            g < |s'.gates| && s'.gates[g].stage == Done(Reject)
  {
    RunAppend(origin, backed, actions, Settle(g, disk));
    VerdictStands(origin, backed, actions + [Settle(g, disk)], more, g);
  }

  /** The approver's steps, as steps of the server. */
  function Operated(acts: seq<A.Action>): seq<Action> {
    seq(|acts|, i requires 0 <= i < |acts| => Operate(acts[i]))
  }

  lemma OperatedAppend(actions: seq<Action>, acts: seq<A.Action>, a: A.Action)
    ensures actions + Operated(acts + [a]) == (actions + Operated(acts)) + [Operate(a)]
  {
  }

  lemma AskedIs(actions: seq<Action>, s: State, g: nat, d: bool)
    requires g < |s.gates|
    ensures actions + Asked(s, g, d)
            == actions + [Ask(g)] + Operated(A.Verdict(s.gates[g].name, d, |s.approver.calls|, |s.approver.requests|))
  {
  }

  lemma OperatedSnoc(
    origin: seq<K.Host>, backed: bool, actions: seq<Action>, s: State, done: seq<A.Action>, a: A.Action)
    requires Run(origin, backed, actions) == s.(approver := A.RunFrom(s.approver, done)) && !a.Submit?
    ensures Run(origin, backed, actions + [Operate(a)]) == s.(approver := A.RunFrom(s.approver, done + [a]))
  {
    RunAppend(origin, backed, actions, Operate(a));
    A.RunAppend(s.approver, done, [a]);
    A.RunOf1(A.RunFrom(s.approver, done), a);
  }

  lemma {:induction false} RunOperated(origin: seq<K.Host>, backed: bool, actions: seq<Action>, acts: seq<A.Action>)
    requires forall i | 0 <= i < |acts| :: !acts[i].Submit?
    ensures var s := Run(origin, backed, actions);
            Run(origin, backed, actions + Operated(acts)) == s.(approver := A.RunFrom(s.approver, acts))
  {
    if acts == [] {
      assert actions + Operated(acts) == actions;
    } else {
      var init, a := acts[..|acts| - 1], acts[|acts| - 1];
      RunOperated(origin, backed, actions, init);
      OperatedAppend(actions, init, a);
      assert acts == init + [a];
      OperatedSnoc(origin, backed, actions + Operated(init), Run(origin, backed, actions), init, a);
    }
  }

  /** Asking the operator, who decides: Submit, Decide, and Submit returning. */
  ghost function Asked(s: State, g: nat, d: bool): seq<Action>
    requires g < |s.gates|
  {
    [Ask(g)] + Operated(A.Verdict(s.gates[g].name, d, |s.approver.calls|, |s.approver.requests|))
  }

  lemma AskedRun(origin: seq<K.Host>, backed: bool, actions: seq<Action>, g: nat, d: bool)
    requires g < |Run(origin, backed, actions).gates|
    ensures var s := Run(origin, backed, actions);
            Run(origin, backed, actions + Asked(s, g, d)) == AfterAsking(s, g, d)
  {
    var s := Run(origin, backed, actions);
    var verdict := A.Verdict(s.gates[g].name, d, |s.approver.calls|, |s.approver.requests|);
    RunAppend(origin, backed, actions, Ask(g));
    RunOperated(origin, backed, actions + [Ask(g)], verdict);
    AskedIs(actions, s, g, d);
  }

  ghost function AfterAsking(s: State, g: nat, d: bool): State
    requires g < |s.gates|
  {
    var s' := Next(s, Ask(g));
    s'.(approver := A.RunFrom(s'.approver,
                              A.Verdict(s.gates[g].name, d, |s.approver.calls|, |s.approver.requests|)))
  }

  lemma AskedState(s: State, g: nat, d: bool)
    requires At(s, g, Unknown) && !s.gates[g].auto
    ensures var s' := AfterAsking(s, g, d);
            && Returned(s', g, d) && s'.hosts == s.hosts && s'.file == s.file && s'.backed == s.backed
            && s'.gates[g] == s.gates[g].(stage := Asking(|s.approver.requests|))
  {
    A.DecisionArrives(s.approver, s.gates[g].name, s.gates[g].cert.value, d);
  }

  /** In whatever state of the server: when an unknown client is asked about and the operator decides, its request
      comes back with that decision, and the store is as it was. */
  lemma AskedReturns(origin: seq<K.Host>, backed: bool, actions: seq<Action>, g: nat, d: bool)
    requires var s := Run(origin, backed, actions); At(s, g, Unknown) && !s.gates[g].auto
    ensures var s := Run(origin, backed, actions); var s' := Run(origin, backed, actions + Asked(s, g, d));
            && Returned(s', g, d) && s'.hosts == s.hosts && s'.file == s.file && s'.backed == backed
            && s'.gates[g] == s.gates[g].(stage := Asking(|s.approver.requests|))
  {
    var s := Run(origin, backed, actions);
    RunBacked(origin, backed, actions);
    AskedRun(origin, backed, actions, g, d);
    AskedState(s, g, d);
  }

  /** So the operator has the last word on a client that nobody knows: approved, it is let in and stored if the file
      can be rewritten; rejected, it is turned away and not stored. */
  lemma OperatorDecides(
    origin: seq<K.Host>, backed: bool, actions: seq<Action>, g: nat, d: bool, disk: Disk, more: seq<Action>)
    requires var s := Run(origin, backed, actions); At(s, g, Unknown) && !s.gates[g].auto && CanTrust(s, g, disk)
    ensures var s := Run(origin, backed, actions);
            var s' := Run(origin, backed, actions + Asked(s, g, d) + [Settle(g, disk)]);
            if d then Remembers(s, s', s.gates[g].name, s.gates[g].cert.value, disk)
            else s'.hosts == s.hosts && s'.file == s.file
    ensures var s := Run(origin, backed, actions);
            var s' := Run(origin, backed, actions + Asked(s, g, d) + [Settle(g, disk)] + more);
            && g < |s'.gates|
            && s'.gates[g].stage == Done(if !d then Reject else if !backed || disk.Some? then Accept else Fail)
  {
    var s := Run(origin, backed, actions);
    RunBacked(origin, backed, actions);
    AskedReturns(origin, backed, actions, g, d);
    if d {
      ApprovedIsLetIn(origin, backed, actions + Asked(s, g, d), g, disk, more);
    } else {
      RejectedStoresNothing(origin, backed, actions + Asked(s, g, d), g, disk, more);
    }
  }

  /** What becomes of a gate that is let in: its certificate is stored, on file too if there is one. */
  ghost predicate LetIn(s: State, s': State, g: nat) {
    && g < |s.gates| && s.gates[g].cert.Some? && g < |s'.gates|
    && s'.gates[g].stage == Done(Accept) && s'.hosts == s.hosts[s.gates[g].name := s.gates[g].cert.value]
    && (s.backed ==> K.IsListing(s'.file, s'.hosts))
  }

  lemma AutoLetsIn(origin: seq<K.Host>, backed: bool, actions: seq<Action>, g: nat, list: seq<K.Host>)
    requires var s := Run(origin, backed, actions);
             && At(s, g, Unknown) && s.gates[g].auto
             && K.IsListing(list, s.hosts[s.gates[g].name := s.gates[g].cert.value])
    ensures LetIn(Run(origin, backed, actions), Run(origin, backed, actions + [AutoAdd(g, Some(list))]), g)
  {
    RunAppend(origin, backed, actions, AutoAdd(g, Some(list)));
  }

  lemma OperatorLetsIn(origin: seq<K.Host>, backed: bool, actions: seq<Action>, g: nat, list: seq<K.Host>)
    requires var s := Run(origin, backed, actions);
             && At(s, g, Unknown) && !s.gates[g].auto
             && K.IsListing(list, s.hosts[s.gates[g].name := s.gates[g].cert.value])
    ensures var s := Run(origin, backed, actions);
            LetIn(s, Run(origin, backed, actions + Asked(s, g, true) + [Settle(g, Some(list))]), g)
  {
    RunBacked(origin, backed, actions);
    OperatorDecides(origin, backed, actions, g, true, Some(list), []);
    var all := actions + Asked(Run(origin, backed, actions), g, true) + [Settle(g, Some(list))];
    assert all + [] == all;
  }

  /** In whatever state of the server, a client looked up in vain can be let in, by configuration or by an operator. */
  lemma UnknownCanBeLetIn(origin: seq<K.Host>, backed: bool, actions: seq<Action>, g: nat)
    returns (acts: seq<Action>)
    requires At(Run(origin, backed, actions), g, Unknown)
    ensures LetIn(Run(origin, backed, actions), Run(origin, backed, actions + acts), g)
  {
    var s := Run(origin, backed, actions);
    var list := K.ListingOf(s.hosts[s.gates[g].name := s.gates[g].cert.value]);
    if s.gates[g].auto {
      AutoLetsIn(origin, backed, actions, g, list);
      acts := [AutoAdd(g, Some(list))];
    } else {
      OperatorLetsIn(origin, backed, actions, g, list);
      acts := Asked(s, g, true) + [Settle(g, Some(list))];
      assert actions + acts == actions + Asked(s, g, true) + [Settle(g, Some(list))];
    }
  }

  /** The name is stored with this fingerprint, and no check that found no entry for the name is still under way
      with another certificate. */
  ghost predicate Settled(s: State, name: Name, fp: Fingerprint) {
    && name in s.hosts && s.hosts[name] == fp
    && forall g: nat | g < |s.gates| && s.gates[g].name == name ::
         s.gates[g].stage.Unknown? || s.gates[g].stage.Asking? ==> s.gates[g].cert == Some(fp)
  }

  lemma SettledStep(s: State, a: Action, name: Name, fp: Fingerprint)
    requires Settled(s, name, fp)
    requires a.Forget? ==> a.name != name
    ensures Settled(Next(s, a), name, fp)
  {
  }

  lemma {:induction false} SettledStays(
    origin: seq<K.Host>, backed: bool, actions: seq<Action>, more: seq<Action>, name: Name, fp: Fingerprint)
    requires Settled(Run(origin, backed, actions), name, fp)
    requires forall a | a in more && a.Forget? :: a.name != name
    ensures Settled(Run(origin, backed, actions + more), name, fp)
  {
    if more == [] {
      assert actions + more == actions;
    } else {
      var init, a := more[..|more| - 1], more[|more| - 1];
      assert actions + more == (actions + init) + [a];
      RunAppend(origin, backed, actions + init, a);
      SettledStays(origin, backed, actions, init, name, fp);
      assert a in more;
      SettledStep(Run(origin, backed, actions + init), a, name, fp);
    }
  }

  /** tofuCheck fails to rewrite the file after an approval, by configuration or by an operator. */
  ghost predicate SaveFails(s: State, a: Action, g: nat) {
    && (a == AutoAdd(g, None) || a == Settle(g, None))
    && g < |s.gates| && s.gates[g].stage != Done(Fail) && Next(s, a).gates[g].stage == Done(Fail)
  }

  lemma FailedSaveStores(s: State, a: Action, g: nat)
    requires SaveFails(s, a, g)
    ensures var s', q := Next(s, a), s.gates[g];
            && s.backed && q.cert.Some? && s'.file == s.file
            && q.name in s'.hosts && s'.hosts[q.name] == q.cert.value
  {
  }

  /** When the file cannot be rewritten, an approved client is turned away with an error and the file is as it was.
      Unless another certificate's check is just under way, every later check of the name, in whatever run follows in
      which no operator forgets it, lets in that same certificate and no other. */
  lemma FailedSaveStillTrusts(
    origin: seq<K.Host>, backed: bool, actions: seq<Action>, a: Action, g: nat, more: seq<Action>, h: nat)
    requires SaveFails(Run(origin, backed, actions), a, g)
    requires var q, s' := Run(origin, backed, actions).gates[g], Run(origin, backed, actions + [a]);
             && (q.cert.Some? ==> Settled(s', q.name, q.cert.value))
             && forall b | b in more && b.Forget? :: b.name != q.name
    requires var t := Run(origin, backed, actions + [a] + more);
             At(t, h, Arrived) && t.gates[h].name == Run(origin, backed, actions).gates[g].name
    ensures Run(origin, backed, actions + [a]).file == Run(origin, backed, actions).file
    ensures var t := Run(origin, backed, actions + [a] + more);
            var s := Run(origin, backed, actions + [a] + more + [Look(h)]);
            && h < |s.gates| && s.gates[h].stage.Done?
            && (s.gates[h].stage.verdict == Accept <==> t.gates[h].cert == Run(origin, backed, actions).gates[g].cert)
  {
    var s := Run(origin, backed, actions);
    var q := s.gates[g];
    RunAppend(origin, backed, actions, a);
    FailedSaveStores(s, a, g);
    SettledStays(origin, backed, actions + [a], more, q.name, q.cert.value);
    RunAppend(origin, backed, actions + [a] + more, Look(h));
  }

  // ----- Runs that meet the failure -----

  function AutoPath(name: Name, fp: Fingerprint): seq<Action> {
    [Arrive(name, true, Some(fp), true)] + [Look(0)]
  }

  function OperatorPath(name: Name, fp: Fingerprint): seq<Action> {
    [Arrive(name, true, Some(fp), false)] + [Look(0)] + [Ask(0)] + [Operate(A.Lookup(name, true))]
    + [Operate(A.Send(0))] + [Operate(A.Receive(0))] + [Operate(A.Cleanup(0))]
  }

  /** A new client on a server that approves automatically. */
  lemma AutoSaveCanFail(origin: seq<K.Host>, name: Name, fp: Fingerprint)
    requires name !in K.Load(origin)
    ensures SaveFails(Run(origin, true, AutoPath(name, fp)), AutoAdd(0, None), 0)
  {
    var s := UnknownClient(origin, name, fp, true);
  }

  /** The first client arrives and is looked up in vain. */
  lemma UnknownClient(origin: seq<K.Host>, name: Name, fp: Fingerprint, auto: bool) returns (s: State)
    requires name !in K.Load(origin)
    ensures s == Run(origin, true, [Arrive(name, true, Some(fp), auto)] + [Look(0)])
    ensures s == Start(origin, true).(gates := [Gate(name, true, Some(fp), auto, None, Unknown)])
  {
    UnknownWaits(origin, true, [], name, fp, auto);
    assert [] + [Arrive(name, true, Some(fp), auto)] + [Look(0)] == [Arrive(name, true, Some(fp), auto)] + [Look(0)];
    s := Run(origin, true, [Arrive(name, true, Some(fp), auto)] + [Look(0)]);
  }

  /** The approver's part: one request, submitted, approved, received and cleaned up. */
  lemma OneApproval(name: Name, fp: Fingerprint)
    ensures var a0 := A.Next(A.START, A.Submit(name, fp));
            var a := A.Next(A.Next(A.Next(A.Next(a0, A.Lookup(name, true)), A.Send(0)), A.Receive(0)), A.Cleanup(0));
            |a.requests| == 1 && a.requests[0].result == Some(true) && a.requests[0].cleaned
  {
    var a0 := A.Next(A.START, A.Submit(name, fp));
    var a1 := A.Next(a0, A.Lookup(name, true));
    assert a1.calls == [A.Call(0, true, None)];
    var a2 := A.Next(a1, A.Send(0));
    assert a2.requests[0].chan == Some(true);
    var a3 := A.Next(a2, A.Receive(0));
    assert a3.requests[0].result == Some(true);
  }

  /** A new client that an operator approves. */
  lemma OperatorSaveCanFail(origin: seq<K.Host>, name: Name, fp: Fingerprint)
    requires name !in K.Load(origin)
    ensures SaveFails(Run(origin, true, OperatorPath(name, fp)), Settle(0, None), 0)
  {
    var s2 := UnknownClient(origin, name, fp, false);
    var p2 := [Arrive(name, true, Some(fp), false)] + [Look(0)];
    RunAppend(origin, true, p2, Ask(0));
    RunAppend(origin, true, p2 + [Ask(0)], Operate(A.Lookup(name, true)));
    RunAppend(origin, true, p2 + [Ask(0)] + [Operate(A.Lookup(name, true))], Operate(A.Send(0)));
    RunAppend(origin, true, p2 + [Ask(0)] + [Operate(A.Lookup(name, true))] + [Operate(A.Send(0))],
              Operate(A.Receive(0)));
    RunAppend(origin, true, p2 + [Ask(0)] + [Operate(A.Lookup(name, true))] + [Operate(A.Send(0))]
                            + [Operate(A.Receive(0))], Operate(A.Cleanup(0)));
    OneApproval(name, fp);
    var s := Run(origin, true, OperatorPath(name, fp));
    assert s.gates == [Gate(name, true, Some(fp), false, None, Asking(0))];
    assert Returned(s, 0, true);
  }
}
