// The receiver's per-name gates: a lock with a holder count, created on first
// use and pruned from the map when the count returns to zero.

module NameGate {
  import opened Basics

  type Name = nat  // names are only compared
  type Tid = nat
  type GateId = nat

  /** Where an upload handler is inside acquire ... release of one name. */
  datatype Handler =
    | Idle
    | Counted(name: Name, gate: GateId)   // n incremented, waiting for the gate's lock
    | Holding(name: Name, gate: GateId)   // acquire has returned
    | Unlocked(name: Name, gate: GateId)  // lock released, n not yet decremented

  /** A gate's count and lock, and, as history, its name and the handlers between acquire and release. */
  datatype Gate = Gate(n: int, owner: Option<Tid>, name: Name, users: set<Tid>)

  /** locks is the receiver's map; gates has every gate ever made, with ids below next. */
  datatype State = State(
    handlers: map<Tid, Handler>,
    locks: map<Name, GateId>,
    gates: map<GateId, Gate>,
    next: GateId)

  const START := State(map[], map[], map[], 0)

  datatype Action =
    | Enter(t: Tid, name: Name)  // acquire, up to the release of the receiver's mutex
    | Take(t: Tid)               // the gate's lock is obtained
    | Free(t: Tid)               // release: the gate's lock is given back
    | Leave(t: Tid)              // release: decrement and prune

  function At(s: State, t: Tid): Handler {
    if t in s.handlers then s.handlers[t] else Idle
  }

  function Put(s: State, t: Tid, h: Handler, g: GateId, gate: Gate): State {
    s.(handlers := s.handlers[t := h], gates := s.gates[g := gate])
  }

  function Next(s: State, a: Action): State {
    match a
    case Enter(t, name) =>
      if At(s, t) != Idle then s
      else if name in s.locks && s.locks[name] in s.gates then
        var g := s.locks[name];
        var gate := s.gates[g];
        Put(s, t, Counted(name, g), g, gate.(n := gate.n + 1, users := gate.users + {t}))
      else
        Put(s, t, Counted(name, s.next), s.next, Gate(1, None, name, {t}))
          .(locks := s.locks[name := s.next], next := s.next + 1)
    case Take(t) =>
      var h := At(s, t);
      if h.Counted? && h.gate in s.gates && s.gates[h.gate].owner.None?
      then Put(s, t, Holding(h.name, h.gate), h.gate, s.gates[h.gate].(owner := Some(t))) else s
    case Free(t) =>
      var h := At(s, t);
      if h.Holding? && h.gate in s.gates
      then Put(s, t, Unlocked(h.name, h.gate), h.gate, s.gates[h.gate].(owner := None)) else s
    case Leave(t) =>
      var h := At(s, t);
      if h.Unlocked? && h.gate in s.gates then
        var gate := s.gates[h.gate];
        Put(s, t, Idle, h.gate, gate.(n := gate.n - 1, users := gate.users - {t}))
          .(locks := if gate.n - 1 == 0 then s.locks - {h.name} else s.locks)
      else s
  }

  function Run(actions: seq<Action>): State {
    if actions == [] then START else Next(Run(actions[..|actions| - 1]), actions[|actions| - 1])
  }

  /** An active handler uses the gate that the map holds for its name, and owns its lock exactly while holding. */
  ghost predicate HandlerOk(s: State, t: Tid) {
    var h := At(s, t);
    h != Idle ==>
      && h.name in s.locks && s.locks[h.name] == h.gate
      && h.gate in s.gates && t in s.gates[h.gate].users
      && (h.Holding? <==> s.gates[h.gate].owner == Some(t))
  }

  /** A gate counts its users, and a user of the gate owns its lock. */
  ghost predicate GateOk(s: State, g: GateId) {
    g in s.gates ==>
      var gate := s.gates[g];
      && g < s.next && gate.n == |gate.users|
      && (gate.owner.Some? ==> gate.owner.value in gate.users && At(s, gate.owner.value).Holding?)
      && forall t | t in gate.users :: At(s, t) != Idle && At(s, t).gate == g && At(s, t).name == gate.name
  }

  /** A map entry leads to a gate of that name that is in use. */
  ghost predicate NameOk(s: State, name: Name) {
    name in s.locks ==>
      s.locks[name] in s.gates && s.gates[s.locks[name]].name == name && s.gates[s.locks[name]].n > 0
  }

  ghost predicate Inv(s: State) {
    && (forall t: Tid :: HandlerOk(s, t))
    && (forall g: GateId :: GateOk(s, g))
    && (forall name: Name :: NameOk(s, name))
  }

  lemma EnterKeeps(s: State, t: Tid, name: Name)
    requires Inv(s)
    ensures Inv(Next(s, Enter(t, name)))
  {
    var s' := Next(s, Enter(t, name));
    if At(s, t) == Idle {
      assert NameOk(s, name) && GateOk(s, if name in s.locks then s.locks[name] else s.next);
      forall u: Tid ensures HandlerOk(s', u) { assert HandlerOk(s, u); }
      forall g: GateId ensures GateOk(s', g) { assert GateOk(s, g); }
      forall m: Name ensures NameOk(s', m) { assert NameOk(s, m); }
    }
  }

  lemma TakeKeeps(s: State, t: Tid)
    requires Inv(s)
    ensures Inv(Next(s, Take(t)))
  {
    var s' := Next(s, Take(t));
    assert HandlerOk(s, t);
    forall u: Tid ensures HandlerOk(s', u) { assert HandlerOk(s, u); }
    forall g: GateId ensures GateOk(s', g) { assert GateOk(s, g); }
    forall m: Name ensures NameOk(s', m) { assert NameOk(s, m); }
  }

  lemma FreeKeeps(s: State, t: Tid)
    requires Inv(s)
    ensures Inv(Next(s, Free(t)))
  {
    var s' := Next(s, Free(t));
    assert HandlerOk(s, t);
    forall u: Tid ensures HandlerOk(s', u) { assert HandlerOk(s, u); }
    forall g: GateId ensures GateOk(s', g) { assert GateOk(s, g); }
    forall m: Name ensures NameOk(s', m) { assert NameOk(s, m); }
  }

  /** Another user keeps the entry of its gate alive. */
  lemma OtherUserKeepsEntry(s: State, t: Tid, u: Tid)
    requires At(s, t).Unlocked? && At(s, u) != Idle && u != t && At(s, u).gate == At(s, t).gate
    requires GateOk(s, At(s, t).gate) && HandlerOk(s, t) && HandlerOk(s, u)
    ensures Next(s, Leave(t)).locks == s.locks
  {
    var users := s.gates[At(s, t).gate].users;
    assert u in users - {t} && |users - {t}| == |users| - 1;
  }

  lemma LeaveKeeps(s: State, t: Tid)
    requires Inv(s)
    ensures Inv(Next(s, Leave(t)))
  {
    var s' := Next(s, Leave(t));
    assert HandlerOk(s, t);
    if s' != s {
      var g := At(s, t).gate;
      assert GateOk(s, g);
      forall u: Tid ensures HandlerOk(s', u) {
        assert HandlerOk(s, u);
        if u != t && At(s, u) != Idle {
          if At(s, u).gate == g { OtherUserKeepsEntry(s, t, u); } else { assert At(s, u).name != At(s, t).name; }
        }
      }
      forall g: GateId ensures GateOk(s', g) { assert GateOk(s, g); }
      forall m: Name ensures NameOk(s', m) { assert NameOk(s, m); }
    }
  }

  lemma {:induction false} RunKeeps(actions: seq<Action>)
    ensures Inv(Run(actions))
  {
    if actions != [] {
      var s, a := Run(actions[..|actions| - 1]), actions[|actions| - 1];
      RunKeeps(actions[..|actions| - 1]);
      match a
      case Enter(t, name) => EnterKeeps(s, t, name);
      case Take(t) => TakeKeeps(s, t);
      case Free(t) => FreeKeeps(s, t);
      case Leave(t) => LeaveKeeps(s, t);
    }
  }

  /** In every interleaving, with pruning, two handlers of one name use the same gate and never both hold it. */
  lemma OneHolderPerName(actions: seq<Action>, t: Tid, u: Tid)
    requires var s := Run(actions);
             t != u && At(s, t) != Idle && At(s, u) != Idle && At(s, t).name == At(s, u).name
    ensures At(Run(actions), t).gate == At(Run(actions), u).gate
    ensures !(At(Run(actions), t).Holding? && At(Run(actions), u).Holding?)
  {
    RunKeeps(actions);
    assert HandlerOk(Run(actions), t) && HandlerOk(Run(actions), u);
  }

  /** The handlers of a name that are between acquire and release. */
  function Active(s: State, name: Name): set<Tid> {
    set t | t in s.handlers && s.handlers[t] != Idle && s.handlers[t].name == name
  }

  /** An entry is in the map exactly while some handler of its name is between acquire and release, and
      its count is then the number of those handlers: no entry outlives its users. */
  lemma EntriesArePruned(actions: seq<Action>, name: Name)
    ensures var s := Run(actions);
            && (name in s.locks <==> Active(s, name) != {})
            && (name in s.locks ==> s.locks[name] in s.gates && s.gates[s.locks[name]].n == |Active(s, name)|)
  {
    RunKeeps(actions);
    var s := Run(actions);
    assert NameOk(s, name);
    if name in s.locks {
      var g := s.locks[name];
      assert GateOk(s, g);
      forall t: Tid ensures t in Active(s, name) <==> t in s.gates[g].users {
        assert HandlerOk(s, t);
      }
      assert Active(s, name) == s.gates[g].users;
      assert |Active(s, name)| > 0;
    } else {
      forall t ensures t !in Active(s, name) { assert HandlerOk(s, t); }
    }
  }

  // ----- Nobody waits without a reason -----

  lemma RunSnoc(actions: seq<Action>, a: Action)
    ensures Run(actions + [a]) == Next(Run(actions), a)
  {
    assert (actions + [a])[..|actions|] == actions;
  }

  /** An idle handler gets as far as the lock of its name, whatever the others do. */
  lemma EnterCounts(actions: seq<Action>, t: Tid, name: Name)
    requires At(Run(actions), t) == Idle
    ensures var s, s' := Run(actions), Run(actions + [Enter(t, name)]);
            At(s', t).Counted? && At(s', t).name == name && forall u: Tid | u != t :: At(s', u) == At(s, u)
  {
    RunSnoc(actions, Enter(t, name));
  }

  /** A waiting handler gets the lock if and only if no handler of the same name holds it. */
  lemma TakesIff(actions: seq<Action>, t: Tid)
    requires At(Run(actions), t).Counted?
    ensures var s, s' := Run(actions), Run(actions + [Take(t)]);
            && At(s', t).name == At(s, t).name
            && (At(s', t).Holding? <==> forall u: Tid :: !(At(s, u).Holding? && At(s, u).name == At(s, t).name))
            && (forall u: Tid | u != t :: At(s', u) == At(s, u))
  {
    RunKeeps(actions);
    RunSnoc(actions, Take(t));
    var s := Run(actions);
    assert HandlerOk(s, t);
    var g := At(s, t).gate;
    assert GateOk(s, g);
    assert NameOk(s, At(s, t).name);
    if s.gates[g].owner.Some? {
      assert At(s, s.gates[g].owner.value).Holding?;
    } else {
      forall u: Tid ensures !(At(s, u).Holding? && At(s, u).name == At(s, t).name) { assert HandlerOk(s, u); }
    }
  }

  /** Whoever holds the lock of a name can hand it on to any handler that waits for it, and can go away. */
  lemma HandsOn(actions: seq<Action>, t: Tid, u: Tid)
    requires var s := Run(actions); At(s, t).Holding? && At(s, u).Counted? && At(s, u).name == At(s, t).name
    ensures var s' := Run(actions + [Free(t)] + [Take(u)]);
            At(s', t).Unlocked? && At(s', u) == Holding(At(Run(actions), u).name, At(Run(actions), u).gate)
    ensures At(Run(actions + [Free(t)] + [Leave(t)]), t) == Idle
  {
    RunKeeps(actions);
    var s := Run(actions);
    assert HandlerOk(s, t) && HandlerOk(s, u);
    RunSnoc(actions, Free(t));
    RunSnoc(actions + [Free(t)], Take(u));
    RunSnoc(actions + [Free(t)], Leave(t));
  }
}
