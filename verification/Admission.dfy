// The global concurrency cap: a lock-free counter that is loaded, compared and swapped.

module Admission {
  type Tid = nat

  /** A caller of Acquire: outside, holding a loaded value of the counter, or admitted. */
  datatype Phase = Out | Loaded(cur: int) | In

  datatype State = State(active: int, phases: map<Tid, Phase>)

  datatype Action = Load(t: Tid) | Swap(t: Tid) | Release(t: Tid)

  function At(s: State, t: Tid): Phase {
    if t in s.phases then s.phases[t] else Out
  }

  /** A cap that is not positive admits everybody at once. */
  function Next(cap: int, s: State, a: Action): State {
    match a
    case Load(t) =>
      if At(s, t) != Out then s
      else if cap <= 0 then State(s.active + 1, s.phases[t := In])
      else s.(phases := s.phases[t := Loaded(s.active)])
    case Swap(t) =>
      if !At(s, t).Loaded? then s
      else if At(s, t).cur < cap && s.active == At(s, t).cur then State(s.active + 1, s.phases[t := In])
      else s.(phases := s.phases[t := Out])  // refused, or the counter moved and the loop loads again
    case Release(t) =>
      if At(s, t) == In then State(s.active - 1, s.phases[t := Out]) else s
  }

  function Run(cap: int, actions: seq<Action>): State {
    if actions == [] then State(0, map[]) else Next(cap, Run(cap, actions[..|actions| - 1]), actions[|actions| - 1])
  }

  function Admitted(s: State): set<Tid> {
    set t | t in s.phases && s.phases[t] == In
  }

  lemma NextKeeps(cap: int, s: State, a: Action)
    requires s.active == |Admitted(s)| && (cap > 0 ==> s.active <= cap)
    ensures var s' := Next(cap, s, a); s'.active == |Admitted(s')| && (cap > 0 ==> s'.active <= cap)
  {
    var s' := Next(cap, s, a);
    var t := match a case Load(t) => t case Swap(t) => t case Release(t) => t;
    assert Admitted(s') == if At(s', t) == In then Admitted(s) + {t} else Admitted(s) - {t};
    assert t in Admitted(s) <==> At(s, t) == In;
  }

  /** In every interleaving the counter is the number of callers admitted and not yet released, and
      never exceeds a positive cap, however stale the loaded values are. */
  lemma {:induction false} CapHolds(cap: int, actions: seq<Action>)
    ensures Run(cap, actions).active == |Admitted(Run(cap, actions))|
    ensures cap > 0 ==> |Admitted(Run(cap, actions))| <= cap
  {
    if actions != [] {
      CapHolds(cap, actions[..|actions| - 1]);
      NextKeeps(cap, Run(cap, actions[..|actions| - 1]), actions[|actions| - 1]);
    }
  }

  lemma RunSnoc(cap: int, actions: seq<Action>, a: Action)
    ensures Run(cap, actions + [a]) == Next(cap, Run(cap, actions), a)
  {
    assert (actions + [a])[..|actions|] == actions;
  }

  /** A caller that loads and swaps with nobody in between is admitted if and only if there is no cap or fewer callers
      than that are admitted; it counts then, and changes nothing otherwise. */
  lemma AdmittedIffRoom(cap: int, actions: seq<Action>, t: Tid)
    requires At(Run(cap, actions), t) == Out
    ensures var s, s' := Run(cap, actions), Run(cap, actions + [Load(t)] + [Swap(t)]);
            if cap <= 0 || |Admitted(s)| < cap then At(s', t) == In && s'.active == s.active + 1
            else At(s', t) == Out && s'.active == s.active
    ensures var s, s' := Run(cap, actions), Run(cap, actions + [Load(t)] + [Swap(t)]);
            forall u: Tid | u != t :: At(s', u) == At(s, u)
  {
    CapHolds(cap, actions);
    RunSnoc(cap, actions, Load(t));
    RunSnoc(cap, actions + [Load(t)], Swap(t));
  }

  /** An admitted caller that leaves makes room for one more. */
  lemma ReleaseMakesRoom(cap: int, actions: seq<Action>, t: Tid, u: Tid)
    requires At(Run(cap, actions), t) == In && At(Run(cap, actions), u) == Out
    ensures At(Run(cap, actions + [Release(t)] + [Load(u)] + [Swap(u)]), u) == In
  {
    CapHolds(cap, actions);
    RunSnoc(cap, actions, Release(t));
    AdmittedIffRoom(cap, actions + [Release(t)], u);
    CapHolds(cap, actions + [Release(t)]);
  }
}
