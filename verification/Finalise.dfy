// Uploads in steps: a handler takes the gate of its name, changes ".part", chooses a free final name and renames.
// The gates of different names differ, so nothing orders the choices and renames of different handlers.

module Finalise {
  import opened Basics
  import opened DropFolder
  import opened Receiver

  type Tid = nat

  /** A handler between acquire and release; final is what uniquePath gave it, if it has called that. */
  datatype Job = Job(name: string, final: Option<string>)

  datatype State = State(files: Files, jobs: map<Tid, Job>)

  datatype Action =
    | Acquire(t: Tid, name: string)
    | Store(t: Tid, content: Option<seq<byte>>)  // the handler leaves this as its ".part", or removes it
    | Choose(t: Tid)                             // the digest matched: uniquePath
    | Rename(t: Tid)
    | Release(t: Tid)                            // without having renamed

  /** The gate of the name is held. */
  predicate Busy(s: State, name: string) {
    exists t | t in s.jobs :: s.jobs[t].name == name
  }

  predicate Storing(s: State, t: Tid) {
    t in s.jobs && s.jobs[t].final.None?
  }

  predicate Chosen(s: State, t: Tid) {
    t in s.jobs && s.jobs[t].final.Some? && PartName(s.jobs[t].name) in s.files
  }

  function PartOf(s: State, t: Tid): seq<byte>
    requires Chosen(s, t)
  {
    s.files[PartName(s.jobs[t].name)]
  }

  /** The rename replaces whatever has the name by then. */
  function Moved(s: State, t: Tid): Files
    requires Chosen(s, t)
  {
    (s.files - {PartName(s.jobs[t].name)})[s.jobs[t].final.value := PartOf(s, t)]
  }

  function Stored(files: Files, name: string, content: Option<seq<byte>>): Files {
    if content.Some? then files[PartName(name) := content.value] else files - {PartName(name)}
  }

  /** Uploads of names that end in ".part" are a matter of their own (module Receiver). */
  function Next(s: State, a: Action): State {
    match a
    case Acquire(t, name) =>
      if t in s.jobs || IsPart(name) || Busy(s, name) then s else s.(jobs := s.jobs[t := Job(name, None)])
    case Store(t, content) =>
      if Storing(s, t) then s.(files := Stored(s.files, s.jobs[t].name, content)) else s
    case Choose(t) =>
      if Storing(s, t) && PartName(s.jobs[t].name) in s.files
      then s.(jobs := s.jobs[t := s.jobs[t].(final := Some(FinalName(s.files, s.jobs[t].name)))])
      else s
    case Rename(t) => if Chosen(s, t) then State(Moved(s, t), s.jobs - {t}) else s
    case Release(t) => s.(jobs := s.jobs - {t})
  }

  function RunFrom(s: State, actions: seq<Action>): State {
    if actions == [] then s else Next(RunFrom(s, actions[..|actions| - 1]), actions[|actions| - 1])
  }

  /** A drop directory and no upload under way. */
  function Start(files: Files): State {
    State(files, map[])
  }

  ghost predicate JobOk(s: State, t: Tid)
    requires t in s.jobs
  {
    var j := s.jobs[t];
    && !IsPart(j.name)
    && (j.final.Some? ==> !IsPart(j.final.value) && PartName(j.name) in s.files)
  }

  ghost predicate Inv(s: State) {
    && (forall t | t in s.jobs :: JobOk(s, t))
    && forall t, u | t in s.jobs && u in s.jobs && t != u :: s.jobs[t].name != s.jobs[u].name
  }

  lemma PartsDiffer(a: string, b: string)
    ensures PartName(a) == PartName(b) <==> a == b
    ensures IsPart(PartName(a))
  {
    if PartName(a) == PartName(b) { PartNameInjective(a, b); }
  }

  /** A step of handler t leaves the ".part" of every other handler alone. */
  lemma OtherParts(s: State, a: Action, u: Tid)
    requires Inv(s) && u in s.jobs && u != a.t
    ensures var part, s' := PartName(s.jobs[u].name), Next(s, a);
            && u in s'.jobs && s'.jobs[u] == s.jobs[u]
            && (part in s.files <==> part in s'.files) && (part in s.files ==> s'.files[part] == s.files[part])
  {
    assert JobOk(s, u);
    if a.t in s.jobs {
      assert JobOk(s, a.t);
      PartsDiffer(s.jobs[u].name, s.jobs[a.t].name);
    }
  }

  lemma ChooseOk(s: State, t: Tid)
    requires Inv(s) && Storing(s, t) && PartName(s.jobs[t].name) in s.files
    ensures var s' := Next(s, Choose(t)); t in s'.jobs && JobOk(s', t)
  {
    assert JobOk(s, t);
    FinalNameNotPart(s.files, s.jobs[t].name);
  }

  lemma NextKeeps(s: State, a: Action)
    requires Inv(s)
    ensures Inv(Next(s, a))
  {
    var s' := Next(s, a);
    forall u | u in s'.jobs ensures JobOk(s', u) {
      if u != a.t {
        assert JobOk(s, u);
        OtherParts(s, a, u);
      } else if u in s.jobs {
        assert JobOk(s, u);
        if a.Choose? && s' != s { ChooseOk(s, u); }
      }
    }
  }

  lemma {:induction false} RunKeeps(s: State, actions: seq<Action>)
    requires Inv(s)
    ensures Inv(RunFrom(s, actions))
  {
    if actions != [] {
      RunKeeps(s, actions[..|actions| - 1]);
      NextKeeps(RunFrom(s, actions[..|actions| - 1]), actions[|actions| - 1]);
    }
  }

  // ----- When a file stays -----

  /** Handler u is about to rename something other than c to f. */
  predicate Threatens(s: State, u: Tid, f: string, c: seq<byte>) {
    Chosen(s, u) && s.jobs[u].final == Some(f) && PartOf(s, u) != c
  }

  /** f has content c, and nobody is about to replace it by anything else. */
  ghost predicate Guarded(s: State, f: string, c: seq<byte>) {
    f in s.files && s.files[f] == c && !IsPart(f) && forall u :: !Threatens(s, u, f, c)
  }

  /** A file that is there is changed only by the rename of someone who has chosen its name. */
  lemma FileStep(s: State, a: Action, f: string)
    requires Inv(s) && f in s.files && !IsPart(f)
    ensures var s' := Next(s, a);
            && f in s'.files
            && s'.files[f] == if a.Rename? && Chosen(s, a.t) && s.jobs[a.t].final == Some(f) then PartOf(s, a.t)
                              else s.files[f]
  {
    if a.t in s.jobs { PartsDiffer(s.jobs[a.t].name, s.jobs[a.t].name); }
  }

  lemma GuardedStep(s: State, a: Action, f: string, c: seq<byte>)
    requires Inv(s) && Guarded(s, f, c)
    ensures Guarded(Next(s, a), f, c)
  {
    var s' := Next(s, a);
    FileStep(s, a, f);
    if a.Rename? { assert !Threatens(s, a.t, f, c); }
    forall u ensures !Threatens(s', u, f, c) {
      assert !Threatens(s, u, f, c);
      if u in s.jobs && u != a.t { OtherParts(s, a, u); }
    }
  }

  lemma {:induction false} GuardedStays(s: State, more: seq<Action>, f: string, c: seq<byte>)
    requires Inv(s) && Guarded(s, f, c)
    ensures Guarded(RunFrom(s, more), f, c)
  {
    if more != [] {
      var init := more[..|more| - 1];
      GuardedStays(s, init, f, c);
      RunKeeps(s, init);
      GuardedStep(RunFrom(s, init), more[|more| - 1], f, c);
    }
  }

  /** Whatever happens next, f keeps content c. */
  ghost predicate Stays(s: State, f: string, c: seq<byte>) {
    forall more: seq<Action> :: f in RunFrom(s, more).files && RunFrom(s, more).files[f] == c
  }

  lemma StaysIff(s: State, f: string)
    requires Inv(s) && f in s.files && !IsPart(f)
    ensures Stays(s, f, s.files[f]) <==> Guarded(s, f, s.files[f])
  {
    var c := s.files[f];
    if Guarded(s, f, c) {
      forall more: seq<Action> ensures f in RunFrom(s, more).files && RunFrom(s, more).files[f] == c {
        GuardedStays(s, more, f, c);
      }
    } else {
      var u :| Threatens(s, u, f, c);
      assert [Rename(u)][..0] == [];
      assert RunFrom(s, [Rename(u)]) == Next(s, Rename(u));
    }
  }

  /** Another upload has chosen the same final name and holds something else. */
  predicate Rival(s: State, t: Tid, u: Tid) {
    && Chosen(s, t) && Chosen(s, u) && u != t
    && s.jobs[u].final == s.jobs[t].final && PartOf(s, u) != PartOf(s, t)
  }

  lemma GuardedIffNoRival(s: State, t: Tid)
    requires Inv(s) && Chosen(s, t)
    ensures !IsPart(s.jobs[t].final.value)
    ensures Guarded(Next(s, Rename(t)), s.jobs[t].final.value, PartOf(s, t)) <==> !exists u :: Rival(s, t, u)
  {
    var s', f, c := Next(s, Rename(t)), s.jobs[t].final.value, PartOf(s, t);
    assert JobOk(s, t);
    forall u ensures Threatens(s', u, f, c) <==> Rival(s, t, u) {
      if u in s.jobs && u != t { OtherParts(s, Rename(t), u); }
    }
  }

  /** In every run a delivery survives whatever follows if and only if, when it is renamed into place, no other
      upload has chosen the same name and waits with other content.  No later upload can choose that name. */
  lemma DeliverySurvivesIff(files: Files, actions: seq<Action>, t: Tid)
    requires Chosen(RunFrom(Start(files), actions), t)
    ensures var s := RunFrom(Start(files), actions);
            Stays(Next(s, Rename(t)), s.jobs[t].final.value, PartOf(s, t)) <==> !exists u :: Rival(s, t, u)
  {
    RunKeeps(Start(files), actions);
    var s := RunFrom(Start(files), actions);
    NextKeeps(s, Rename(t));
    GuardedIffNoRival(s, t);
    StaysIff(Next(s, Rename(t)), s.jobs[t].final.value);
  }

  // ----- The race -----

  /** Handlers 0 and 1 upload a under p and b under q. */
  function BothStored(files: Files, p: string, q: string, a: seq<byte>, b: seq<byte>): State {
    var s := Next(Next(Start(files), Acquire(0, p)), Store(0, Some(a)));
    Next(Next(s, Acquire(1, q)), Store(1, Some(b)))
  }

  lemma BothStoredIs(files: Files, p: string, q: string, a: seq<byte>, b: seq<byte>)
    requires !IsPart(p) && !IsPart(q) && p != q
    ensures BothStored(files, p, q, a, b) ==
            State(files[PartName(p) := a][PartName(q) := b], map[0 := Job(p, None), 1 := Job(q, None)])
  {
    assert Next(Start(files), Acquire(0, p)) == State(files, map[0 := Job(p, None)]);
    var s := Next(Next(Start(files), Acquire(0, p)), Store(0, Some(a)));
    assert s == State(files[PartName(p) := a], map[0 := Job(p, None)]);
    assert Next(s, Acquire(1, q)) == State(s.files, map[0 := Job(p, None), 1 := Job(q, None)]);
  }

  lemma BothRename(files: Files, p: string, q: string)
    requires PartName(p) in files && PartName(q) in files && PartName(p) != PartName(q)
    requires q != PartName(q) && q != PartName(p)
    ensures var s2 := Next(State(files, map[0 := Job(p, Some(q)), 1 := Job(q, Some(q))]), Rename(0));
            && q in s2.files && s2.files[q] == files[PartName(p)]
            && q in Next(s2, Rename(1)).files && Next(s2, Rename(1)).files[q] == files[PartName(q)]
  {
    var s2 := Next(State(files, map[0 := Job(p, Some(q)), 1 := Job(q, Some(q))]), Rename(0));
    assert 1 in s2.jobs && s2.jobs[1] == Job(q, Some(q));
    assert PartName(q) in s2.files && s2.files[PartName(q)] == files[PartName(q)];
  }

  lemma BothChoose(files: Files, p: string, q: string)
    requires PartName(p) in files && PartName(q) in files
    requires FinalName(files, p) == q && FinalName(files, q) == q
    ensures Next(Next(State(files, map[0 := Job(p, None), 1 := Job(q, None)]), Choose(0)), Choose(1)) ==
            State(files, map[0 := Job(p, Some(q)), 1 := Job(q, Some(q))])
  {
    var s := State(files, map[0 := Job(p, None), 1 := Job(q, None)]);
    assert Next(s, Choose(0)) == State(files, map[0 := Job(p, Some(q)), 1 := Job(q, None)]);
  }

  lemma FirstAlternative(files: Files, p: string, q: string)
    requires p in files && q !in files && q == Candidate(p, 1)
    ensures FinalName(files, p) == q && FinalName(files, q) == q
  {
  }

  lemma AlternativeDiffers(p: string)
    requires !IsPart(p)
    ensures Candidate(p, 1) != p && !IsPart(Candidate(p, 1))
  {
    assert |Candidate(p, 1)| > |p|;
    ExtNotPart(p);
    PartEnd(Before(p) + Decimal(1), Ext(p));
    assert Candidate(p, 1) == (Before(p) + Decimal(1)) + ")" + Ext(p);
  }

  /** Both choose q, the second rename replaces what the first one delivered, and that was something else. */
  predicate Loses(files: Files, p: string, q: string, a: seq<byte>, b: seq<byte>) {
    var s2 := Next(Next(Next(BothStored(files, p, q, a, b), Choose(0)), Choose(1)), Rename(0));
    && q in s2.files && s2.files[q] == a
    && q in Next(s2, Rename(1)).files && Next(s2, Rename(1)).files[q] == b != a
  }

  lemma RaceAt(files: Files, p: string, q: string, a: seq<byte>, b: seq<byte>)
    requires !IsPart(p) && !IsPart(q) && p != q && a != b
    requires var files' := files[PartName(p) := a][PartName(q) := b];
             FinalName(files', p) == q && FinalName(files', q) == q
    ensures Loses(files, p, q, a, b)
  {
    PartsDiffer(p, q);
    PartsDiffer(q, p);
    BothStoredIs(files, p, q, a, b);
    var files' := files[PartName(p) := a][PartName(q) := b];
    BothChoose(files', p, q);
    BothRename(files', p, q);
  }

  lemma PartsAreNew(files: Files, p: string, q: string, a: seq<byte>, b: seq<byte>)
    requires !IsPart(q) && p in files && q !in files
    ensures var files' := files[PartName(p) := a][PartName(q) := b]; p in files' && q !in files'
  {
    PartsDiffer(p, q);
    PartsDiffer(q, p);
  }

  /** From any directory that holds p but not p's first alternative: uploads of both names choose the alternative, and
      the second rename replaces the file that the first one delivered by a different one. */
  lemma RaceLosesDelivery(files: Files, p: string, a: seq<byte>, b: seq<byte>)
    requires !IsPart(p) && p in files && Candidate(p, 1) !in files && a != b
    ensures Loses(files, p, Candidate(p, 1), a, b)
  {
    var q := Candidate(p, 1);
    AlternativeDiffers(p);
    PartsAreNew(files, p, q, a, b);
    FirstAlternative(files[PartName(p) := a][PartName(q) := b], p, q);
    RaceAt(files, p, q, a, b);
  }

  // ----- The receiver's single step -----

  /** Undisturbed, the steps of a delivering upload amount to the receiver's single one. */
  lemma SerialIsServe(maxSize: int, files: Files, put: Put, t: Tid)
    requires !IsPart(put.name) && Serve(maxSize, files, put).stored.Some?
    ensures var s := Next(Next(Start(files), Acquire(t, put.name)), Store(t, Some(Grown(files, put))));
            Next(Next(s, Choose(t)), Rename(t)) == State(Serve(maxSize, files, put).files, map[])
  {
    assert Next(Start(files), Acquire(t, put.name)) == State(files, map[t := Job(put.name, None)]);
    var s := Next(Next(Start(files), Acquire(t, put.name)), Store(t, Some(Grown(files, put))));
    assert s == State(files[PartName(put.name) := Grown(files, put)], map[t := Job(put.name, None)]);
    var s' := Next(s, Choose(t));
    assert s'.jobs == map[t := Job(put.name, Some(FinalName(s.files, put.name)))];
    assert s'.jobs - {t} == map[];
  }

  /** A PUT that does not deliver does to the directory what one Store step does. */
  function Leaves(maxSize: int, files: Files, put: Put): Option<seq<byte>> {
    var after := Serve(maxSize, files, put).files;
    if PartName(put.name) in after then Some(after[PartName(put.name)]) else None
  }

  lemma NotDeliveringIsStore(maxSize: int, files: Files, put: Put)
    requires Serve(maxSize, files, put).stored.None?
    ensures Serve(maxSize, files, put).files == Stored(files, put.name, Leaves(maxSize, files, put))
  {
    var o := Serve(maxSize, files, put);
    forall f | f in files && f != PartName(put.name) ensures f in o.files && o.files[f] == files[f] {
      OnlyOwnPart(maxSize, files, put, f);
    }
  }
}
