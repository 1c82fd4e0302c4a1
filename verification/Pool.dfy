// The pool of server sessions: an in-place filter on removal and a round-robin pick.

module Pool {
  import opened Basics

  /** The counter is a 64-bit one; what is proved of the picks holds for any width. */
  const TWO_64: nat := 0x1_0000_0000_0000_0000

  /** A session, by identity. */
  type Session = nat

  function Without(ss: seq<Session>, s: Session): seq<Session> {
    if ss == [] then []
    else Without(ss[..|ss| - 1], s) + if ss[|ss| - 1] == s then [] else [ss[|ss| - 1]]
  }

  // Division by repeated subtraction, which keeps the proofs below linear; ResidueIs, FloorIs and CeilingIs
  // say what the three functions are.

  function Residue(a: nat, n: nat): (r: nat)
    requires n > 0
    ensures r < n
  {
    if a < n then a else Residue(a - n, n)
  }

  function Floor(a: nat, n: nat): nat
    requires n > 0
  {
    if a < n then 0 else 1 + Floor(a - n, n)
  }

  function Ceiling(a: nat, n: nat): nat
    requires n > 0
  {
    if a == 0 then 0 else if a <= n then 1 else 1 + Ceiling(a - n, n)
  }

  lemma {:induction false} ResidueIs(a: nat, n: nat)
    requires n > 0
    ensures Residue(a, n) == a % n && Floor(a, n) == a / n
  {
    if a < n {
      UniqueMod(a, n, 0, a);
    } else {
      ResidueIs(a - n, n);
      var q, r := (a - n) / n, (a - n) % n;
      assert a == (q + 1) * n + r;
      UniqueMod(a, n, q + 1, r);
    }
  }

  lemma {:induction false} CeilingIs(a: nat, n: nat)
    requires n > 0
    ensures Ceiling(a, n) == Floor(a + (n - 1), n)
  {
    if a > n { CeilingIs(a - n, n); }
  }

  /** The slot that Pick reads among n sessions, when the counter, which wraps at w, was counter before it. */
  function Slot(w: nat, n: nat, counter: nat): (i: nat)
    requires w > 0 && n > 0
    ensures i < n
  {
    Residue(Residue(counter, w), n)
  }

  /** The counter after k picks. */
  function After(w: nat, counter: nat, k: nat): nat
    requires w > 0
  {
    if k == 0 then counter else Residue(After(w, counter, k - 1) + 1, w)
  }

  lemma SlotBelow(n: nat, counter: nat)
    requires n > 0 && counter < TWO_64
    ensures Slot(TWO_64, n, counter) == counter % n
  {
    ResidueIs(counter, n);
  }

  /** The unsigned addition and the subtraction that follows it. */
  lemma AddAndBack(counter: nat)
    requires counter < 18446744073709551616
    ensures var c := if counter == 18446744073709551615 then 0 else counter + 1;
            c == (counter + 1) % TWO_64 == After(TWO_64, counter, 1) && (c + TWO_64 - 1) % TWO_64 == counter
  {
    assert After(TWO_64, counter, 0) == counter;
  }

  class ServerPool {
    var sessions: array<Session>   // the slice's backing array
    var len: nat                   // and its length
    var counter: nat

    ghost predicate Valid()
      reads this
    {
      len <= sessions.Length && counter < TWO_64
    }

    ghost function Contents(): seq<Session>
      reads this, sessions
      requires Valid()
    {
      sessions[..len]
    }

    constructor ()
      ensures Valid() && Contents() == [] && counter == 0
    {
      sessions := new Session[0];
      len := 0;
      counter := 0;
    }

    method Add(s: Session)
      requires Valid()
      modifies this`sessions, this`len, sessions
      ensures Valid() && Contents() == old(Contents()) + [s]
      ensures sessions == old(sessions) || fresh(sessions)
    {
      if len == sessions.Length {
        var slice, n := sessions, len;
        var bigger := new Session[2 * n + 1](_ => 0);
        for i := 0 to n
          invariant sessions == slice && len == n && slice[..n] == old(Contents())
          invariant bigger[..i] == slice[..i]
        {
          bigger[i] := slice[i];
        }
        sessions := bigger;
      }
      sessions[len] := s;
      len := len + 1;
    }

    method Remove(s: Session)
      requires Valid()
      modifies this`len, sessions
      ensures Valid() && Contents() == Without(old(Contents()), s)
    {
      ghost var was := Contents();
      var slice, n, kept := sessions, len, 0;
      for i := 0 to n
        invariant kept <= i && len == n
        invariant slice[..kept] == Without(was[..i], s)
        invariant forall t | i <= t < n :: slice[t] == was[t]
      {
        var x := slice[i];
        assert was[..i + 1][..i] == was[..i];
        if x != s {
          slice[kept] := x;
          kept := kept + 1;
        }
      }
      assert was[..n] == was;
      len := kept;
    }

    method Pick() returns (r: Option<Session>)
      requires Valid()
      modifies this`counter
      ensures Valid()
      ensures Contents() == [] ==> r == None && counter == old(counter)
      ensures Contents() != [] ==>
                r == Some(Contents()[Slot(TWO_64, len, old(counter))]) && counter == After(TWO_64, old(counter), 1)
    {
      var n := len;
      if n == 0 {
        return None;
      }
      AddAndBack(counter);
      SlotBelow(n, counter);
      counter := (counter + 1) % TWO_64;
      var i := (counter + TWO_64 - 1) % TWO_64;
      r := Some(sessions[i % n]);
    }
  }

  // ----- Removal -----

  ghost predicate Subsequence(xs: seq<Session>, ys: seq<Session>, at: seq<nat>) {
    && |at| == |xs|
    && (forall i | 0 <= i < |xs| :: at[i] < |ys| && xs[i] == ys[at[i]])
    && forall i, j | 0 <= i < j < |xs| :: at[i] < at[j]
  }

  lemma SubsequenceSnoc(xs: seq<Session>, ys: seq<Session>, at: seq<nat>, x: Session)
    requires Subsequence(xs, ys, at)
    ensures Subsequence(xs + [x], ys + [x], at + [|ys|])
    ensures Subsequence(xs, ys + [x], at)
  {
  }

  /** Removal keeps the order of the sessions it keeps ... */
  lemma {:induction false} WithoutKeepsOrder(ss: seq<Session>, s: Session) returns (at: seq<nat>)
    ensures Subsequence(Without(ss, s), ss, at)
  {
    if ss == [] {
      at := [];
    } else {
      var init, x := ss[..|ss| - 1], ss[|ss| - 1];
      at := WithoutKeepsOrder(init, s);
      SubsequenceSnoc(Without(init, s), init, at, x);
      assert ss == init + [x];
      if x != s { at := at + [|init|]; }
    }
  }

  /** ... and keeps every other session exactly as often as it was there. */
  lemma {:induction false} WithoutKeepsOthers(ss: seq<Session>, s: Session, x: Session)
    ensures multiset(Without(ss, s))[x] == if x == s then 0 else multiset(ss)[x]
  {
    if ss != [] {
      WithoutKeepsOthers(ss[..|ss| - 1], s, x);
      assert ss == ss[..|ss| - 1] + [ss[|ss| - 1]];
    }
  }

  // ----- Fairness -----

  /** How many of k consecutive picks from a counter return session s. */
  function Chosen(w: nat, ss: seq<Session>, s: Session, counter: nat, k: nat): nat
    requires w > 0 && ss != []
  {
    if k == 0 then 0
    else
      var pick := ss[Slot(w, |ss|, After(w, counter, k - 1))];
      Chosen(w, ss, s, counter, k - 1) + if pick == s then 1 else 0
  }

  ghost predicate Distinct(ss: seq<Session>) {
    forall i, j | 0 <= i < j < |ss| :: ss[i] != ss[j]
  }

  /** Session s is chosen floor(k/n) or ceil(k/n) times in k picks. */
  ghost predicate Fair(w: nat, ss: seq<Session>, s: Session, counter: nat, k: nat)
    requires w > 0 && ss != []
  {
    Floor(k, |ss|) <= Chosen(w, ss, s, counter, k) <= Ceiling(k, |ss|)
  }

  /** The number of t below m with residue j. */
  function Below(n: nat, j: nat, m: nat): nat
    requires j < n
  {
    if m == 0 then 0 else Below(n, j, m - 1) + if Residue(m - 1, n) == j then 1 else 0
  }

  lemma {:induction false} FloorStep(n: nat, j: nat, m: nat)
    requires j < n
    ensures Floor(m + n - j, n) == Floor(m + (n - 1 - j), n) + if Residue(m, n) == j then 1 else 0
  {
    if m >= n { FloorStep(n, j, m - n); }
  }

  lemma {:induction false} BelowIs(n: nat, j: nat, m: nat)
    requires j < n
    ensures Below(n, j, m) == Floor(m + (n - 1 - j), n)
  {
    if m > 0 {
      BelowIs(n, j, m - 1);
      FloorStep(n, j, m - 1);
    }
  }

  /** A window of k numbers contains floor(k/n) or ceil(k/n) multiples of n. */
  lemma {:induction false} Window(a: nat, k: nat, n: nat)
    requires n > 0
    ensures Floor(k, n) <= Floor(a + k, n) - Floor(a, n) <= Ceiling(k, n)
  {
    if k >= n {
      Window(a, k - n, n);
    } else if a >= n {
      Window(a - n, k, n);
    }
  }

  lemma {:induction false} ResidueAdd(x: nat, y: nat, n: nat)
    requires n > 0
    ensures Residue(x + y, n) == Residue(x + Residue(y, n), n)
  {
    if y >= n { ResidueAdd(x, y - n, n); }
  }

  /** Without a wrap, or when n divides w, the slot is the residue of the unbounded count. */
  lemma {:induction false} SlotIs(w: nat, n: nat, count: nat)
    requires w > 0 && n > 0 && (count < w || Residue(w, n) == 0)
    ensures Slot(w, n, count) == Residue(count, n)
  {
    if count >= w {
      SlotIs(w, n, count - w);
      ResidueAdd(count - w, w, n);
    }
  }

  lemma {:induction false} AfterIs(w: nat, counter: nat, k: nat)
    requires w > 0
    ensures Residue(After(w, counter, k), w) == Residue(counter + k, w)
  {
    if k > 0 {
      AfterIs(w, counter, k - 1);
      ResidueAdd(1, After(w, counter, k - 1), w);
      ResidueAdd(1, counter + (k - 1), w);
      ResidueOnce(After(w, counter, k - 1) + 1, w);
    }
  }

  lemma ResidueOnce(a: nat, n: nat)
    requires n > 0
    ensures Residue(Residue(a, n), n) == Residue(a, n)
  {
  }

  /** The slot of the pick after k others. */
  lemma SlotAfter(w: nat, n: nat, counter: nat, k: nat)
    requires w > 0 && n > 0
    ensures Slot(w, n, After(w, counter, k)) == Slot(w, n, counter + k)
  {
    AfterIs(w, counter, k);
  }

  lemma PickStep(w: nat, ss: seq<Session>, j: nat, counter: nat, k: nat)
    requires w > 0 && j < |ss| && Distinct(ss)
    requires counter + k < w || Residue(w, |ss|) == 0
    ensures Chosen(w, ss, ss[j], counter, k + 1) ==
            Chosen(w, ss, ss[j], counter, k) + if Residue(counter + k, |ss|) == j then 1 else 0
  {
    SlotIs(w, |ss|, counter + k);
    SlotAfter(w, |ss|, counter, k);
    var i := Slot(w, |ss|, After(w, counter, k));
    assert ss[i] == ss[j] <==> i == j;
  }

  lemma {:induction false} CountIs(w: nat, ss: seq<Session>, j: nat, counter: nat, k: nat)
    requires w > 0 && j < |ss| && Distinct(ss)
    requires counter + k <= w || Residue(w, |ss|) == 0
    ensures Chosen(w, ss, ss[j], counter, k) == Below(|ss|, j, counter + k) - Below(|ss|, j, counter)
  {
    if k > 0 {
      CountIs(w, ss, j, counter, k - 1);
      PickStep(w, ss, j, counter, k - 1);
      assert counter + (k - 1) + 1 == counter + k;
    }
  }

  lemma WindowBelow(n: nat, j: nat, counter: nat, k: nat)
    requires j < n
    ensures Floor(k, n) <= Below(n, j, counter + k) - Below(n, j, counter) <= Ceiling(k, n)
  {
    BelowIs(n, j, counter);
    BelowIs(n, j, counter + k);
    var a, b := counter + (n - 1 - j), counter + k + (n - 1 - j);
    assert b == a + k;
    Window(a, k, n);
  }

  /** Round robin is fair over any consecutive picks that do not wrap the counter, or if n divides w. */
  lemma PicksAreFair(w: nat, ss: seq<Session>, s: Session, counter: nat, k: nat)
    requires w > 0 && s in ss && Distinct(ss)
    requires counter + k <= w || Residue(w, |ss|) == 0
    ensures Fair(w, ss, s, counter, k)
  {
    var j :| 0 <= j < |ss| && ss[j] == s;
    CountIs(w, ss, j, counter, k);
    WindowBelow(|ss|, j, counter, k);
  }

  lemma {:induction false} ResidueOff(w: nat, n: nat)
    requires n > 0
    ensures Residue(w, n) <= w && Residue(w - Residue(w, n), n) == 0
  {
    if w >= n { ResidueOff(w - n, n); }
  }

  lemma SlotsAroundWrap(w: nat, n: nat)
    requires w > 0 && n > 0 && Residue(w, n) != 0
    ensures var r := Residue(w, n); r <= w && Slot(w, n, w - r) == 0 && Slot(w, n, w) == 0
  {
    ResidueOff(w, n);
    assert Residue(w, w) == 0;
  }

  lemma {:induction false} ChosenAtFirst(w: nat, ss: seq<Session>, counter: nat, k: nat)
    requires w > 0 && ss != [] && k > 0
    ensures Chosen(w, ss, ss[Slot(w, |ss|, counter)], counter, k) >= 1
  {
    if k == 1 { assert After(w, counter, 0) == counter; } else { ChosenAtFirst(w, ss, counter, k - 1); }
  }

  /** Otherwise the picks around the wrap return the first session twice within n picks. */
  lemma WrapIsUnfair(w: nat, ss: seq<Session>)
    requires w > 0 && ss != [] && Residue(w, |ss|) != 0
    ensures var r := Residue(w, |ss|); r <= w && !Fair(w, ss, ss[0], w - r, r + 1)
  {
    var r := Residue(w, |ss|);
    var c := w - r;
    SlotsAroundWrap(w, |ss|);
    ChosenAtFirst(w, ss, c, r);
    SlotAfter(w, |ss|, c, r);
    assert c + r == w;
    assert Ceiling(r + 1, |ss|) == 1;
  }

  /** Every run of picks is fair to every session, wraps included, if and only if n divides w. */
  lemma AlwaysFairIff(w: nat, ss: seq<Session>)
    requires w > 0 && ss != [] && Distinct(ss)
    ensures (forall s, counter: nat, k: nat | s in ss :: Fair(w, ss, s, counter, k)) <==> Residue(w, |ss|) == 0
  {
    if Residue(w, |ss|) == 0 {
      forall s, counter: nat, k: nat | s in ss ensures Fair(w, ss, s, counter, k) {
        PicksAreFair(w, ss, s, counter, k);
      }
    } else {
      WrapIsUnfair(w, ss);
      assert ss[0] in ss;
    }
  }
}
