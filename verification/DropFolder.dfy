// File names in the receiver's drop directory: sanitising a client-supplied
// name, the ".part" companion, and the collision-avoiding final name.

module DropFolder {
  import opened Basics

  /** The files of the drop directory, by name. */
  type Files = map<string, seq<byte>>

  const PART := ".part"

  function PartName(name: string): string {
    name + PART
  }

  lemma PartNameInjective(a: string, b: string)
    requires PartName(a) == PartName(b)
    ensures a == b
  {
    assert a == PartName(a)[..|a|] && b == PartName(b)[..|b|];
  }

  predicate IsPart(f: string) {
    |f| >= |PART| && f[|f| - |PART|..] == PART
  }

  // ----- sanitizeName -----

  /** White space as strings.TrimSpace sees it. */
  predicate IsSpace(c: char) {
    var n := c as int;
    || 9 <= n <= 13 || n == 0x20 || n == 0x85 || n == 0xA0 || n == 0x1680 || 0x2000 <= n <= 0x200A
    || n == 0x2028 || n == 0x2029 || n == 0x202F || n == 0x205F || n == 0x3000
  }

  function TrimLeft(s: string): string {
    if s != "" && IsSpace(s[0]) then TrimLeft(s[1..]) else s
  }

  function TrimRight(s: string): string {
    if s != "" && IsSpace(s[|s| - 1]) then TrimRight(s[..|s| - 1]) else s
  }

  function Slashes(s: string): string {
    seq(|s|, i requires 0 <= i < |s| => if s[i] == '\\' then '/' else s[i])
  }

  function DropTrailingSlashes(s: string): string {
    if s != "" && s[|s| - 1] == '/' then DropTrailingSlashes(s[..|s| - 1]) else s
  }

  function AfterLastSlash(s: string): string {
    if s == "" || s[|s| - 1] == '/' then "" else AfterLastSlash(s[..|s| - 1]) + [s[|s| - 1]]
  }

  /** path.Base. */
  function BaseName(s: string): string {
    if s == "" then "."
    else
      var b := AfterLastSlash(DropTrailingSlashes(s));
      if b == "" then "/" else b
  }

  function SanitizeName(raw: string): Option<string> {
    var trimmed := TrimLeft(TrimRight(raw));
    if trimmed == "" then None
    else
      var base := BaseName(Slashes(trimmed));
      if base == "." || base == ".." || base == "/" || base == "" || '\0' in base then None else Some(base)
  }

  /** A single path component that names a file inside the directory. */
  predicate ValidName(n: string) {
    n != "" && n != "." && n != ".." && '/' !in n && '\\' !in n && '\0' !in n
  }

  lemma {:induction false} AfterLastSlashShape(s: string)
    ensures '/' !in AfterLastSlash(s)
    ensures forall c | c in AfterLastSlash(s) :: c in s
  {
    if s != "" { AfterLastSlashShape(s[..|s| - 1]); }
  }

  lemma {:induction false} DropTrailingSlashesShape(s: string)
    ensures DropTrailingSlashes(s) <= s
  {
    if s != "" { DropTrailingSlashesShape(s[..|s| - 1]); }
  }

  lemma {:induction false} AfterLastSlashPlain(s: string, n: string)
    requires '/' !in n
    ensures AfterLastSlash(s + "/" + n) == n
  {
    if n == "" {
      assert s + "/" + n == s + "/";
    } else {
      var k := |n| - 1;
      assert (s + "/" + n)[..|s + "/" + n| - 1] == s + "/" + n[..k];
      AfterLastSlashPlain(s, n[..k]);
    }
  }

  lemma ReachName(n: string)
    requires ValidName(n)
    ensures SanitizeName("/" + n + "/") == Some(n)
  {
    var raw := "/" + n + "/";
    assert TrimLeft(TrimRight(raw)) == raw;
    assert Slashes(raw) == raw;
    assert raw[..|raw| - 1] == "/" + n;
    assert DropTrailingSlashes(raw) == "/" + n;
    AfterLastSlashPlain("", n);
    assert "" + "/" + n == "/" + n;
  }

  lemma SanitizedIsValid(raw: string)
    ensures SanitizeName(raw).Some? ==> ValidName(SanitizeName(raw).value)
  {
    var s := Slashes(TrimLeft(TrimRight(raw)));
    AfterLastSlashShape(DropTrailingSlashes(s));
    DropTrailingSlashesShape(s);
    assert forall c | c in s :: c != '\\';
  }

  /** The names the receiver ever works with are exactly the single components: no path escapes the
      directory, and every component can be reached. */
  lemma SanitizedNames(n: string)
    ensures ValidName(n) <==> exists raw :: SanitizeName(raw) == Some(n)
  {
    if ValidName(n) { ReachName(n); }
    if raw :| SanitizeName(raw) == Some(n) { SanitizedIsValid(raw); }
  }

  // ----- Which name comes out -----

  lemma {:induction false} TrimLeftKeeps(dir: string, n: string)
    requires n != "" && !IsSpace(n[0])
    ensures TrimLeft(dir + n) == TrimLeft(dir) + n
  {
    if dir == "" {
      assert dir + n == n;
    } else {
      assert (dir + n)[1..] == dir[1..] + n;
      TrimLeftKeeps(dir[1..], n);
    }
  }

  /** The name after the last separator, of either kind, is what comes out, whatever directories stand before it; only
      a name that is no name, or contains a NUL, is refused. */
  lemma DirectoriesAreDropped(dir: string, sep: char, n: string)
    requires sep == '/' || sep == '\\'
    requires n != "" && '/' !in n && '\\' !in n && !IsSpace(n[|n| - 1])
    ensures SanitizeName(dir + [sep] + n) == if n == "." || n == ".." || '\0' in n then None else Some(n)
  {
    var raw := dir + [sep] + n;
    assert raw[|raw| - 1] == n[|n| - 1];
    assert raw == dir + ([sep] + n);
    TrimLeftKeeps(dir, [sep] + n);
    var trimmed := TrimLeft(dir) + ([sep] + n);
    var s := Slashes(TrimLeft(dir)) + "/" + n;
    assert Slashes(trimmed) == s;
    assert s[|s| - 1] == n[|n| - 1];
    AfterLastSlashPlain(Slashes(TrimLeft(dir)), n);
    assert n[0] in n;
  }

  lemma {:induction false} AfterNoSlash(n: string)
    requires '/' !in n
    ensures AfterLastSlash(n) == n
  {
    if n != "" {
      AfterNoSlash(n[..|n| - 1]);
      assert n == n[..|n| - 1] + [n[|n| - 1]];
    }
  }

  /** A plain name without surrounding spaces is its own sanitised name; spaces alone are none. */
  lemma PlainNameStays(n: string)
    requires ValidName(n) && !IsSpace(n[0]) && !IsSpace(n[|n| - 1])
    ensures SanitizeName(n) == Some(n)
  {
    assert Slashes(n) == n;
    assert DropTrailingSlashes(n) == n by { assert n[|n| - 1] in n; }
    AfterNoSlash(n);
    assert n[0] in n;
  }

  lemma {:induction false} SpacesAreNoName(n: string)
    requires forall c | c in n :: IsSpace(c)
    ensures SanitizeName(n) == None
  {
    if n != "" {
      assert n[|n| - 1] in n;
      SpacesAreNoName(n[..|n| - 1]);
    }
  }

  // ----- uniquePath -----

  /** filepath.Ext: from the last dot on, or empty. */
  function Ext(p: string): (e: string)
    ensures |e| <= |p| && p[|p| - |e|..] == e
  {
    if p == "" then ""
    else if p[|p| - 1] == '.' then "."
    else
      var e := Ext(p[..|p| - 1]);
      if e == "" then "" else e + [p[|p| - 1]]
  }

  function Decimal(n: nat): string {
    (if n < 10 then "" else Decimal(n / 10)) + ["0123456789"[n % 10]]
  }

  function Value(s: string): nat {
    if s == "" then 0
    else Value(s[..|s| - 1]) * 10 + if '0' <= s[|s| - 1] <= '9' then s[|s| - 1] as int - '0' as int else 0
  }

  lemma {:induction false} DecimalValue(n: nat)
    ensures Value(Decimal(n)) == n
  {
    var d := "0123456789"[n % 10];
    assert d as int - '0' as int == n % 10;
    if n < 10 {
      assert Decimal(n) == [d];
    } else {
      DecimalValue(n / 10);
      assert Decimal(n)[..|Decimal(n)| - 1] == Decimal(n / 10);
    }
  }

  function Before(p: string): string {
    p[..|p| - |Ext(p)|] + " ("
  }

  function After(p: string): string {
    ")" + Ext(p)
  }

  /** "stem (i).ext". */
  function Candidate(p: string, i: nat): string {
    Before(p) + Decimal(i) + After(p)
  }

  lemma {:induction false} ExtFrom(stem: string, e: string)
    requires '.' !in e
    ensures Ext(stem + "." + e) == "." + e
  {
    var p := stem + "." + e;
    if e == "" {
      assert p == stem + ".";
    } else {
      var k := |e| - 1;
      assert p[..|p| - 1] == stem + "." + e[..k];
      assert e[k] in e;
      ExtFrom(stem, e[..k]);
    }
  }

  /** The counter goes between the stem and the last dot, or to the end of a name without one. */
  lemma CandidateIs(stem: string, e: string, i: nat)
    requires '.' !in e
    ensures Candidate(stem + "." + e, i) == stem + " (" + Decimal(i) + ")." + e
    ensures Candidate(e, i) == e + " (" + Decimal(i) + ")"
  {
    ExtFrom(stem, e);
    var p := stem + "." + e;
    assert p[..|p| - |"." + e|] == stem;
    NoExt(e);
    assert e[..|e| - 0] == e && e + " (" + Decimal(i) + (")" + "") == e + " (" + Decimal(i) + ")";
    assert stem + " (" + Decimal(i) + (")" + ("." + e)) == stem + " (" + Decimal(i) + ")." + e;
  }

  lemma {:induction false} NoExt(e: string)
    requires '.' !in e
    ensures Ext(e) == ""
  {
    if e != "" {
      assert e[|e| - 1] in e;
      NoExt(e[..|e| - 1]);
    }
  }

  lemma SameMiddle(a: string, x: string, y: string, b: string)
    requires a + x + b == a + y + b
    ensures x == y
  {
    assert |x| == |y|;
    assert (a + x + b)[|a|..|a| + |x|] == x;
    assert (a + y + b)[|a|..|a| + |y|] == y;
  }

  lemma CandidatesDistinct(p: string, i: nat, j: nat)
    requires Candidate(p, i) == Candidate(p, j)
    ensures i == j
  {
    SameMiddle(Before(p), Decimal(i), Decimal(j), After(p));
    DecimalValue(i);
    DecimalValue(j);
  }

  lemma {:induction false} ImageSize<T>(f: nat -> T, k: nat)
    requires forall i: nat, j: nat :: f(i) == f(j) ==> i == j
    ensures |set i: nat | 1 <= i <= k :: f(i)| == k
  {
    var image := set i: nat | 1 <= i <= k :: f(i);
    if k == 0 {
      assert image == {};
    } else {
      ImageSize(f, k - 1);
      var smaller := set i: nat | 1 <= i <= k - 1 :: f(i);
      assert f(k) !in smaller;
      assert image == smaller + {f(k)};
    }
  }

  /** A finite directory cannot hold more candidates than it has files. */
  lemma CandidatesBounded(files: Files, p: string, k: nat)
    requires forall i | 1 <= i <= k :: Candidate(p, i) in files
    ensures k <= |files|
  {
    var f := (i: nat) => Candidate(p, i);
    forall i: nat, j: nat | f(i) == f(j) ensures i == j { CandidatesDistinct(p, i, j); }
    ImageSize(f, k);
    SubsetSize(set i: nat | 1 <= i <= k :: f(i), files.Keys);
  }

  lemma {:induction false} SubsetSize<T>(a: set<T>, b: set<T>)
    requires a <= b
    ensures |a| <= |b|
  {
    if x :| x in a {
      SubsetSize(a - {x}, b - {x});
    }
  }

  /** The first free candidate from index i on. */
  function FirstFree(files: Files, p: string, i: nat): (q: string)
    requires 1 <= i && forall j | 1 <= j < i :: Candidate(p, j) in files
    ensures q !in files
    ensures exists k :: i <= k && q == Candidate(p, k) && forall j | 1 <= j < k :: Candidate(p, j) in files
    decreases |files| + 1 - i
  {
    CandidatesBounded(files, p, i - 1);
    if Candidate(p, i) !in files then Candidate(p, i)
    else
      CandidatesBounded(files, p, i);
      FirstFree(files, p, i + 1)
  }

  /** The name under which an arriving file is stored. */
  function FinalName(files: Files, p: string): (q: string)
    ensures q !in files
  {
    if p !in files then p else FirstFree(files, p, 1)
  }

  /** uniquePath's loop: it ends, on a name that no file has. */
  method UniquePath(files: Files, p: string) returns (q: string)
    ensures q == FinalName(files, p) && q !in files
  {
    if p !in files {
      return p;
    }
    var i := 1;
    while Candidate(p, i) in files
      invariant 1 <= i && forall j | 1 <= j < i :: Candidate(p, j) in files
      invariant FirstFree(files, p, i) == FirstFree(files, p, 1)
      decreases |files| + 1 - i
    {
      CandidatesBounded(files, p, i);
      i := i + 1;
    }
    q := Candidate(p, i);
  }

  /** The first free name: that of the file itself, or the one with the smallest free counter from one up. */
  lemma FinalNameIs(files: Files, p: string, k: nat)
    ensures p !in files ==> FinalName(files, p) == p
    ensures p in files && k >= 1 && Candidate(p, k) !in files && (forall j | 1 <= j < k :: Candidate(p, j) in files) ==>
              FinalName(files, p) == Candidate(p, k)
  {
    if p in files && k >= 1 && Candidate(p, k) !in files && (forall j | 1 <= j < k :: Candidate(p, j) in files) {
      var i :| 1 <= i && FirstFree(files, p, 1) == Candidate(p, i) && forall j | 1 <= j < i :: Candidate(p, j) in files;
      assert FirstFree(files, p, 1) !in files;
      assert i == k;
    }
  }

  /** What follows a ")" decides whether a name ends in ".part". */
  lemma PartEnd(a: string, e: string)
    requires !IsPart(e)
    ensures !IsPart(a + ")" + e)
  {
    var q := a + ")" + e;
    if |e| < |PART| <= |q| {
      assert q[|q| - |PART|..][|PART| - |e| - 1] == ')';
    } else if |PART| <= |e| {
      assert q[|q| - |PART|..] == e[|e| - |PART|..];
    }
  }

  lemma ExtNotPart(p: string)
    requires !IsPart(p)
    ensures !IsPart(Ext(p))
  {
    var e := Ext(p);
    if |PART| <= |e| { assert p[|p| - |PART|..] == e[|e| - |PART|..]; }
  }

  /** A file that does not end in ".part" is never stored under a name that does. */
  lemma FinalNameNotPart(files: Files, p: string)
    requires !IsPart(p)
    ensures !IsPart(FinalName(files, p))
  {
    if p in files {
      var k :| 1 <= k && FirstFree(files, p, 1) == Candidate(p, k);
      ExtNotPart(p);
      PartEnd(Before(p) + Decimal(k), Ext(p));
      assert Candidate(p, k) == (Before(p) + Decimal(k)) + ")" + Ext(p);
    }
  }
}
