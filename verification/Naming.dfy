/** Column names for JSON paths (src/body.py:206-219, src/body.py:250-260): bounded names and the numbered candidates
  that resolve collisions. */
module Naming {
  import opened Ranges

  type Path = seq<string>

  /** The library functions a name depends on: Unicode folding, the short digest of a path, and the full hash. */
  datatype Library = Library(fold: string -> string, digest: Path -> string, hash: Path -> string)

  const MAX_NAME := 64

  predicate NameChar(c: char) {
    ('A' <= c <= 'Z') || ('a' <= c <= 'z') || ('0' <= c <= '9') || c == '_'
  }

  ghost predicate NameText(s: string) {
    forall i :: 0 <= i < |s| ==> NameChar(s[i])
  }

  function Joined(path: Path): string {
    if |path| == 0 then "" else if |path| == 1 then path[0] else path[0] + "_" + Joined(path[1..])
  }

  function Replaced(s: string): string {
    seq(|s|, i requires 0 <= i < |s| => if NameChar(s[i]) then s[i] else '_')
  }

  function Stripped(s: string): string {
    if s != [] && Last(s) == '_' then Stripped(Front(s)) else s
  }

  function ColumnNameFor(lib: Library, path: Path): string {
    if path == [] then "body_value"
    else
      var name := Stripped(Replaced(lib.fold("body_" + Joined(path))));
      if |name| > MAX_NAME then name[..55] + "_" + lib.digest(path) else name
  }

  lemma {:induction false} StrippedOfUnderscores(s: string)
    ensures Stripped(s) <= s && (Stripped(s) == [] || Last(Stripped(s)) != '_')
    ensures forall i :: |Stripped(s)| <= i < |s| ==> s[i] == '_'
  {
    if s != [] && Last(s) == '_' {
      StrippedOfUnderscores(Front(s));
    }
  }

  /** A column name is short and plain, whatever the folding does, when the digest has 8 plain characters. */
  lemma ColumnNameIsBounded(lib: Library, path: Path)
    requires |lib.digest(path)| == 8 && NameText(lib.digest(path))
    ensures |ColumnNameFor(lib, path)| <= MAX_NAME && NameText(ColumnNameFor(lib, path))
  {
    StrippedOfUnderscores(Replaced(lib.fold("body_" + Joined(path))));
  }

  /** A name is read off the folded path, character by character: what is not plain becomes an underscore, the
    underscores at the end are dropped, and a name that is too long keeps 55 characters before the digest. */
  lemma NameFollowsThePath(lib: Library, path: Path) returns (cut: nat)
    requires path != []
    ensures cut <= |lib.fold("body_" + Joined(path))|
    ensures NameFrom(lib.fold("body_" + Joined(path)), cut, lib.digest(path), ColumnNameFor(lib, path))
  {
    var folded := lib.fold("body_" + Joined(path));
    StrippedOfUnderscores(Replaced(folded));
    cut := |Stripped(Replaced(folded))|;
    forall i | cut <= i < |folded| ensures !NameChar(folded[i]) || folded[i] == '_' {
      assert Replaced(folded)[i] == '_';
    }
  }

  /** The first `cut` characters of the folded path make the name; nothing plain but underscores follows them. */
  ghost predicate NameFrom(folded: string, cut: nat, digest: string, name: string)
    requires cut <= |folded|
  {
    && (forall i :: cut <= i < |folded| ==> !NameChar(folded[i]) || folded[i] == '_')
    && (cut > 0 ==> NameChar(folded[cut - 1]) && folded[cut - 1] != '_')
    && |name| == (if cut <= MAX_NAME then cut else 56 + |digest|)
    && (forall i :: 0 <= i < (if cut <= MAX_NAME then cut else 55) ==>
          name[i] == if NameChar(folded[i]) then folded[i] else '_')
    && (cut > MAX_NAME ==> name[55..] == "_" + digest)
  }

  /** A short plain path that does not end in an underscore is named after its keys. */
  lemma ShortPlainName(lib: Library, path: Path)
    requires path != [] && lib.fold("body_" + Joined(path)) == "body_" + Joined(path)
    requires NameText(Joined(path)) && 5 + |Joined(path)| <= MAX_NAME && Joined(path) != [] && Last(Joined(path)) != '_'
    ensures ColumnNameFor(lib, path) == "body_" + Joined(path) && ColumnNameFor(lib, []) == "body_value"
  {
    var plain := "body_" + Joined(path);
    assert NameText("body_");
    assert Replaced(plain) == plain;
    assert Last(plain) == Last(Joined(path));
  }

  // ---------------------------------------------------------------- numbered candidates

  function Digit(d: nat): char
    requires d < 10
  {
    '0' + d as char
  }

  function Decimal(n: nat): string {
    if n < 10 then [Digit(n)] else Decimal(n / 10) + [Digit(n % 10)]
  }

  lemma {:induction false} DecimalIsPlain(n: nat)
    ensures |Decimal(n)| >= 1 && forall i :: 0 <= i < |Decimal(n)| ==> '0' <= Decimal(n)[i] <= '9'
  {
    if n >= 10 {
      DecimalIsPlain(n / 10);
    }
  }

  lemma {:induction false} DecimalIsInjective(m: nat, n: nat)
    requires Decimal(m) == Decimal(n)
    ensures m == n
  {
    DecimalIsPlain(m / 10);
    DecimalIsPlain(n / 10);
    assert Last(Decimal(m)) == Last(Decimal(n));
    assert m % 10 == n % 10;
    if m >= 10 && n >= 10 {
      assert Front(Decimal(m)) == Decimal(m / 10) && Front(Decimal(n)) == Decimal(n / 10);
      DecimalIsInjective(m / 10, n / 10);
    }
  }

  function Pow10(d: nat): nat {
    if d == 0 then 1 else 10 * Pow10(d - 1)
  }

  lemma {:induction false} DecimalLength(n: nat, d: nat)
    requires d >= 1
    ensures |Decimal(n)| <= d <==> n < Pow10(d)
  {
    if d == 1 {
      DecimalIsPlain(n / 10);
      assert Pow10(1) == 10 * Pow10(0) == 10;
    } else {
      PowPositive(d - 1);
      if n >= 10 {
        DecimalLength(n / 10, d - 1);
      }
    }
  }

  lemma {:induction false} PowPositive(d: nat)
    ensures Pow10(d) >= 1
  {
    if d > 0 {
      PowPositive(d - 1);
    }
  }

  /** Python's `s[:end]`: a negative end counts from the back. */
  function PythonPrefix(s: string, end: int): string {
    var stop := if end >= 0 then end else |s| + end;
    if stop <= 0 then [] else if stop >= |s| then s else s[..stop]
  }

  function Suffix(n: nat): string {
    "_" + Decimal(n)
  }

  function Candidate(base: string, n: nat): string {
    PythonPrefix(base, MAX_NAME - |Suffix(n)|) + Suffix(n)
  }

  /** A text after the last underscore is determined by the whole. */
  lemma AfterLastUnderscore(a: string, x: string, b: string, y: string)
    requires a + ("_" + x) == b + ("_" + y) && '_' !in x && '_' !in y
    ensures x == y
  {
    var whole := a + ("_" + x);
    assert whole[|a|] == '_' && whole[|b|] == '_';
    assert |a| == |b|;
    assert x == whole[|a| + 1..] && y == whole[|b| + 1..];
  }

  /** Candidates for different numbers differ, even after truncation. */
  lemma CandidatesDiffer(base: string, m: nat, n: nat)
    requires Candidate(base, m) == Candidate(base, n)
    ensures m == n
  {
    DecimalIsPlain(m);
    DecimalIsPlain(n);
    AfterLastUnderscore(PythonPrefix(base, MAX_NAME - |Suffix(m)|), Decimal(m),
                        PythonPrefix(base, MAX_NAME - |Suffix(n)|), Decimal(n));
    DecimalIsInjective(m, n);
  }

  /** A candidate keeps the length limit exactly for numbers of at most 63 digits: past that the truncation counts from
    the back. */
  lemma CandidateLength(base: string, n: nat)
    ensures |Candidate(base, n)| <= MAX_NAME <==> n < Pow10(63)
  {
    DecimalLength(n, 63);
  }

  ghost function Tried(base: string, n: nat): set<string> {
    set m {:trigger Candidate(base, m)} | 2 <= m < n :: Candidate(base, m)
  }

  lemma {:induction false} TriedSize(base: string, n: nat)
    requires n >= 2
    ensures |Tried(base, n)| == n - 2
  {
    if n > 2 {
      TriedSize(base, n - 1);
      var last := Candidate(base, n - 1);
      assert Tried(base, n) == Tried(base, n - 1) + {last};
      if last in Tried(base, n - 1) {
        var m: nat :| 2 <= m < n - 1 && Candidate(base, m) == last;
        CandidatesDiffer(base, m, n - 1);
      }
    } else {
      assert Tried(base, n) == {};
    }
  }

  /** The base name if it is free, otherwise the first free candidate, found within |taken| + 1 tries. */
  ghost predicate FirstFree(base: string, taken: set<string>, name: string) {
    if base !in taken then name == base
    else
      && name !in taken
      && exists n: nat {:trigger Candidate(base, n)} ::
        2 <= n <= |taken| + 2 && name == Candidate(base, n) && Tried(base, n) <= taken
  }

  /** The search for a free name always ends (src/body.py:250-260). */
  method UniqueName(lib: Library, path: Path, taken: set<string>) returns (name: string)
    ensures name !in taken && FirstFree(ColumnNameFor(lib, path), taken, name)
  {
    var base := ColumnNameFor(lib, path);
    name := base;
    if base in taken {
      var n := 2;
      name := Candidate(base, 2);
      while name in taken
        invariant n >= 2 && name == Candidate(base, n) && Tried(base, n) <= taken && n <= |taken| + 2
        decreases |taken| + 2 - n
      {
        assert Tried(base, n + 1) == Tried(base, n) + {name};
        TriedSize(base, n + 1);
        SubsetSize(Tried(base, n + 1), taken);
        n := n + 1;
        name := Candidate(base, n);
      }
    }
  }

  /** As long as fewer than 10^63 names are taken, the name is at most 64 characters long. */
  lemma UniqueNameIsBounded(base: string, taken: set<string>, name: string)
    requires FirstFree(base, taken, name) && |base| <= MAX_NAME && |taken| + 2 < Pow10(63)
    ensures |name| <= MAX_NAME
  {
    if base in taken {
      var n: nat :| 2 <= n <= |taken| + 2 && name == Candidate(base, n);
      CandidateLength(base, n);
    }
  }
}
