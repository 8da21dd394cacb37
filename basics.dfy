/** Values shared by both screenshot tools: optional results, output paths,
  * ASCII case mapping, substring search, decimal rendering of integers and
  * the order-preserving collection of present results. */
module Basics {

  datatype Option<+T> = None | Some(value: T)

  /** A positive pixel size or scale. */
  type Dim = x: int | x > 0 witness 1

  /** A file written into an output directory. How the directory and the
    * file name are joined (the separator) is left to the platform. */
  datatype Path = Path(dir: string, file: string)

  // ---------------------------------------------------------------------
  // ASCII case mapping (str.lower / str.upper on the ASCII names used here)

  function LowerChar(c: char): char {
    if 'A' <= c <= 'Z' then (c as int + 32) as char else c
  }

  function UpperChar(c: char): char {
    if 'a' <= c <= 'z' then (c as int - 32) as char else c
  }

  function Lower(s: string): (r: string)
    ensures |r| == |s|
    ensures forall i :: 0 <= i < |s| ==> r[i] == LowerChar(s[i])
  {
    if s == [] then [] else [LowerChar(s[0])] + Lower(s[1..])
  }

  function Upper(s: string): (r: string)
    ensures |r| == |s|
    ensures forall i :: 0 <= i < |s| ==> r[i] == UpperChar(s[i])
  {
    if s == [] then [] else [UpperChar(s[0])] + Upper(s[1..])
  }

  /** Lower-casing twice is lower-casing once. */
  lemma LowerIdempotent(s: string)
    ensures Lower(Lower(s)) == Lower(s)
  {
    assert forall i :: 0 <= i < |s| ==> LowerChar(LowerChar(s[i])) == LowerChar(s[i]);
  }

  // ---------------------------------------------------------------------
  // Substring search (Python's `t in s` on strings)

  predicate OccursAt(s: string, t: string, i: int) {
    0 <= i && i + |t| <= |s| && s[i..i + |t|] == t
  }

  lemma ShiftOccurrence(s: string, t: string, i: int)
    requires |s| >= 1 && i >= 1
    ensures OccursAt(s, t, i) <==> OccursAt(s[1..], t, i - 1)
  {
    if i + |t| <= |s| {
      assert s[1..][i - 1..i - 1 + |t|] == s[i..i + |t|];
    }
  }

  /** `t in s`: some position of s starts an occurrence of t. */
  function Contains(s: string, t: string): (r: bool)
    ensures r <==> exists i :: OccursAt(s, t, i)
    decreases |s|
  {
    if |t| > |s| then
      false
    else if s[..|t|] == t then
      assert OccursAt(s, t, 0);
      true
    else
      var r := Contains(s[1..], t);
      assert r ==> exists i :: OccursAt(s, t, i) by {
        if r {
          var j :| OccursAt(s[1..], t, j);
          ShiftOccurrence(s, t, j + 1);
        }
      }
      assert (exists i :: OccursAt(s, t, i)) ==> r by {
        if exists i :: OccursAt(s, t, i) {
          var j :| OccursAt(s, t, j);
          assert j != 0;
          ShiftOccurrence(s, t, j);
        }
      }
      r
  }

  // ---------------------------------------------------------------------
  // Decimal rendering of a natural number (str(n) / f"{n}")

  function Digit(d: nat): char
    requires d < 10
  {
    ('0' as int + d) as char
  }

  predicate IsDigit(c: char) {
    '0' <= c <= '9'
  }

  function Decimal(n: nat): (r: string)
    ensures |r| >= 1
    decreases n
  {
    if n < 10 then [Digit(n)] else Decimal(n / 10) + [Digit(n % 10)]
  }

  /** The number a string of decimal digits denotes. */
  function DigitsValue(s: string): int
    decreases |s|
  {
    if s == [] then 0
    else DigitsValue(s[..|s| - 1]) * 10 + (s[|s| - 1] as int - '0' as int)
  }

  /** Decimal produces digits only, without a leading zero, and reading
    * them back gives the number. */
  lemma {:induction false} DecimalRoundTrip(n: nat)
    ensures forall i :: 0 <= i < |Decimal(n)| ==> IsDigit(Decimal(n)[i])
    ensures Decimal(n)[0] == '0' ==> n == 0
    ensures DigitsValue(Decimal(n)) == n
    decreases n
  {
    if n >= 10 {
      DecimalRoundTrip(n / 10);
      var s := Decimal(n / 10) + [Digit(n % 10)];
      assert s[..|s| - 1] == Decimal(n / 10);
    }
  }

  // ---------------------------------------------------------------------
  // Collecting results: `[s for s in results if s]`, in the given order

  function Present<T>(s: seq<Option<T>>): (r: seq<T>)
    ensures |r| <= |s|
    decreases |s|
  {
    if s == [] then []
    else
      Present(s[..|s| - 1]) + (match s[|s| - 1] case Some(v) => [v] case None => [])
  }

  /** Collecting distributes over concatenation: whatever comes earlier in
    * the input comes earlier in the output. */
  lemma {:induction false} PresentAppend<T>(a: seq<Option<T>>, b: seq<Option<T>>)
    ensures Present(a + b) == Present(a) + Present(b)
    decreases |b|
  {
    if b != [] {
      var b' := b[..|b| - 1];
      assert (a + b)[..|a + b| - 1] == a + b';
      PresentAppend(a, b');
    } else {
      assert a + b == a;
    }
  }

  /** Exactly the present values are kept. */
  lemma {:induction false} PresentMembers<T>(s: seq<Option<T>>, x: T)
    ensures x in Present(s) <==> Some(x) in s
    decreases |s|
  {
    if s != [] {
      var s' := s[..|s| - 1];
      assert s == s' + [s[|s| - 1]];
      PresentMembers(s', x);
    }
  }

  /** When every entry is present, nothing is dropped and the order is kept. */
  lemma {:induction false} PresentAll<T>(s: seq<Option<T>>)
    requires forall i :: 0 <= i < |s| ==> s[i].Some?
    ensures Present(s) == seq(|s|, i requires 0 <= i < |s| => s[i].value)
    decreases |s|
  {
    if s != [] {
      var s' := s[..|s| - 1];
      PresentAll(s');
    }
  }

  /** Each present value is kept as often as it occurs. */
  lemma {:induction false} PresentCounts<T>(s: seq<Option<T>>, x: T)
    ensures multiset(Present(s))[x] == multiset(s)[Some(x)]
    decreases |s|
  {
    if s != [] {
      var s' := s[..|s| - 1];
      var last := s[|s| - 1];
      var tail: seq<T> := match last case Some(v) => [v] case None => [];
      assert s == s' + [last];
      assert multiset(s) == multiset(s') + multiset([last]);
      assert Present(s) == Present(s') + tail;
      assert multiset(Present(s)) == multiset(Present(s')) + multiset(tail);
      PresentCounts(s', x);
    }
  }
}
