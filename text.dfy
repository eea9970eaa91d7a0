/**
 * Java's String.trim: the indices of the first and one past the last
 * character above U+0020, and the slice between them.
 */
module Text {

  /** trim removes every leading and trailing character whose code is at most U+0020. */
  predicate IsTrimmable(c: char)
  {
    c <= ' '
  }

  /** The number of leading characters trim removes. */
  function TrimStart(s: string): (st: nat)
    ensures st <= |s|
    ensures forall i :: 0 <= i < st ==> IsTrimmable(s[i])
    ensures st < |s| ==> !IsTrimmable(s[st])
  {
    if |s| == 0 || !IsTrimmable(s[0]) then 0 else 1 + TrimStart(s[1..])
  }

  /** The end of what trim keeps, scanning back from the end but never below st. */
  function TrimEnd(s: string, st: nat): (len: nat)
    requires st <= |s|
    ensures st <= len <= |s|
    ensures forall i :: len <= i < |s| ==> IsTrimmable(s[i])
    ensures st < len ==> !IsTrimmable(s[len - 1])
    decreases |s|
  {
    if |s| == st || !IsTrimmable(s[|s| - 1]) then |s| else TrimEnd(s[..|s| - 1], st)
  }

  /** r is the part of s starting at a, and everything of s around it is trimmable. */
  predicate KeptAt(s: string, r: string, a: nat)
  {
    a + |r| <= |s| && r == s[a..a + |r|]
    && (forall i :: 0 <= i < a ==> IsTrimmable(s[i]))
    && (forall i :: a + |r| <= i < |s| ==> IsTrimmable(s[i]))
  }

  function Trim(s: string): (r: string)
    ensures |r| <= |s|
    ensures r != [] ==> !IsTrimmable(r[0]) && !IsTrimmable(r[|r| - 1])
    ensures r == [] <==> forall i :: 0 <= i < |s| ==> IsTrimmable(s[i])
    ensures exists a :: KeptAt(s, r, a)
  {
    var st := TrimStart(s);
    var r := s[st..TrimEnd(s, st)];
    assert KeptAt(s, r, st);
    r
  }

  /** A string with no trimmable character at either end is its own trim. */
  lemma TrimOfTrimmed(s: string)
    requires s != [] ==> !IsTrimmable(s[0]) && !IsTrimmable(s[|s| - 1])
    ensures Trim(s) == s
  {
  }

  lemma TrimIdempotent(s: string)
    ensures Trim(Trim(s)) == Trim(s)
  {
    TrimOfTrimmed(Trim(s));
  }
}
