/**
 * NUL-terminated character strings and the recursive comparison
 * `strings_equal` of settings.h.  A C string is modelled as a character
 * sequence that holds at least one NUL; the characters after the first NUL
 * are never looked at.
 */
module CString {
  const NUL: char := '\0'

  /** A readable C string: the terminator occurs somewhere. */
  predicate IsCString(s: string) {
    NUL in s
  }

  /** A string literal as the compiler stores it: its characters, then NUL. */
  function Literal(x: string): (s: string)
    ensures IsCString(s) && |s| == |x| + 1 && s[..|x|] == x && s[|x|] == NUL
  {
    x + [NUL]
  }

  /** What a C routine sees of `s`: everything up to and including the first NUL. */
  function Terminated(s: string): (t: string)
    requires IsCString(s)
    ensures 0 < |t| <= |s| && t == s[..|t|]
    ensures t[|t| - 1] == NUL && NUL !in t[..|t| - 1]
    decreases |s|
  {
    if s[0] == NUL then [NUL] else [s[0]] + Terminated(s[1..])
  }

  /**
   * strings_equal: the first characters agree and either they are the
   * terminator or the rest of both strings compare equal.  The answer is
   * true exactly when both strings agree character for character up to and
   * including the terminator.
   */
  function StringsEqual(a: string, b: string): (r: bool)
    requires IsCString(a) && IsCString(b)
    ensures r <==> Terminated(a) == Terminated(b)
    decreases |a|
  {
    if a[0] != b[0] then
      assert Terminated(a)[0] != Terminated(b)[0];
      false
    else if a[0] == NUL then
      true
    else
      assert Terminated(a) == [a[0]] + Terminated(a[1..]) && Terminated(b) == [a[0]] + Terminated(b[1..]);
      assert Terminated(a) == Terminated(b) ==> Terminated(a)[1..] == Terminated(b)[1..];
      StringsEqual(a[1..], b[1..])
  }

  /** A literal without an embedded NUL is seen whole. */
  lemma {:induction false} TerminatedLiteral(x: string)
    requires NUL !in x
    ensures Terminated(Literal(x)) == Literal(x)
    decreases |x|
  {
    if x != [] {
      assert Literal(x)[1..] == Literal(x[1..]);
      TerminatedLiteral(x[1..]);
    }
  }

  /** Comparing two literals with strings_equal is plain string equality. */
  lemma LiteralsEqual(x: string, y: string)
    requires NUL !in x && NUL !in y
    ensures StringsEqual(Literal(x), Literal(y)) <==> x == y
  {
    TerminatedLiteral(x);
    TerminatedLiteral(y);
    if Literal(x) == Literal(y) {
      assert x == Literal(x)[..|x|];
    }
  }

  /** A string that reads as the literal `x` compares with the literal `y` as `x` does with `y`. */
  lemma ReadsAs(t: string, x: string, y: string)
    requires IsCString(t) && NUL !in x && NUL !in y
    requires Terminated(t) == Literal(x)
    ensures StringsEqual(t, Literal(y)) <==> x == y
  {
    TerminatedLiteral(y);
    if Literal(x) == Literal(y) {
      assert x == Literal(x)[..|x|];
    }
  }
}
