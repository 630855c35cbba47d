/** Prefix tests on strings, with the meaning of Go's strings.HasPrefix and strings.TrimPrefix. */
module Strings {

  /** True iff s starts with prefix. */
  predicate HasPrefix(s: string, prefix: string) {
    |prefix| <= |s| && s[..|prefix|] == prefix
  }

  /** s with a leading prefix removed; s itself when it does not start with prefix. */
  function TrimPrefix(s: string, prefix: string): (r: string)
    ensures HasPrefix(s, prefix) ==> prefix + r == s
    ensures !HasPrefix(s, prefix) ==> r == s
  {
    if HasPrefix(s, prefix) then s[|prefix|..] else s
  }

  /** A common prefix and a common suffix can be cancelled from an equation. */
  lemma ConcatCancel(prefix: string, a: string, b: string, suffix: string)
    requires prefix + a + suffix == prefix + b + suffix
    ensures a == b
  {
    var whole := prefix + a + suffix;
    assert |a| == |b|;
    assert a == whole[|prefix|..|prefix| + |a|];
    assert b == (prefix + b + suffix)[|prefix|..|prefix| + |b|];
  }
}
