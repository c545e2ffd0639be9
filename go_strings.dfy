/**
 * The two functions of Go's `strings` package that the proxy uses:
 * `LastIndex` with a one-character separator and `TrimPrefix`.
 * Positions count characters; the separator is ASCII, so splitting at it
 * gives the same pieces as Go's byte positions do.
 */
module GoStrings {

  /** `strings.LastIndex(s, string(c))`: the last position of `c`, or -1. */
  function LastIndex(s: string, c: char): (r: int)
    ensures -1 <= r < |s|
    ensures r == -1 <==> c !in s
    ensures 0 <= r ==> s[r] == c && c !in s[r + 1..]
    decreases |s|
  {
    if s == [] then -1
    else if s[|s| - 1] == c then |s| - 1
    else
      var init := s[..|s| - 1];
      assert s == init + [s[|s| - 1]];
      var r := LastIndex(init, c);
      assert 0 <= r ==> s[r + 1..] == init[r + 1..] + [s[|s| - 1]];
      r
  }

  /** When `c` occurs once in the joint and never after it, the joint is the last occurrence. */
  lemma {:induction false} LastIndexOfJoin(a: string, c: char, b: string)
    requires c !in b
    ensures LastIndex(a + [c] + b, c) == |a|
  {
    var s := a + [c] + b;
    assert s[|a|] == c;
    assert forall j | |a| < j < |s| :: s[j] == b[j - |a| - 1];
  }

  predicate HasPrefix(s: string, prefix: string)
  {
    |prefix| <= |s| && s[..|prefix|] == prefix
  }

  /** `strings.TrimPrefix`: drops one leading `prefix` when present, otherwise returns `s`. */
  function TrimPrefix(s: string, prefix: string): (r: string)
    ensures HasPrefix(s, prefix) ==> prefix + r == s
    ensures !HasPrefix(s, prefix) ==> r == s
    ensures |r| <= |s| && r == s[|s| - |r|..]
  {
    if HasPrefix(s, prefix) then
      assert s == s[..|prefix|] + s[|prefix|..];
      s[|prefix|..]
    else s
  }
}
