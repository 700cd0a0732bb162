/** Loop-bracket nesting of an operator string, stated without reference to any scanning loop. */
module Brackets {

  /** How one character changes the loop nesting height. */
  function Delta(c: char): int {
    if c == '[' then 1 else if c == ']' then -1 else 0
  }

  /** Number of `[` minus number of `]` in `s`. */
  function Height(s: string): int {
    if s == [] then 0 else Height(s[..|s| - 1]) + Delta(s[|s| - 1])
  }

  lemma HeightStep(s: string, k: nat)
    requires k < |s|
    ensures Height(s[..k + 1]) == Height(s[..k]) + Delta(s[k])
  {
    assert s[..k + 1][..k] == s[..k];
  }

  /** No prefix of `s` closes more loops than it opened. */
  ghost predicate NonNegative(s: string) {
    forall k :: 0 <= k <= |s| ==> Height(s[..k]) >= 0
  }

  /** Correct nesting: the height never goes negative and ends at 0. */
  ghost predicate Balanced(s: string) {
    NonNegative(s) && Height(s) == 0
  }

  /** `e` is the first `]` that has no matching `[`. */
  ghost predicate UnmatchedCloseAt(s: string, e: int) {
    0 <= e < |s| && s[e] == ']' && NonNegative(s[..e]) && Height(s[..e]) == 0
  }

  /** The source never underflows but ends inside a loop, and `e` is the last `[` opened at height 0. */
  ghost predicate UnclosedOpenAt(s: string, e: int) {
    && NonNegative(s) && Height(s) > 0
    && 0 <= e < |s| && s[e] == '[' && Height(s[..e]) == 0
    && forall j :: e < j <= |s| ==> Height(s[..j]) > 0
  }

  lemma PrefixOfPrefix(s: string, e: nat, k: nat)
    requires k <= e <= |s|
    ensures s[..e][..k] == s[..k]
  {
  }

  /** Once a `]` underflows at `e`, no longer prefix is non-negative. */
  lemma UnderflowPersists(s: string, e: int, j: int)
    requires 0 <= e < |s| && s[e] == ']' && Height(s[..e]) == 0 && e < j <= |s|
    ensures !NonNegative(s[..j])
  {
    HeightStep(s, e);
    PrefixOfPrefix(s, j, e + 1);
  }

  /** At most one position is the first unmatched `]`. */
  lemma UnmatchedCloseUnique(s: string, e1: int, e2: int)
    requires UnmatchedCloseAt(s, e1) && UnmatchedCloseAt(s, e2)
    ensures e1 == e2
  {
    if e1 < e2 {
      UnderflowPersists(s, e1, e2);
    } else if e2 < e1 {
      UnderflowPersists(s, e2, e1);
    }
  }

  /** At most one position is the last `[` opened at height 0. */
  lemma UnclosedOpenUnique(s: string, e1: int, e2: int)
    requires UnclosedOpenAt(s, e1) && UnclosedOpenAt(s, e2)
    ensures e1 == e2
  {
  }

  /** The two kinds of error exclude each other. */
  lemma ErrorsExclusive(s: string, e1: int, e2: int)
    requires UnmatchedCloseAt(s, e1)
    ensures !UnclosedOpenAt(s, e2)
  {
    UnderflowPersists(s, e1, |s|);
    assert s[..|s|] == s;
  }
}
