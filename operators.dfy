/** The eleven PBrain operator characters and the filter that keeps only them. */
module Operators {

  /** The operator set of the interpreter: Brainf_ck's eight plus the PBrain trio `(` `)` `:`. */
  predicate IsOperator(c: char) {
    c == '+' || c == '-' || c == '>' || c == '<' || c == '.' || c == ','
    || c == '[' || c == ']' || c == '(' || c == ')' || c == ':'
  }

  /** True when no character of `s` is an operator. */
  predicate NoOperators(s: string) {
    forall k :: 0 <= k < |s| ==> !IsOperator(s[k])
  }

  /** Keeps the operator characters of `source`, in order (the LINQ `where` filter). */
  function FindExecutableCode(source: string): (r: string)
    ensures |r| <= |source|
    ensures forall k :: 0 <= k < |r| ==> IsOperator(r[k])
  {
    if source == [] then []
    else if IsOperator(source[0]) then [source[0]] + FindExecutableCode(source[1..])
    else FindExecutableCode(source[1..])
  }

  /** Filtering distributes over concatenation: chunkwise filtering equals filtering the whole. */
  lemma {:induction false} FilterAppend(a: string, b: string)
    ensures FindExecutableCode(a + b) == FindExecutableCode(a) + FindExecutableCode(b)
  {
    if a == [] {
      assert a + b == b;
    } else {
      assert (a + b)[0] == a[0];
      assert (a + b)[1..] == a[1..] + b;
      FilterAppend(a[1..], b);
    }
  }

  /** A single character survives the filter exactly when it is an operator. */
  lemma FilterSingle(c: char)
    ensures FindExecutableCode([c]) == if IsOperator(c) then [c] else []
  {
    assert [c][1..] == [];
  }

  /** The filter yields nothing exactly when the source holds no operator. */
  lemma {:induction false} FilterEmptyIff(s: string)
    ensures FindExecutableCode(s) == [] <==> NoOperators(s)
  {
    if s != [] {
      FilterEmptyIff(s[1..]);
      assert forall k :: 1 <= k < |s| ==> s[k] == s[1..][k - 1];
    }
  }

  /** A string of operators passes through the filter unchanged; hence filtering is idempotent. */
  lemma {:induction false} FilterKeepsOperators(s: string)
    requires forall k :: 0 <= k < |s| ==> IsOperator(s[k])
    ensures FindExecutableCode(s) == s
  {
    if s != [] {
      FilterKeepsOperators(s[1..]);
    }
  }

  lemma FilterIdempotent(s: string)
    ensures FindExecutableCode(FindExecutableCode(s)) == FindExecutableCode(s)
  {
    FilterKeepsOperators(FindExecutableCode(s));
  }

  /** Every operator occurrence of the source is kept: counts of each operator are preserved,
      and non-operators disappear entirely. */
  function Count(s: string, c: char): nat {
    if s == [] then 0 else (if s[0] == c then 1 else 0) + Count(s[1..], c)
  }

  lemma {:induction false} FilterCounts(s: string, c: char)
    ensures Count(FindExecutableCode(s), c) == if IsOperator(c) then Count(s, c) else 0
  {
    if s != [] {
      FilterCounts(s[1..], c);
      if IsOperator(s[0]) {
        assert ([s[0]] + FindExecutableCode(s[1..]))[1..] == FindExecutableCode(s[1..]);
      }
    }
  }
}
