/** Operator tokens (`Brainf_ckBinaryItem`), the token-level syntax check and the extraction of
    loop and function bodies (Brainf_ckInterpreter.cs:554-594, 646-661). */
module Tokens {
  import opened Common
  import opened Brackets

  /** An operator together with its offset in the executable. */
  datatype Token = Token(offset: nat, op: char)

  /** The operator characters of a token list. */
  function OpsOf(ts: seq<Token>): (r: string)
    ensures |r| == |ts|
    ensures forall k :: 0 <= k < |ts| ==> r[k] == ts[k].op
  {
    seq(|ts|, k requires 0 <= k < |ts| => ts[k].op)
  }

  lemma OpsOfSlice(ts: seq<Token>, i: nat, j: nat)
    requires i <= j <= |ts|
    ensures OpsOf(ts[i..j]) == OpsOf(ts)[i..j]
  {
  }

  /** Tokens numbered consecutively from `start`: offset of token `k` is `start + k`. */
  ghost predicate Aligned(ts: seq<Token>, start: int) {
    forall k :: 0 <= k < |ts| ==> ts[k].offset == start + k
  }

  /** The operators of `code` numbered from `start`, as the binary builders do (lines 104-109,
      220, 607-609). */
  function Tokenize(code: string, start: nat): (r: seq<Token>)
    ensures OpsOf(r) == code && Aligned(r, start)
  {
    seq(|code|, k requires 0 <= k < |code| => Token(start + k, code[k]))
  }

  /** A slice of an aligned token list is aligned from its own first position. */
  lemma AlignedSlice(ts: seq<Token>, start: int, i: nat, j: nat)
    requires Aligned(ts, start) && i <= j <= |ts|
    ensures Aligned(ts[i..j], start + i)
  {
  }

  // ---------------------------------------------------------------------------------------------
  // Token-level syntax check (lines 646-661)

  /** The token-level `CheckSourceSyntax`: true exactly when the loop brackets are balanced. */
  method CheckTokenSyntax(operators: seq<Token>) returns (ok: bool)
    ensures ok <==> Balanced(OpsOf(operators))
  {
    ghost var code := OpsOf(operators);
    var height: nat := 0;
    var i := 0;
    assert code[..0] == [];
    while i < |operators|
      invariant 0 <= i <= |operators|
      invariant height == Height(code[..i]) && NonNegative(code[..i])
    {
      HeightStep(code, i);
      var c := operators[i].op;
      if c == '[' {
        height := height + 1;
      } else if c == ']' {
        if height == 0 {
          UnderflowPersists(code, i, |code|);
          assert code[..|code|] == code;
          return false;
        }
        height := height - 1;
      }
      NonNegativeStep(code, i);
      i := i + 1;
    }
    assert code[..i] == code;
    ok := height == 0;
  }

  lemma NonNegativeStep(code: string, i: nat)
    requires i < |code| && NonNegative(code[..i]) && Height(code[..i + 1]) >= 0
    ensures NonNegative(code[..i + 1])
  {
    var t := code[..i + 1];
    forall k | 0 <= k <= |t|
      ensures Height(t[..k]) >= 0
    {
      if k <= i {
        assert t[..k] == code[..i][..k];
      } else {
        assert t[..k] == t;
      }
    }
  }

  // ---------------------------------------------------------------------------------------------
  // Loop bodies (lines 554-573)

  /** The loop of lines 563-571 on the operators after the `[`: the relative position of the
      `]` that closes it, if any. */
  function LoopEnd(code: string, i: nat, height: nat): (r: Option<nat>)
    decreases |code| - i
    ensures r.Some? ==> i <= r.value < |code| && code[r.value] == ']'
  {
    if i >= |code| then None
    else if code[i] == '[' then LoopEnd(code, i + 1, height + 1)
    else if code[i] == ']' then (if height == 0 then Some(i) else LoopEnd(code, i + 1, height - 1))
    else LoopEnd(code, i + 1, height)
  }

  lemma {:induction false} LoopEndCorrect(code: string, i: nat, height: nat)
    requires i <= |code| && height == Height(code[..i]) && NonNegative(code[..i])
    ensures LoopEnd(code, i, height).Some? ==> UnmatchedCloseAt(code, LoopEnd(code, i, height).value)
    ensures LoopEnd(code, i, height).None? ==> NonNegative(code)
    decreases |code| - i
  {
    if i == |code| {
      assert code[..i] == code;
    } else {
      HeightStep(code, i);
      if !(code[i] == ']' && height == 0) {
        NonNegativeStep(code, i);
        var h' := if code[i] == '[' then height + 1 else if code[i] == ']' then height - 1 else height;
        LoopEndCorrect(code, i + 1, h');
      }
    }
  }

  /** What `ExtractInnerLoop(source, index)` returns: the tokens after the `[` at `index` up to and
      including its matching `]`; `None` where the source throws (no matching `]`). */
  function InnerLoop(source: seq<Token>, index: nat): (r: Option<seq<Token>>)
    requires index < |source|
    ensures r.Some? ==> 1 <= |r.value| && index + |r.value| < |source|
                        && r.value == source[index + 1..index + 1 + |r.value|]
                        && r.value[|r.value| - 1].op == ']'
  {
    var code := OpsOf(source[index + 1..]);
    match LoopEnd(code, 0, 0)
    case None => None
    case Some(e) => Some(source[index + 1..index + e + 2])
  }

  /** The body `InnerLoop` returns ends at the first `]` that its preceding tokens leave unmatched,
      and there is no body exactly when no `]` after `index` is unmatched. */
  lemma InnerLoopSpec(source: seq<Token>, index: nat)
    requires index < |source|
    ensures InnerLoop(source, index).Some? ==>
              var body := InnerLoop(source, index).value;
              UnmatchedCloseAt(OpsOf(source[index + 1..]), |body| - 1)
    ensures InnerLoop(source, index).None? ==> NonNegative(OpsOf(source[index + 1..]))
  {
    assert OpsOf(source[index + 1..])[..0] == [];
    LoopEndCorrect(OpsOf(source[index + 1..]), 0, 0);
  }

  /** `ExtractInnerLoop`, lines 554-573. */
  method ExtractInnerLoop(source: seq<Token>, index: nat) returns (r: Option<seq<Token>>)
    requires index < |source| && source[index].op == '['
    ensures r == InnerLoop(source, index)
  {
    ghost var code := OpsOf(source[index + 1..]);
    var height: nat := 0;
    var i := index + 1;
    while i < |source|
      invariant index + 1 <= i <= |source|
      invariant LoopEnd(code, i - index - 1, height) == LoopEnd(code, 0, 0)
    {
      assert code[i - index - 1] == source[i].op;
      if source[i].op == '[' {
        height := height + 1;
      } else if source[i].op == ']' {
        if height == 0 { return Some(source[index + 1..i + 1]); }
        height := height - 1;
      }
      i := i + 1;
    }
    return None;
  }

  // ---------------------------------------------------------------------------------------------
  // Function bodies (lines 581-594)

  /** The first `)` at or after `i`. */
  function NextClose(source: seq<Token>, i: nat): (r: Option<nat>)
    decreases |source| - i
    ensures r.Some? ==> i <= r.value < |source| && source[r.value].op == ')'
    ensures forall k :: i <= k < (if r.Some? then r.value else |source|) ==> source[k].op != ')'
  {
    if i >= |source| then None
    else if source[i].op == ')' then Some(i)
    else NextClose(source, i + 1)
  }

  /** What `ExtractFunction(source, index)` returns: the tokens strictly between the `(` at `index`
      and the next `)`; `None` where the source throws (the `(` is last, or no `)` follows). */
  function FunctionBody(source: seq<Token>, index: nat): (r: Option<seq<Token>>)
    requires index < |source|
    ensures r.Some? ==> index + 1 + |r.value| < |source| && source[index + 1 + |r.value|].op == ')'
                        && r.value == source[index + 1..index + 1 + |r.value|]
  {
    match NextClose(source, index + 1)
    case None => None
    case Some(q) => Some(source[index + 1..q])
  }

  /** The extracted body is a contiguous run without `)`, followed in the source by a `)`; it is
      missing exactly when no `)` follows the `(`. */
  lemma FunctionBodySpec(source: seq<Token>, index: nat)
    requires index < |source|
    ensures FunctionBody(source, index).Some? ==>
              var body := FunctionBody(source, index).value;
              && index + 1 + |body| < |source|
              && body == source[index + 1..index + 1 + |body|]
              && source[index + 1 + |body|].op == ')'
              && forall k :: 0 <= k < |body| ==> body[k].op != ')'
    ensures FunctionBody(source, index).None? <==> forall k :: index < k < |source| ==> source[k].op != ')'
  {
  }

  /** `ExtractFunction`, lines 581-594. */
  method ExtractFunction(source: seq<Token>, index: nat) returns (r: Option<seq<Token>>)
    requires index < |source| && source[index].op == '('
    ensures r == FunctionBody(source, index)
  {
    if index > |source| - 2 { return None; }
    var i := index + 1;
    while i < |source|
      invariant index + 1 <= i <= |source|
      invariant NextClose(source, i) == NextClose(source, index + 1)
    {
      if source[i].op == ')' { return Some(source[index + 1..i]); }
      i := i + 1;
    }
    return None;
  }
}
