/** The string-level syntax validator `CheckSourceSyntax(String)` (Brainf_ckInterpreter.cs:136-193).
    It runs three checks in order: the function-parenthesis pass, the function-body checks driven by
    two regular expressions, and the loop-bracket check of the whole text. */
module Syntax {
  import opened Common
  import opened Operators
  import opened Brackets

  // ---------------------------------------------------------------------------------------------
  // Function-parenthesis pass (lines 139-153)

  /** One character's effect on the "a function is open" flag; `None` is a balance error. */
  function ParenMove(open: bool, c: char): Option<bool> {
    if c == '(' then (if open then None else Some(true))
    else if c == ')' then (if open then Some(false) else None)
    else Some(open)
  }

  /** The open flag after reading all of `t`, or `None` once an error has occurred. */
  function ParenTrace(t: string): Option<bool> {
    if t == [] then Some(false)
    else match ParenTrace(t[..|t| - 1])
      case None => None
      case Some(open) => ParenMove(open, t[|t| - 1])
  }

  lemma TraceStep(s: string, i: nat)
    requires i < |s|
    ensures ParenTrace(s[..i + 1]) == match ParenTrace(s[..i])
                                       case None => None
                                       case Some(open) => ParenMove(open, s[i])
  {
    assert s[..i + 1][..i] == s[..i];
  }

  /** `e` breaks function balance: a `(` while one is open, or a `)` while none is,
      with no earlier error. */
  ghost predicate ParenErrorAt(s: string, e: int) {
    && 0 <= e < |s|
    && ParenTrace(s[..e]).Some?
    && var open := ParenTrace(s[..e]).value;
       (s[e] == '(' && open) || (s[e] == ')' && !open)
  }

  /** The scanning loop of lines 140-153, as a function of its loop state. */
  function ParenScan(s: string, i: nat, open: bool): Option<nat>
    decreases |s| - i
  {
    if i >= |s| then None
    else if s[i] == '(' then (if open then Some(i) else ParenScan(s, i + 1, true))
    else if s[i] == ')' then (if open then ParenScan(s, i + 1, false) else Some(i))
    else ParenScan(s, i + 1, open)
  }

  function FirstParenError(s: string): Option<nat> {
    ParenScan(s, 0, false)
  }

  lemma {:induction false} ParenScanCorrect(s: string, i: nat, open: bool)
    requires i <= |s| && ParenTrace(s[..i]) == Some(open)
    ensures ParenScan(s, i, open).None? ==> ParenTrace(s).Some?
    ensures ParenScan(s, i, open).Some? ==> ParenErrorAt(s, ParenScan(s, i, open).value)
    decreases |s| - i
  {
    if i == |s| {
      assert s[..i] == s;
    } else {
      TraceStep(s, i);
      if ParenMove(open, s[i]).Some? {
        ParenScanCorrect(s, i + 1, ParenMove(open, s[i]).value);
      }
    }
  }

  /** Once the trace has failed it stays failed. */
  lemma {:induction false} TraceFailurePersists(s: string, e: nat, j: nat)
    requires e <= j <= |s| && ParenTrace(s[..e]).None?
    ensures ParenTrace(s[..j]).None?
    decreases j - e
  {
    if j > e {
      TraceFailurePersists(s, e, j - 1);
      TraceStep(s, j - 1);
    }
  }

  /** An error at `e` leaves the trace of the whole source failed. */
  lemma ErrorBreaksTrace(s: string, e: int)
    requires ParenErrorAt(s, e)
    ensures ParenTrace(s).None?
  {
    TraceStep(s, e);
    TraceFailurePersists(s, e + 1, |s|);
    assert s[..|s|] == s;
  }

  /** The parenthesis pass reports exactly the first offending character, and nothing when the
      source is function-balanced. */
  lemma FirstParenErrorSpec(s: string, e: int)
    ensures FirstParenError(s).None? <==> ParenTrace(s).Some?
    ensures FirstParenError(s) == Some(e) <==> ParenErrorAt(s, e)
  {
    assert s[..0] == [];
    ParenScanCorrect(s, 0, false);
    if FirstParenError(s).None? {
      if ParenErrorAt(s, e) {
        ErrorBreaksTrace(s, e);
      }
    } else {
      var f := FirstParenError(s).value;
      ErrorBreaksTrace(s, f);
      if ParenErrorAt(s, e) && e != f {
        TraceStep(s, e);
        TraceStep(s, f);
        if e < f {
          TraceFailurePersists(s, e + 1, f);
        } else {
          TraceFailurePersists(s, f + 1, e);
        }
      }
    }
  }

  // ---------------------------------------------------------------------------------------------
  // Loop-bracket check, the local function CheckSyntaxCore (lines 156-177)

  /** The loop of lines 160-173 as a function of its state `(i, height, error)`. */
  function LoopScan(code: string, i: nat, height: nat, error: nat): (bool, nat)
    decreases |code| - i
  {
    if i >= |code| then (if height == 0 then (true, 0) else (false, error))
    else if code[i] == '[' then LoopScan(code, i + 1, height + 1, if height == 0 then i else error)
    else if code[i] == ']' then (if height == 0 then (false, i) else LoopScan(code, i + 1, height - 1, error))
    else LoopScan(code, i + 1, height, error)
  }

  function LoopCheck(code: string): (bool, nat) {
    LoopScan(code, 0, 0, 0)
  }

  lemma NonNegativeExtend(code: string, i: nat)
    requires i < |code| && NonNegative(code[..i]) && Height(code[..i + 1]) >= 0
    ensures NonNegative(code[..i + 1])
  {
    var t := code[..i + 1];
    forall k | 0 <= k <= |t|
      ensures Height(t[..k]) >= 0
    {
      if k <= i {
        assert t[..k] == code[..i][..k];
      } else {
        assert t[..k] == t;
      }
    }
  }

  lemma {:induction false} LoopScanCorrect(code: string, i: nat, height: nat, error: nat)
    requires i <= |code| && height == Height(code[..i]) && NonNegative(code[..i])
    requires height > 0 ==> && error < i && code[error] == '[' && Height(code[..error]) == 0
                            && forall j :: error < j <= i ==> Height(code[..j]) > 0
    ensures LoopScan(code, i, height, error).0 <==> Balanced(code)
    ensures LoopScan(code, i, height, error).0 ==> LoopScan(code, i, height, error).1 == 0
    ensures !LoopScan(code, i, height, error).0 ==>
              UnmatchedCloseAt(code, LoopScan(code, i, height, error).1)
              || UnclosedOpenAt(code, LoopScan(code, i, height, error).1)
    decreases |code| - i
  {
    if i == |code| {
      assert code[..i] == code;
    } else {
      HeightStep(code, i);
      if code[i] == ']' && height == 0 {
        UnderflowPersists(code, i, |code|);
        assert code[..|code|] == code;
      } else {
        NonNegativeExtend(code, i);
        var h' := if code[i] == '[' then height + 1 else if code[i] == ']' then height - 1 else height;
        var e' := if code[i] == '[' && height == 0 then i else error;
        LoopScanCorrect(code, i + 1, h', e');
      }
    }
  }

  /** The loop check accepts exactly the balanced texts; otherwise it points at the first
      unmatched `]` or, failing that, at the last `[` opened at height 0. */
  lemma LoopCheckSpec(code: string)
    ensures LoopCheck(code).0 <==> Balanced(code)
    ensures LoopCheck(code).0 ==> LoopCheck(code).1 == 0
    ensures !LoopCheck(code).0 ==> UnmatchedCloseAt(code, LoopCheck(code).1) || UnclosedOpenAt(code, LoopCheck(code).1)
  {
    assert code[..0] == [];
    LoopScanCorrect(code, 0, 0, 0);
  }

  /** Conversely, each kind of error is reported at its own position. */
  lemma LoopCheckReports(code: string, e: int)
    requires UnmatchedCloseAt(code, e) || UnclosedOpenAt(code, e)
    ensures LoopCheck(code) == (false, e)
  {
    LoopCheckSpec(code);
    var f := LoopCheck(code).1;
    if UnmatchedCloseAt(code, e) {
      UnderflowPersists(code, e, |code|);
      assert code[..|code|] == code;
      if UnmatchedCloseAt(code, f) { UnmatchedCloseUnique(code, e, f); } else { ErrorsExclusive(code, e, f); }
    } else {
      if UnmatchedCloseAt(code, f) { ErrorsExclusive(code, f, e); } else { UnclosedOpenUnique(code, e, f); }
    }
  }

  // ---------------------------------------------------------------------------------------------
  // The two regular expressions of lines 180-182, specified by the matches they produce

  /** The first match of `[(][)]` at or after `from`: the index of its `(`. */
  function EmptyPair(s: string, from: nat): (r: Option<nat>)
    decreases |s| - from
    ensures r.Some? ==> from <= r.value && r.value + 1 < |s| && s[r.value] == '(' && s[r.value + 1] == ')'
    ensures forall p :: from <= p < (if r.Some? then r.value else |s| - 1) ==> !(s[p] == '(' && s[p + 1] == ')')
  {
    if from + 1 >= |s| then None
    else if s[from] == '(' && s[from + 1] == ')' then Some(from)
    else EmptyPair(s, from + 1)
  }

  /** A capture group: where a function body starts and how long it is. */
  datatype Group = Group(index: nat, length: nat)

  /** Lazy end of `.+?[)]`: the first `)` at or after `q`, provided no newline comes first
      (`.` does not match a newline). */
  function LazyEnd(s: string, q: nat): (r: Option<nat>)
    decreases |s| - q
    ensures r.Some? ==> q <= r.value < |s| && s[r.value] == ')'
  {
    if q >= |s| then None
    else if s[q] == ')' then Some(q)
    else if s[q] == '\n' then None
    else LazyEnd(s, q + 1)
  }

  /** The successive non-overlapping matches of `[(](.+?)[)]`, scanning left to right from `from`.
      A match at `p` needs a first body character that is not a newline and then the lazy end. */
  function Matches(s: string, from: nat): (gs: seq<Group>)
    decreases |s| - from
    ensures forall g | g in gs :: 1 <= g.index && 1 <= g.length && g.index + g.length < |s|
                                  && s[g.index - 1] == '(' && s[g.index + g.length] == ')'
  {
    if from + 1 >= |s| then []
    else if s[from] == '(' && s[from + 1] != '\n' && LazyEnd(s, from + 2).Some? then
      var q := LazyEnd(s, from + 2).value;
      [Group(from + 1, q - from - 1)] + Matches(s, q + 1)
    else Matches(s, from + 1)
  }

  function Body(s: string, g: Group): string
    requires g.index + g.length <= |s|
  {
    s[g.index..g.index + g.length]
  }

  /** The `foreach` of lines 183-189: the first failing function body, if any. */
  function BodiesCheck(s: string, gs: seq<Group>): Option<nat>
    requires forall g | g in gs :: g.index + g.length <= |s|
  {
    if gs == [] then None
    else
      var g := gs[0];
      if NoOperators(Body(s, g)) then Some(g.index + g.length)
      else if !LoopCheck(Body(s, g)).0 then Some(LoopCheck(Body(s, g)).1 + g.index)
      else BodiesCheck(s, gs[1..])
  }

  /** What `CheckSourceSyntax(String)` returns: `(valid, error position)`. */
  function CheckSourceSyntaxSpec(s: string): (bool, nat) {
    match FirstParenError(s)
    case Some(i) => (false, i)
    case None =>
      match EmptyPair(s, 0)
      case Some(p) => (false, p + 1)
      case None =>
        match BodiesCheck(s, Matches(s, 0))
        case Some(e) => (false, e)
        case None => LoopCheck(s)
  }

  // ---------------------------------------------------------------------------------------------
  // The imperative validator

  /** Lines 139-153. */
  method ScanParens(s: string) returns (r: Option<nat>)
    ensures r == FirstParenError(s)
  {
    var open := false;
    var i := 0;
    while i < |s|
      invariant 0 <= i <= |s|
      invariant ParenScan(s, i, open) == FirstParenError(s)
    {
      if s[i] == '(' {
        if open { return Some(i); }
        open := true;
      } else if s[i] == ')' {
        if open { open := false; } else { return Some(i); }
      }
      i := i + 1;
    }
    return None;
  }

  /** The local function CheckSyntaxCore, lines 156-177. */
  method CheckSyntaxCore(code: string) returns (valid: bool, error: nat)
    ensures (valid, error) == LoopCheck(code)
  {
    var height: nat, err: nat := 0, 0;
    var i := 0;
    while i < |code|
      invariant 0 <= i <= |code|
      invariant LoopScan(code, i, height, err) == LoopCheck(code)
    {
      if code[i] == '[' {
        if height == 0 { err := i; }
        height := height + 1;
      } else if code[i] == ']' {
        if height == 0 { return false, i; }
        height := height - 1;
      }
      i := i + 1;
    }
    if height == 0 { valid, error := true, 0; } else { valid, error := false, err; }
  }

  /** `CheckSourceSyntax(String)`, lines 136-193. The regular-expression matches are taken from
      `EmptyPair` and `Matches`, which specify what the two patterns match. */
  method CheckSourceSyntax(source: string) returns (valid: bool, error: nat)
    ensures (valid, error) == CheckSourceSyntaxSpec(source)
  {
    var parens := ScanParens(source);
    if parens.Some? { return false, parens.value; }
    var emptyCheck := EmptyPair(source, 0);
    if emptyCheck.Some? { return false, emptyCheck.value + 1; }
    var failed := CheckBodies(source, Matches(source, 0));
    if failed.Some? { return false, failed.value; }
    valid, error := CheckSyntaxCore(source);
  }

  /** Lines 183-189: checks every function body in turn and stops at the first that is empty or
      has unbalanced brackets. */
  method CheckBodies(source: string, matches: seq<Group>) returns (failed: Option<nat>)
    requires forall g | g in matches :: g.index + g.length <= |source|
    ensures failed == BodiesCheck(source, matches)
  {
    var m := 0;
    while m < |matches|
      invariant 0 <= m <= |matches|
      invariant BodiesCheck(source, matches[m..]) == BodiesCheck(source, matches)
    {
      assert matches[m..][1..] == matches[m + 1..];
      var group := matches[m];
      var body := source[group.index..group.index + group.length];
      if NoOperators(body) { return Some(group.index + group.length); }
      var ok, pos := CheckSyntaxCore(body);
      if !ok { return Some(pos + group.index); }
      m := m + 1;
    }
    return None;
  }

  // ---------------------------------------------------------------------------------------------
  // Properties of the validator

  /** No two adjacent characters form `()`. */
  ghost predicate NoEmptyFunction(s: string) {
    forall p :: 0 <= p < |s| - 1 ==> !(s[p] == '(' && s[p + 1] == ')')
  }

  /** Everything the validator demands of a source. */
  ghost predicate WellFormedSource(s: string) {
    && ParenTrace(s).Some?
    && NoEmptyFunction(s)
    && (forall g | g in Matches(s, 0) :: !NoOperators(Body(s, g)) && Balanced(Body(s, g)))
    && Balanced(s)
  }

  lemma {:induction false} BodiesCheckNone(s: string, gs: seq<Group>)
    requires forall g | g in gs :: g.index + g.length <= |s|
    ensures BodiesCheck(s, gs).None? <==> forall g | g in gs :: !NoOperators(Body(s, g)) && Balanced(Body(s, g))
  {
    if gs != [] {
      LoopCheckSpec(Body(s, gs[0]));
      BodiesCheckNone(s, gs[1..]);
      assert forall g | g in gs :: g == gs[0] || g in gs[1..];
    }
  }

  /** A source is accepted exactly when it is well formed, and acceptance reports position 0. */
  lemma ValidIffWellFormed(s: string)
    ensures CheckSourceSyntaxSpec(s).0 <==> WellFormedSource(s)
    ensures CheckSourceSyntaxSpec(s).0 ==> CheckSourceSyntaxSpec(s).1 == 0
  {
    FirstParenErrorSpec(s, 0);
    BodiesCheckNone(s, Matches(s, 0));
    LoopCheckSpec(s);
  }

  /** Function-balance errors come first and are reported at the offending character. */
  lemma ParenErrorReported(s: string, e: int)
    requires ParenErrorAt(s, e)
    ensures CheckSourceSyntaxSpec(s) == (false, e)
  {
    FirstParenErrorSpec(s, e);
  }

  /** An empty function `()` is rejected at its `)`, unless a function-balance error comes first. */
  lemma EmptyFunctionReported(s: string, p: nat)
    requires p + 1 < |s| && s[p] == '(' && s[p + 1] == ')'
    requires forall q :: 0 <= q < p ==> !(s[q] == '(' && s[q + 1] == ')')
    requires ParenTrace(s).Some?
    ensures CheckSourceSyntaxSpec(s) == (false, p + 1)
  {
    FirstParenErrorSpec(s, 0);
  }

  lemma {:induction false} BodiesCheckInRange(s: string, gs: seq<Group>)
    requires forall g | g in gs :: 1 <= g.index && g.index + g.length < |s| && s[g.index + g.length] == ')'
    ensures BodiesCheck(s, gs).Some? ==>
              BodiesCheck(s, gs).value < |s| && s[BodiesCheck(s, gs).value] in {')', '[', ']'}
  {
    if gs != [] {
      var g := gs[0];
      if !NoOperators(Body(s, g)) && !LoopCheck(Body(s, g)).0 {
        LoopCheckSpec(Body(s, g));
        var e := LoopCheck(Body(s, g)).1;
        assert Body(s, g)[e] == s[e + g.index];
      }
      BodiesCheckInRange(s, gs[1..]);
    }
  }

  /** A rejection always points at a character of the source, and that character is a
      parenthesis or a loop bracket. */
  lemma ErrorPointsAtBracket(s: string)
    requires !CheckSourceSyntaxSpec(s).0
    ensures CheckSourceSyntaxSpec(s).1 < |s|
    ensures s[CheckSourceSyntaxSpec(s).1] in {'(', ')', '[', ']'}
  {
    if FirstParenError(s).Some? {
      FirstParenErrorSpec(s, FirstParenError(s).value);
    }
    BodiesCheckInRange(s, Matches(s, 0));
    LoopCheckSpec(s);
  }

  /** Loop errors are reported in every function body in isolation: a body that is unbalanced by
      itself is rejected, with its own error position shifted by the body's index. */
  lemma FirstBodyErrorShifted(s: string, e: nat)
    requires FirstParenError(s).None? && EmptyPair(s, 0).None?
    requires Matches(s, 0) != [] && !NoOperators(Body(s, Matches(s, 0)[0]))
    requires LoopCheck(Body(s, Matches(s, 0)[0])) == (false, e)
    ensures CheckSourceSyntaxSpec(s) == (false, Matches(s, 0)[0].index + e)
    ensures e < Matches(s, 0)[0].length
  {
    LoopCheckSpec(Body(s, Matches(s, 0)[0]));
  }

  // ---------------------------------------------------------------------------------------------
  // A function left open at the end of the source

  /** As written, the parenthesis pass never looks at the flag after its loop, so a `(` that is
      still open at the end is accepted. */
  lemma UnclosedFunctionAccepted()
    ensures CheckSourceSyntaxSpec("+(") == (true, 0)
  {
    assert FirstParenError("+(") == None;
    assert EmptyPair("+(", 0) == None;
    assert Matches("+(", 0) == [];
    assert LoopCheck("+(") == (true, 0);
  }

  /** The index of the last occurrence of `c` in `s`. */
  function LastIndex(s: string, c: char): (r: Option<nat>)
    ensures r.Some? ==> r.value < |s| && s[r.value] == c
  {
    if s == [] then None
    else if s[|s| - 1] == c then Some(|s| - 1)
    else LastIndex(s[..|s| - 1], c)
  }

  lemma {:induction false} OpenTraceHasParen(t: string)
    requires ParenTrace(t) == Some(true)
    ensures LastIndex(t, '(').Some?
  {
    if t != [] && t[|t| - 1] != '(' {
      OpenTraceHasParen(t[..|t| - 1]);
    }
  }

  /** The check with the missing end-of-source test added: a function still open after the last
      character is reported at its `(`. */
  function CheckSourceSyntaxClosed(s: string): (bool, nat) {
    if FirstParenError(s).None? && ParenTrace(s) == Some(true) then
      OpenTraceHasParen(s);
      (false, LastIndex(s, '(').value)
    else CheckSourceSyntaxSpec(s)
  }

  /** With the test added, every accepted source closes all of its functions, and a rejection
      still points at a parenthesis or a loop bracket. */
  lemma ClosedCheckClosesFunctions(s: string)
    ensures CheckSourceSyntaxClosed(s).0 ==> ParenTrace(s) == Some(false) && WellFormedSource(s)
    ensures !CheckSourceSyntaxClosed(s).0 ==>
              CheckSourceSyntaxClosed(s).1 < |s| && s[CheckSourceSyntaxClosed(s).1] in {'(', ')', '[', ']'}
  {
    ValidIffWellFormed(s);
    FirstParenErrorSpec(s, 0);
    if FirstParenError(s).None? && ParenTrace(s) == Some(true) {
      OpenTraceHasParen(s);
    } else if !CheckSourceSyntaxSpec(s).0 {
      ErrorPointsAtBracket(s);
    }
  }
}
