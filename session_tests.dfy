/** The debugging-session scripts of Brainf_ck-sharp.Test/PBrainTests.cs, worked out on the model:
    `{"(+):+++++"}`, `{"+++++", "---"}` and `{"++(>+", "-)>++:"}`. */
module SessionTests {
  import opened Common
  import opened Operators
  import opened Brackets
  import opened Tapes
  import opened Tokens
  import opened Results
  import opened EngineSpec
  import opened EngineLemmas
  import opened Sessions
  import opened Examples
  import opened SessionExamples

  /** Code without loop brackets is balanced. */
  lemma {:induction false} NoBracketsHeight(s: string)
    requires '[' !in s && ']' !in s
    ensures Height(s) == 0
  {
    if s != [] {
      assert s[|s| - 1] in s;
      NoBracketsHeight(s[..|s| - 1]);
    }
  }

  lemma NoBracketsBalanced(s: string)
    requires '[' !in s && ']' !in s
    ensures Balanced(s)
  {
    forall k | 0 <= k <= |s| ensures Height(s[..k]) == 0 {
      NoBracketsHeight(s[..k]);
    }
    NoBracketsHeight(s);
  }

  lemma TwoChunks(a: string, b: string)
    requires (forall k :: 0 <= k < |a| ==> IsOperator(a[k])) && (forall k :: 0 <= k < |b| ==> IsOperator(b[k]))
    ensures Filtered([a, b]) == [a, b]
    ensures Concat([a, b]) == a + b && Breakpoints([a, b]) == [|a|]
  {
    FilterKeepsOperators(a);
    FilterKeepsOperators(b);
    var chunks := [a, b];
    assert chunks[..1] == [a] && [a][..0] == [];
    assert Concat(chunks[..1]) == a;
  }

  // ---------------------------------------------------------------------------------------------
  // `{"(+):+++++"}` (PBrainTests.cs:36-46)

  /** `(+):+++++` defines a function adding 1 on cell 0, calls it and adds 5 more: cell 0 ends at
      6 after 7 operations. */
  lemma TraceDefineCallThenPluses(ops: seq<Token>, m0: Machine, fuel: nat)
    requires ops == [Token(0, '('), Token(1, '+'), Token(2, ')'), Token(3, ':'), Token(4, '+'), Token(5, '+'),
                     Token(6, '+'), Token(7, '+'), Token(8, '+')]
    requires m0.functions == map[] && m0.tape.cells[m0.tape.ptr] == 0 && fuel >= 2
    ensures var ctx := Ctx(None, None, ShortNoOverflow, ShortMax, false);
            Core(ctx, ops, 0, false, m0, fuel)
            == Ok(Run(WorkingData({Success}, [], 9, false, 7),
                      m0.(tape := Store(m0.tape, 6), functions := map[0 := ops[1..2]]), fuel - 2))
  {
    var ctx := Ctx(None, None, ShortNoOverflow, ShortMax, false);
    var body := ops[1..2];
    assert NextClose(ops, 2) == Some(2);
    assert NextClose(ops, 1) == Some(2);
    var f := fuel - 1;
    var m1 := m0.(functions := map[0 := body]);
    assert StepOp(ctx, ops, 0, 0, false, 0, m0, f) == Ok(Go(2, false, false, 0, m1, f));
    Pluses(ctx, body, 4, 0, false, 0, m1, f - 1);
    var m2 := m1.(tape := Store(m1.tape, 1));
    assert Core(ctx, body, 4, false, m1, f) == Ok(Run(WorkingData({Success}, [], 5, false, 1), m2, f - 1));
    assert StepOp(ctx, ops, 0, 3, false, 0, m1, f) == Ok(Go(0, false, false, 2, m2, f - 1));
    Pluses(ctx, ops, 0, 4, false, 2, m2, f - 1);
    StoreTwice(m0.tape, 1, 6);
    var done := Ok(Run(WorkingData({Success}, [], 9, false, 7), m2.(tape := Store(m2.tape, 6)), f - 1));
    assert Sweep(ctx, ops, 0, 3, 0, false, false, 0, m1, f) == done;
    assert Sweep(ctx, ops, 0, 0, 0, false, false, 0, m0, f) == done;
  }

  /** A single chunk has no breakpoint: the session runs `(+):+++++` to its end, cell 0 holds 6,
      nothing was printed and the session cannot continue. */
  lemma BreakpointTest1(code: string, ticks: nat)
    requires code == "(+):+++++" && ticks >= 2
    ensures var r := InitializeSessionSpec([code], "", ShortNoOverflow, DefaultMemorySize, ShortMax, None, ticks);
            && r.Ok? && !CanContinue(r.value) && r.value.current.code == {Success, NoOutput}
            && Current(r.value.current.tape) == 6 && r.value.current.operations == 7
  {
    DefineCallThenPlusesChars(code);
    var ops, fin := DefineCallThenPlusesRun(code, ticks);
    OneChunkSession(code, ticks, ops, fin);
  }

  /** `(+):+++++` is one chunk of operators without brackets. */
  lemma DefineCallThenPlusesChars(code: string)
    requires code == "(+):+++++"
    ensures code != [] && (forall k :: 0 <= k < |code| ==> IsOperator(code[k])) && '[' !in code && ']' !in code
  {
  }

  /** The run of `(+):+++++` leaves 6 in cell 0 after 7 operations. */
  lemma DefineCallThenPlusesRun(code: string, ticks: nat) returns (ops: seq<Token>, fin: Finished)
    requires code == "(+):+++++" && ticks >= 2
    ensures ops == Tokenize(code, 0)
    ensures TryRunSpec(ops, "", [], Fresh(DefaultMemorySize), ShortNoOverflow, ShortMax, None, ticks, 0, None, None, map[]) == Ok(fin)
    ensures fin.result.code == {Success, NoOutput} && fin.result.operations == 7 && Current(fin.result.tape) == 6
  {
    ops := Tokenize(code, 0);
    DefineCallThenPlusesTokens(code, ops);
    TryDefineCallThenPluses(ops, Fresh(DefaultMemorySize), ticks);
    fin := TryRunSpec(ops, "", [], Fresh(DefaultMemorySize), ShortNoOverflow, ShortMax, None, ticks, 0, None, None, map[]).value;
  }

  /** A session over one chunk of operators without brackets is the run of that chunk without breakpoints. */
  lemma OneChunkSession(code: string, ticks: nat, ops: seq<Token>, fin: Finished)
    requires code != [] && (forall k :: 0 <= k < |code| ==> IsOperator(code[k])) && '[' !in code && ']' !in code
    requires ops == Tokenize(code, 0)
    requires TryRunSpec(ops, "", [], Fresh(DefaultMemorySize), ShortNoOverflow, ShortMax, None, ticks, 0, None, None, map[]) == Ok(fin)
    ensures InitializeSessionSpec([code], "", ShortNoOverflow, DefaultMemorySize, ShortMax, None, ticks)
            == Ok(Session(fin.result, Some(DebugData(ops, fin.stdin, fin.result.stdout, None, [])), ShortNoOverflow, ShortMax))
  {
    OneChunk(code);
    NoBracketsBalanced(code);
    InitializeRuns([code], "", ShortNoOverflow, DefaultMemorySize, ShortMax, None, ticks);
  }

  lemma OneChunk(a: string)
    requires a != [] && forall k :: 0 <= k < |a| ==> IsOperator(a[k])
    ensures Filtered([a]) == [a] && Concat([a]) == a && Breakpoints([a]) == []
    ensures forall j :: 0 <= j < |[a]| ==> [a][j] != []
  {
    FilterKeepsOperators(a);
    assert [a][..0] == [];
  }

  lemma DefineCallThenPlusesTokens(code: string, ops: seq<Token>)
    requires code == "(+):+++++" && ops == Tokenize(code, 0)
    ensures ops == [Token(0, '('), Token(1, '+'), Token(2, ')'), Token(3, ':'), Token(4, '+'), Token(5, '+'),
                    Token(6, '+'), Token(7, '+'), Token(8, '+')]
  {
  }

  lemma TryDefineCallThenPluses(ops: seq<Token>, state: Tape, ticks: nat)
    requires ops == [Token(0, '('), Token(1, '+'), Token(2, ')'), Token(3, ':'), Token(4, '+'), Token(5, '+'),
                     Token(6, '+'), Token(7, '+'), Token(8, '+')]
    requires state.cells[state.ptr] == 0 && ticks >= 2
    ensures var r := TryRunSpec(ops, "", [], state, ShortNoOverflow, ShortMax, None, ticks, 0, None, None, map[]);
            && r.Ok? && r.value.result.code == {Success, NoOutput} && r.value.result.operations == 7
            && r.value.result.tape == Store(state, 6)
  {
    var m0 := Machine(state, "", [], map[]);
    TraceDefineCallThenPluses(ops, m0, ticks);
    var run := Core(Ctx(None, None, ShortNoOverflow, ShortMax, false), ops, 0, false, m0, ticks).value;
    FinishOneFunction(ops, run.data, run.m, 0, ops[1..2]);
  }

  // ---------------------------------------------------------------------------------------------
  // `{"+++++", "---"}` (PBrainTests.cs:70-88)

  /** The first run stops before the first `-`, at offset 5, having added 5 to cell 0. */
  lemma FirstRunFivePluses(ops: seq<Token>, m0: Machine, f: nat)
    requires ops == [Token(0, '+'), Token(1, '+'), Token(2, '+'), Token(3, '+'), Token(4, '+'),
                     Token(5, '-'), Token(6, '-'), Token(7, '-')]
    requires m0.tape.cells[m0.tape.ptr] == 0
    ensures var ctx := Ctx(None, Some([5]), ShortNoOverflow, ShortMax, false);
            Sweep(ctx, ops, 0, 0, 0, false, false, 0, m0, f)
            == Ok(Run(WorkingData({Success, BreakpointReached}, [ops[..6]], 5, true, 5), m0.(tape := Store(m0.tape, 5)), f))
  {
    var done := Ok(Run(WorkingData({Success, BreakpointReached}, [ops[..6]], 5, true, 5), m0.(tape := Store(m0.tape, 5)), f));
    assert Sweep(Ctx(None, Some([5]), ShortNoOverflow, ShortMax, false), ops, 0, 5, 0, false, false, 5,
                 m0.(tape := Store(m0.tape, 5)), f) == done;
    PlusSweep(ops, 4, m0, f, done);
    PlusSweep(ops, 3, m0, f, done);
    PlusSweep(ops, 2, m0, f, done);
    PlusSweep(ops, 1, m0, f, done);
    PlusSweep(ops, 0, m0, f, done);
    StoreSame(m0.tape, 0);
  }

  /** One `+` of the first run, before the breakpoint: it counts and goes on. */
  lemma PlusSweep(ops: seq<Token>, i: nat, m0: Machine, f: nat, done: Outcome<Run>)
    requires ops == [Token(0, '+'), Token(1, '+'), Token(2, '+'), Token(3, '+'), Token(4, '+'),
                     Token(5, '-'), Token(6, '-'), Token(7, '-')]
    requires i < 5
    requires Sweep(Ctx(None, Some([5]), ShortNoOverflow, ShortMax, false), ops, 0, i + 1, 0, false, false, i + 1,
                   m0.(tape := Store(m0.tape, i + 1)), f) == done
    ensures Sweep(Ctx(None, Some([5]), ShortNoOverflow, ShortMax, false), ops, 0, i, 0, false, false, i,
                  m0.(tape := Store(m0.tape, i)), f) == done
  {
    var ctx := Ctx(None, Some([5]), ShortNoOverflow, ShortMax, false);
    var m := m0.(tape := Store(m0.tape, i));
    StoreTwice(m0.tape, i, i + 1);
    assert StepOp(ctx, ops, 0, i, false, i, m, f) == Ok(Go(0, false, false, i + 1, m0.(tape := Store(m0.tape, i + 1)), f));
  }

  /** The second run replays the five `+` as no-ops up to offset 5, then runs the three `-`. */
  lemma SecondRunThreeMinuses(ops: seq<Token>, m0: Machine, f: nat)
    requires ops == [Token(0, '+'), Token(1, '+'), Token(2, '+'), Token(3, '+'), Token(4, '+'),
                     Token(5, '-'), Token(6, '-'), Token(7, '-')]
    requires m0.tape.cells[m0.tape.ptr] == 5
    ensures var ctx := Ctx(Some(5), Some([5]), ShortNoOverflow, ShortMax, false);
            Sweep(ctx, ops, 0, 0, 0, false, false, 0, m0, f)
            == Ok(Run(WorkingData({Success}, [], 8, true, 3), m0.(tape := Store(m0.tape, 2)), f))
  {
    var ctx := Ctx(Some(5), Some([5]), ShortNoOverflow, ShortMax, false);
    var m1 := m0.(tape := Minus(m0.tape));
    var m2 := m1.(tape := Minus(m1.tape));
    var m3 := m2.(tape := Minus(m2.tape));
    assert StepOp(ctx, ops, 0, 0, false, 0, m0, f) == Ok(Go(0, false, false, 0, m0, f));
    assert StepOp(ctx, ops, 0, 1, false, 0, m0, f) == Ok(Go(0, false, false, 0, m0, f));
    assert StepOp(ctx, ops, 0, 2, false, 0, m0, f) == Ok(Go(0, false, false, 0, m0, f));
    assert StepOp(ctx, ops, 0, 3, false, 0, m0, f) == Ok(Go(0, false, false, 0, m0, f));
    assert StepOp(ctx, ops, 0, 4, false, 0, m0, f) == Ok(Go(0, false, false, 0, m0, f));
    assert StepOp(ctx, ops, 0, 5, true, 0, m0, f) == Ok(Go(0, true, false, 1, m1, f));
    assert StepOp(ctx, ops, 0, 6, true, 1, m1, f) == Ok(Go(0, true, false, 2, m2, f));
    assert StepOp(ctx, ops, 0, 7, true, 2, m2, f) == Ok(Go(0, true, false, 3, m3, f));
    var done := Ok(Run(WorkingData({Success}, [], 8, true, 3), m3, f));
    assert Sweep(ctx, ops, 0, 8, 0, true, false, 3, m3, f) == done;
    assert Sweep(ctx, ops, 0, 7, 0, true, false, 2, m2, f) == done;
    assert Sweep(ctx, ops, 0, 6, 0, true, false, 1, m1, f) == done;
    assert Sweep(ctx, ops, 0, 5, 0, false, false, 0, m0, f) == done;
    assert Sweep(ctx, ops, 0, 4, 0, false, false, 0, m0, f) == done;
    assert Sweep(ctx, ops, 0, 3, 0, false, false, 0, m0, f) == done;
    assert Sweep(ctx, ops, 0, 2, 0, false, false, 0, m0, f) == done;
    assert Sweep(ctx, ops, 0, 1, 0, false, false, 0, m0, f) == done;
    assert m3.tape == Store(m0.tape, 2) by {
      assert m3.tape.cells == m0.tape.cells[m0.tape.ptr := 2];
    }
  }

  lemma FiveThreeTokens(a: string, b: string, ops: seq<Token>)
    requires a == "+++++" && b == "---" && ops == Tokenize(a + b, 0)
    ensures ops == [Token(0, '+'), Token(1, '+'), Token(2, '+'), Token(3, '+'), Token(4, '+'),
                    Token(5, '-'), Token(6, '-'), Token(7, '-')]
    ensures forall k :: 0 <= k < |a| ==> IsOperator(a[k])
    ensures forall k :: 0 <= k < |b| ==> IsOperator(b[k])
    ensures '[' !in a + b && ']' !in a + b
  {
  }

  /** `TryRun` from the start, with a breakpoint at offset 5. */
  lemma FirstTryFive(ops: seq<Token>, state: Tape, ticks: nat)
    requires ops == [Token(0, '+'), Token(1, '+'), Token(2, '+'), Token(3, '+'), Token(4, '+'),
                     Token(5, '-'), Token(6, '-'), Token(7, '-')]
    requires state.cells[state.ptr] == 0 && ticks >= 1
    ensures var r := TryRunSpec(ops, "", [], state, ShortNoOverflow, ShortMax, None, ticks, 0, None, Some([5]), map[]);
            && r.Ok? && r.value.stdin == [] && r.value.result.tape == Store(state, 5)
            && r.value.result.code == {Success, BreakpointReached, NoOutput}
            && r.value.result.breakpoint == Some(5) && r.value.result.operations == 5
            && r.value.result.stdout == [] && r.value.result.functions == []
  {
    var m0 := Machine(state, "", [], map[]);
    FirstRunFivePluses(ops, m0, ticks - 1);
    var ctx := Ctx(None, Some([5]), ShortNoOverflow, ShortMax, false);
    assert Core(ctx, ops, 0, false, m0, ticks)
           == Ok(Run(WorkingData({Success, BreakpointReached}, [ops[..6]], 5, true, 5), m0.(tape := Store(m0.tape, 5)), ticks - 1));
    NoKeys(m0.functions);
  }

  /** `TryRun` resumed from offset 5, with the same breakpoint. */
  lemma SecondTryThree(ops: seq<Token>, tape: Tape, ticks: nat)
    requires ops == [Token(0, '+'), Token(1, '+'), Token(2, '+'), Token(3, '+'), Token(4, '+'),
                     Token(5, '-'), Token(6, '-'), Token(7, '-')]
    requires tape.cells[tape.ptr] == 5 && ticks >= 1
    ensures var r := TryRunSpec(ops, "", [], tape, ShortNoOverflow, ShortMax, None, ticks, 5, Some(5), Some([5]), map[]);
            && r.Ok? && r.value.result.tape == Store(tape, 2) && r.value.result.code == {Success, NoOutput}
            && r.value.result.breakpoint == None && r.value.result.operations == 8
  {
    var m0 := Machine(tape, "", [], map[]);
    SecondRunThreeMinuses(ops, m0, ticks - 1);
    var ctx := Ctx(Some(5), Some([5]), ShortNoOverflow, ShortMax, false);
    assert Core(ctx, ops, 0, false, m0, ticks)
           == Ok(Run(WorkingData({Success}, [], 8, true, 3), m0.(tape := Store(m0.tape, 2)), ticks - 1));
    NoKeys(m0.functions);
  }

  /** `{"+++++", "---"}` stops at the breakpoint before the second chunk with cell 0 at 5 and no
      output; continuing ends the session with cell 0 at 2, still without output. */
  lemma BreakpointTest2(a: string, b: string, s: Session, ticks: nat)
    requires a == "+++++" && b == "---" && ticks >= 1
    requires InitializeSessionSpec([a, b], "", ShortNoOverflow, DefaultMemorySize, ShortMax, None, ticks) == Ok(s)
    ensures CanContinue(s) && s.current.code == {Success, BreakpointReached, NoOutput} && Current(s.current.tape) == 5
    ensures CanStep(s, Some(s.debug.value.breakpoints))
    ensures var r := StepSpec(s, Some(s.debug.value.breakpoints), ticks);
            && r.Ok? && !CanContinue(r.value) && r.value.current.code == {Success, NoOutput}
            && Current(r.value.current.tape) == 2 && r.value.current.operations == 8
  {
    var ops := Tokenize(a + b, 0);
    FiveThreeTokens(a, b, ops);
    TwoChunks(a, b);
    NoBracketsBalanced(a + b);
    InitializeRuns([a, b], "", ShortNoOverflow, DefaultMemorySize, ShortMax, None, ticks);
    FirstTryFive(ops, Fresh(DefaultMemorySize), ticks);
    var tape := Store(Fresh(DefaultMemorySize), 5);
    assert s.current.tape == tape && s.current.breakpoint == Some(5) && s.current.operations == 5;
    assert s.debug == Some(DebugData(ops, [], [], None, [5]));
    assert Rebuild(s.current.functions) == map[];
    SecondTryThree(ops, tape, ticks);
  }

  // ---------------------------------------------------------------------------------------------
  // `{"++(>+", "-)>++:"}` (PBrainTests.cs:48-69): a breakpoint inside a function body

  lemma ShortTokens(a: string, b: string, ops: seq<Token>)
    requires a == "++(>+" && b == "-)>++:" && ops == Tokenize(a + b, 0)
    ensures ops == [Token(0, '+'), Token(1, '+'), Token(2, '('), Token(3, '>'), Token(4, '+'), Token(5, '-'),
                    Token(6, ')'), Token(7, '>'), Token(8, '+'), Token(9, '+'), Token(10, ':')]
    ensures forall k :: 0 <= k < |a| ==> IsOperator(a[k])
    ensures forall k :: 0 <= k < |b| ==> IsOperator(b[k])
    ensures '[' !in a + b && ']' !in a + b
  {
  }

  /** The called body `>+-` moves right, adds 1 and stops before its `-`, the breakpoint token,
      at index 2 of a body run at depth 11. */
  lemma TraceCallBody(body: seq<Token>, m: Machine, f: nat)
    requires body == [Token(3, '>'), Token(4, '+'), Token(5, '-')]
    requires m.tape.ptr + 1 < |m.tape.cells| && m.tape.cells[m.tape.ptr + 1] == 0 && f >= 1
    ensures var ctx := Ctx(None, Some([5]), ShortNoOverflow, ShortMax, false);
            Core(ctx, body, 11, false, m, f)
            == Ok(Run(WorkingData({Success, BreakpointReached}, [body[..3]], 13, true, 2),
                      m.(tape := Store(MoveNext(m.tape), 1)), f - 1))
  {
    var ctx := Ctx(None, Some([5]), ShortNoOverflow, ShortMax, false);
    var g := f - 1;
    var n1 := m.(tape := MoveNext(m.tape));
    var n2 := n1.(tape := Plus(n1.tape));
    assert StepOp(ctx, body, 11, 0, false, 0, m, g) == Ok(Go(0, false, false, 1, n1, g));
    assert StepOp(ctx, body, 11, 1, false, 1, n1, g) == Ok(Go(0, false, false, 2, n2, g));
    var inner := Ok(Run(WorkingData({Success, BreakpointReached}, [body[..3]], 13, true, 2), n2, g));
    assert Sweep(ctx, body, 11, 2, 0, false, false, 2, n2, g) == inner;
    assert Sweep(ctx, body, 11, 1, 0, false, false, 1, n1, g) == inner;
    assert Sweep(ctx, body, 11, 0, 0, false, false, 0, m, g) == inner;
  }

  /** The first run defines `>+-` on key 2, moves to cell 1, sets it to 2 and calls the function,
      which stops before its `-`: the reported position is 13, while the token stopped on is at
      offset 5. */
  lemma TraceStopInCall(ops: seq<Token>, m0: Machine, fuel: nat)
    requires ops == [Token(0, '+'), Token(1, '+'), Token(2, '('), Token(3, '>'), Token(4, '+'), Token(5, '-'),
                     Token(6, ')'), Token(7, '>'), Token(8, '+'), Token(9, '+'), Token(10, ':')]
    requires m0.functions == map[] && m0.tape.ptr == 0 && |m0.tape.cells| >= 3
    requires m0.tape.cells[0] == 0 && m0.tape.cells[1] == 0 && m0.tape.cells[2] == 0 && fuel >= 2
    ensures var ctx := Ctx(None, Some([5]), ShortNoOverflow, ShortMax, false);
            Core(ctx, ops, 0, false, m0, fuel)
            == Ok(Run(WorkingData({Success, BreakpointReached}, [ops[3..6], ops[..11]], 13, true, 8),
                      m0.(tape := TapeValue(m0.tape.cells[0 := 2][1 := 2][2 := 1], 2), functions := map[2 := ops[3..6]]),
                      fuel - 2))
  {
    var ctx := Ctx(None, Some([5]), ShortNoOverflow, ShortMax, false);
    var m6 := m0.(tape := TapeValue(m0.tape.cells[0 := 2][1 := 2], 1), functions := map[2 := ops[3..6]]);
    BeforeCall(ops, m0, fuel - 1);
    AtCall(ops, m6, fuel - 1);
    assert Store(MoveNext(m6.tape), 1).cells == m0.tape.cells[0 := 2][1 := 2][2 := 1];
  }

  /** Up to the `:`: the two `+`, the definition skipped over, `>` and two more `+`. */
  lemma BeforeCall(ops: seq<Token>, m0: Machine, f: nat)
    requires ops == [Token(0, '+'), Token(1, '+'), Token(2, '('), Token(3, '>'), Token(4, '+'), Token(5, '-'),
                     Token(6, ')'), Token(7, '>'), Token(8, '+'), Token(9, '+'), Token(10, ':')]
    requires m0.functions == map[] && m0.tape.ptr == 0 && |m0.tape.cells| >= 3
    requires m0.tape.cells[0] == 0 && m0.tape.cells[1] == 0
    ensures var ctx := Ctx(None, Some([5]), ShortNoOverflow, ShortMax, false);
            Sweep(ctx, ops, 0, 0, 0, false, false, 0, m0, f)
            == Sweep(ctx, ops, 0, 10, 0, false, false, 5,
                     m0.(tape := TapeValue(m0.tape.cells[0 := 2][1 := 2], 1), functions := map[2 := ops[3..6]]), f)
  {
    var m3 := m0.(tape := Store(m0.tape, 2), functions := map[2 := ops[3..6]]);
    DefineFirst(ops, m0, f);
    AfterDefinition(ops, m3, f);
    assert MoveNext(m3.tape).cells == m0.tape.cells[0 := 2];
    assert Store(MoveNext(m3.tape), 2).cells == m0.tape.cells[0 := 2][1 := 2];
  }

  lemma DefineFirst(ops: seq<Token>, m0: Machine, f: nat)
    requires ops == [Token(0, '+'), Token(1, '+'), Token(2, '('), Token(3, '>'), Token(4, '+'), Token(5, '-'),
                     Token(6, ')'), Token(7, '>'), Token(8, '+'), Token(9, '+'), Token(10, ':')]
    requires m0.functions == map[] && Current(m0.tape) == 0
    ensures var ctx := Ctx(None, Some([5]), ShortNoOverflow, ShortMax, false);
            Sweep(ctx, ops, 0, 0, 0, false, false, 0, m0, f)
            == Sweep(ctx, ops, 0, 7, 0, false, false, 2, m0.(tape := Store(m0.tape, 2), functions := map[2 := ops[3..6]]), f)
  {
    var ctx := Ctx(None, Some([5]), ShortNoOverflow, ShortMax, false);
    assert NextClose(ops, 6) == Some(6);
    assert NextClose(ops, 5) == Some(6);
    assert NextClose(ops, 4) == Some(6);
    assert NextClose(ops, 3) == Some(6);
    var m1 := m0.(tape := Plus(m0.tape));
    var m2 := m1.(tape := Plus(m1.tape));
    var m3 := m2.(functions := map[2 := ops[3..6]]);
    assert StepOp(ctx, ops, 0, 0, false, 0, m0, f) == Ok(Go(0, false, false, 1, m1, f));
    assert StepOp(ctx, ops, 0, 1, false, 1, m1, f) == Ok(Go(0, false, false, 2, m2, f));
    assert StepOp(ctx, ops, 0, 2, false, 2, m2, f) == Ok(Go(4, false, false, 2, m3, f));
    var rest := Sweep(ctx, ops, 0, 7, 0, false, false, 2, m3, f);
    assert Sweep(ctx, ops, 0, 3, 4, false, false, 2, m3, f) == rest;
    assert Sweep(ctx, ops, 0, 2, 0, false, false, 2, m2, f) == rest;
    assert Sweep(ctx, ops, 0, 1, 0, false, false, 1, m1, f) == rest;
    StoreTwice(m0.tape, 1, 2);
  }

  lemma AfterDefinition(ops: seq<Token>, m3: Machine, f: nat)
    requires ops == [Token(0, '+'), Token(1, '+'), Token(2, '('), Token(3, '>'), Token(4, '+'), Token(5, '-'),
                     Token(6, ')'), Token(7, '>'), Token(8, '+'), Token(9, '+'), Token(10, ':')]
    requires m3.tape.ptr + 1 < |m3.tape.cells| && m3.tape.cells[m3.tape.ptr + 1] == 0
    ensures var ctx := Ctx(None, Some([5]), ShortNoOverflow, ShortMax, false);
            Sweep(ctx, ops, 0, 7, 0, false, false, 2, m3, f)
            == Sweep(ctx, ops, 0, 10, 0, false, false, 5, m3.(tape := Store(MoveNext(m3.tape), 2)), f)
  {
    var ctx := Ctx(None, Some([5]), ShortNoOverflow, ShortMax, false);
    var m4 := m3.(tape := MoveNext(m3.tape));
    var m5 := m4.(tape := Plus(m4.tape));
    var m6 := m5.(tape := Plus(m5.tape));
    assert StepOp(ctx, ops, 0, 7, false, 2, m3, f) == Ok(Go(0, false, false, 3, m4, f));
    assert StepOp(ctx, ops, 0, 8, false, 3, m4, f) == Ok(Go(0, false, false, 4, m5, f));
    assert StepOp(ctx, ops, 0, 9, false, 4, m5, f) == Ok(Go(0, false, false, 5, m6, f));
    var rest := Sweep(ctx, ops, 0, 10, 0, false, false, 5, m6, f);
    assert Sweep(ctx, ops, 0, 9, 0, false, false, 4, m5, f) == rest;
    assert Sweep(ctx, ops, 0, 8, 0, false, false, 3, m4, f) == rest;
    StoreTwice(m4.tape, 1, 2);
  }

  /** The `:` calls the body bound to 2, which stops at the breakpoint; the stop propagates with
      the caller's frame added. */
  lemma AtCall(ops: seq<Token>, m6: Machine, f: nat)
    requires ops == [Token(0, '+'), Token(1, '+'), Token(2, '('), Token(3, '>'), Token(4, '+'), Token(5, '-'),
                     Token(6, ')'), Token(7, '>'), Token(8, '+'), Token(9, '+'), Token(10, ':')]
    requires m6.functions == map[2 := ops[3..6]] && m6.tape.ptr + 1 < |m6.tape.cells| && Current(m6.tape) == 2
    requires m6.tape.cells[m6.tape.ptr + 1] == 0 && f >= 1
    ensures var ctx := Ctx(None, Some([5]), ShortNoOverflow, ShortMax, false);
            Sweep(ctx, ops, 0, 10, 0, false, false, 5, m6, f)
            == Ok(Run(WorkingData({Success, BreakpointReached}, [ops[3..6], ops[..11]], 13, true, 8),
                      m6.(tape := Store(MoveNext(m6.tape), 1)), f - 1))
  {
    var ctx := Ctx(None, Some([5]), ShortNoOverflow, ShortMax, false);
    var body := ops[3..6];
    TraceCallBody(body, m6, f);
    assert body[..3] == body;
    var done := Run(WorkingData({Success, BreakpointReached}, [body, ops[..11]], 13, true, 8),
                    m6.(tape := Store(MoveNext(m6.tape), 1)), f - 1);
    assert m6.functions[Current(m6.tape)] == body;
    assert Core(ctx, body, 11, false, m6, f)
           == Ok(Run(WorkingData({Success, BreakpointReached}, [body], 13, true, 2), done.m, f - 1));
    assert 2 in m6.functions && !Replaying(ctx, false);
    var inner := Run(WorkingData({Success, BreakpointReached}, [body], 13, true, 2), done.m, f - 1);
    assert [body] + [ops[..11]] == [body, ops[..11]];
    assert Resume(inner, ops, 10, 0, false, false, 5) == Stop(done);
    assert Call(ctx, ops, 0, 10, false, 5, m6, f) == Ok(Stop(done));
    assert StepOp(ctx, ops, 0, 10, false, 5, m6, f) == Ok(Stop(done));
  }

  /** `TryRun` of the first step: the result reports position 13 and, in its trace, the breakpoint
      token's offset 5. */
  lemma FirstTryShort(ops: seq<Token>, state: Tape, ticks: nat)
    requires ops == [Token(0, '+'), Token(1, '+'), Token(2, '('), Token(3, '>'), Token(4, '+'), Token(5, '-'),
                     Token(6, ')'), Token(7, '>'), Token(8, '+'), Token(9, '+'), Token(10, ':')]
    requires state.ptr == 0 && |state.cells| >= 3 && state.cells[0] == 0 && state.cells[1] == 0 && state.cells[2] == 0
    requires ticks >= 2
    ensures var r := TryRunSpec(ops, "", [], state, ShortNoOverflow, ShortMax, None, ticks, 0, None, Some([5]), map[]);
            && r.Ok? && r.value.result.code == {Success, BreakpointReached, NoOutput}
            && r.value.result.breakpoint == Some(13) && r.value.result.info.Some?
            && r.value.result.info.value.offset == 5 && Current(r.value.result.tape) == 1
            && r.value.stdin == [] && r.value.result.stdout == []
  {
    var m0 := Machine(state, "", [], map[]);
    TraceStopInCall(ops, m0, ticks);
    var run := Core(Ctx(None, Some([5]), ShortNoOverflow, ShortMax, false), ops, 0, false, m0, ticks).value;
    SingleKey(run.m.functions, 2);
  }

  /** As written: the session stops with cell 2 at 1 and can continue, but the position it
      reports is 13, past the last offset 10 of its 11 operators, so `TryRun` rejects it and neither
      way of stepping the session can run. With the token's own offset, 5, both can. */
  lemma BreakpointTest2Short(a: string, b: string, s: Session, ticks: nat)
    requires a == "++(>+" && b == "-)>++:" && ticks >= 2
    requires InitializeSessionSpec([a, b], "", ShortNoOverflow, DefaultMemorySize, ShortMax, None, ticks) == Ok(s)
    ensures CanContinue(s) && s.current.code == {Success, BreakpointReached, NoOutput} && Current(s.current.tape) == 1
    ensures s.current.breakpoint == Some(13) && |s.debug.value.source| == 11
    ensures !CanStep(s, Some(s.debug.value.breakpoints)) && !CanStep(s, None)
    ensures ResumePoint(s.current) == Some(5)
    ensures CorrectedCanStep(s, Some(s.debug.value.breakpoints)) && CorrectedCanStep(s, None)
  {
    var ops := Tokenize(a + b, 0);
    ShortTokens(a, b, ops);
    TwoChunks(a, b);
    NoBracketsBalanced(a + b);
    InitializeRuns([a, b], "", ShortNoOverflow, DefaultMemorySize, ShortMax, None, ticks);
    FirstTryShort(ops, Fresh(DefaultMemorySize), ticks);
    assert s.debug == Some(DebugData(ops, [], [], None, [5]));
  }
}
