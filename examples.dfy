/** The scripts of Brainf_ck-sharp.Test/PBrainTests.cs, and the inputs on which the interpreter
    throws, worked out on the model. */
module Examples {
  import opened Common
  import opened Tapes
  import opened Tokens
  import opened Syntax
  import opened Operators
  import opened Results
  import opened EngineSpec
  import opened Runs
  import opened EngineLemmas

  /** A run of `+` to the end of the tokens, with no breakpoints and room in the cell, adds one
      per token and counts one per token. */
  lemma {:induction false} Pluses(ctx: Ctx, ops: seq<Token>, depth: nat, i: nat, reached: bool, partial: nat,
                                  m: Machine, fuel: nat)
    requires i <= |ops| && forall k :: i <= k < |ops| ==> ops[k].op == '+'
    requires ctx.breakpoints.None? && ctx.jump.None? && ctx.mode == ShortNoOverflow
    requires Current(m.tape) + |ops| - i <= ctx.limit
    ensures Sweep(ctx, ops, depth, i, 0, reached, false, partial, m, fuel)
            == Ok(Run(WorkingData({Success}, [], depth + |ops|, reached, partial + |ops| - i),
                      m.(tape := Store(m.tape, Current(m.tape) + |ops| - i)), fuel))
    decreases |ops| - i
  {
    if i == |ops| {
      assert Store(m.tape, Current(m.tape)) == m.tape;
    } else {
      var m1 := m.(tape := Plus(m.tape));
      assert StepOp(ctx, ops, depth, i, reached, partial, m, fuel) == Ok(Go(0, reached, false, partial + 1, m1, fuel));
      Pluses(ctx, ops, depth, i + 1, reached, partial + 1, m1, fuel);
      StoreTwice(m.tape, Current(m.tape) + 1, Current(m.tape) + |ops| - i);
    }
  }

  lemma {:induction false} KeysOfSingleton(k: Cell, from: nat)
    ensures KeysFrom({k}, from) == if from <= k then [k] else []
    decreases ShortMax + 1 - from
  {
    if from <= ShortMax {
      KeysOfSingleton(k, from + 1);
    }
  }

  /** A table with one function lists just that key. */
  lemma SingleKey(functions: map<Cell, seq<Token>>, k: Cell)
    requires functions.Keys == {k}
    ensures SortedKeys(functions) == [k]
  {
    KeysOfSingleton(k, 0);
  }

  /** Calling a function whose body is three `+` on a cell with room adds 3 and counts 3. */
  lemma CallPlusThree(ctx: Ctx, body: seq<Token>, depth: nat, m: Machine, fuel: nat)
    requires |body| == 3 && forall k :: 0 <= k < 3 ==> body[k].op == '+'
    requires ctx.breakpoints.None? && ctx.jump.None? && ctx.mode == ShortNoOverflow && Current(m.tape) + 3 <= ctx.limit
    ensures Core(ctx, body, depth, false, m, fuel + 1)
            == Ok(Run(WorkingData({Success}, [], depth + 3, false, 3), m.(tape := Store(m.tape, Current(m.tape) + 3)), fuel))
  {
    Pluses(ctx, body, depth, 0, false, 0, m, fuel);
  }

  /** A source made only of operators, with balanced loop brackets, runs as its own token stream. */
  lemma RunOperators(code: string, arguments: string, state: Tape, mode: OverflowMode, limit: Cell, ticks: nat)
    requires |code| > 0 && (forall k :: 0 <= k < |code| ==> IsOperator(code[k])) && LoopCheck(code).0
    ensures RunSpec(code, arguments, state, mode, limit, None, ticks)
            == match TryRunSpec(Tokenize(code, 0), arguments, [], state, mode, limit, None, ticks, 0, None, None, map[])
               case Crash(f) => Crash(f)
               case Ok(finished) => Ok(finished.result)
  {
    FilterKeepsOperators(code);
    LoopCheckSpec(code);
  }

  /** The trace of `(+++):>:` from its first token on: three passes, one for the main code and one
      for each call. */
  lemma TraceDefineAndCallTwice(ctx: Ctx, ops: seq<Token>, m0: Machine, fuel: nat)
    requires ctx == Ctx(None, None, ShortNoOverflow, ShortMax, false)
    requires ops == [Token(0, '('), Token(1, '+'), Token(2, '+'), Token(3, '+'), Token(4, ')'), Token(5, ':'),
                     Token(6, '>'), Token(7, ':')]
    requires m0.functions == map[] && |m0.tape.cells| >= 2 && m0.tape.ptr == 0
    requires m0.tape.cells[0] == 0 && m0.tape.cells[1] == 0
    requires fuel >= 3
    ensures Core(ctx, ops, 0, false, m0, fuel).Ok?
    ensures var run := Core(ctx, ops, 0, false, m0, fuel).value;
            && run.data == WorkingData({Success}, [], 8, false, 9)
            && run.m == m0.(tape := TapeValue(m0.tape.cells[0 := 3][1 := 3], 1), functions := map[0 := ops[1..4]])
  {
    var body := ops[1..4];
    assert NextClose(ops, 4) == Some(4);
    assert NextClose(ops, 3) == Some(4);
    assert NextClose(ops, 2) == Some(4);
    assert NextClose(ops, 1) == Some(4);
    var f := fuel - 1;
    var m1 := m0.(functions := map[0 := body]);
    assert StepOp(ctx, ops, 0, 0, false, 0, m0, f) == Ok(Go(4, false, false, 0, m1, f));
    CallPlusThree(ctx, body, 6, m1, f - 1);
    var m2 := m1.(tape := Store(m1.tape, 3));
    assert StepOp(ctx, ops, 0, 5, false, 0, m1, f) == Ok(Go(0, false, false, 4, m2, f - 1));
    var m3 := m2.(tape := MoveNext(m2.tape));
    assert StepOp(ctx, ops, 0, 6, false, 4, m2, f - 1) == Ok(Go(0, false, false, 5, m3, f - 1));
    CallPlusThree(ctx, body, 8, m3, f - 2);
    var m4 := m3.(tape := Store(m3.tape, 3));
    assert StepOp(ctx, ops, 0, 7, false, 5, m3, f - 1) == Ok(Go(0, false, false, 9, m4, f - 2));
    var done := Ok(Run(WorkingData({Success}, [], 8, false, 9), m4, f - 2));
    assert Sweep(ctx, ops, 0, 8, 0, false, false, 9, m4, f - 2) == done;
    assert Sweep(ctx, ops, 0, 7, 0, false, false, 5, m3, f - 1) == done;
    assert Sweep(ctx, ops, 0, 6, 0, false, false, 4, m2, f - 1) == done;
    assert Sweep(ctx, ops, 0, 5, 0, false, false, 0, m1, f) == done;
    assert Sweep(ctx, ops, 0, 1, 4, false, false, 0, m1, f) == done;
    assert Sweep(ctx, ops, 0, 0, 0, false, false, 0, m0, f) == done;
    assert m4.tape.cells == m0.tape.cells[0 := 3][1 := 3];
  }

  /** A finished core run with no failure trace and one function bound gives an `InterpreterResult`. */
  lemma FinishOneFunction(executable: seq<Token>, data: WorkingData, m: Machine, k: Cell, body: seq<Token>)
    requires data.frames == [] && m.functions == map[k := body] && body != []
    ensures Finish(executable, data, m, 0).Ok?
  {
    SingleKey(m.functions, k);
  }

  lemma DefineAndCallTwiceTokens()
    ensures LoopCheck("(+++):>:").0
    ensures forall k :: 0 <= k < |"(+++):>:"| ==> IsOperator("(+++):>:"[k])
    ensures Tokenize("(+++):>:", 0) == [Token(0, '('), Token(1, '+'), Token(2, '+'), Token(3, '+'), Token(4, ')'),
                                       Token(5, ':'), Token(6, '>'), Token(7, ':')]
  {
  }

  /** `TryRun` on the tokens of `(+++):>:`. */
  lemma TryDefineAndCallTwice(ops: seq<Token>, state: Tape, ticks: nat)
    requires ops == [Token(0, '('), Token(1, '+'), Token(2, '+'), Token(3, '+'), Token(4, ')'), Token(5, ':'),
                     Token(6, '>'), Token(7, ':')]
    requires |state.cells| >= 2 && state.ptr == 0 && state.cells[0] == 0 && state.cells[1] == 0
    requires ticks >= 3
    ensures var r := TryRunSpec(ops, "", [], state, ShortNoOverflow, ShortMax, None, ticks, 0, None, None, map[]);
            && r.Ok? && r.value.result.code == {Success, NoOutput} && r.value.result.operations == 9
            && r.value.result.tape == TapeValue(state.cells[0 := 3][1 := 3], 1)
  {
    var ctx := Ctx(None, None, ShortNoOverflow, ShortMax, false);
    var m0 := Machine(state, "", [], map[]);
    TraceDefineAndCallTwice(ctx, ops, m0, ticks);
    var run := Core(ctx, ops, 0, false, m0, ticks).value;
    FinishOneFunction(ops, run.data, run.m, 0, ops[1..4]);
  }

  /** `(+++):>:` defines a function adding 3, calls it on cell 0 and again on cell 1: both cells
      end at 3 after 9 operations, with no output (PBrainTests.cs:13-22). Any budget of at least
      three passes is enough. */
  lemma DefineAndCallTwice(ticks: nat)
    requires ticks >= 3
    ensures var r := RunSpec("(+++):>:", "", Fresh(DefaultMemorySize), ShortNoOverflow, ShortMax, None, ticks);
            && r.Ok? && r.value.code == {Success, NoOutput} && |r.value.tape.cells| == DefaultMemorySize
            && r.value.tape.cells[0] == 3 && r.value.tape.cells[1] == 3 && r.value.operations == 9
  {
    var state := Fresh(DefaultMemorySize);
    DefineAndCallTwiceTokens();
    RunOperators("(+++):>:", "", state, ShortNoOverflow, ShortMax, ticks);
    TryDefineAndCallTwice(Tokenize("(+++):>:", 0), state, ticks);
  }

  // ---------------------------------------------------------------------------------------------
  // `+(,[>+<-]>.)>+:` with input `a` (PBrainTests.cs:24-35)

  /** Moving one unit from the current cell into the next one. */
  function Moved(t: Tape): (r: Tape)
    requires t.ptr + 1 < |t.cells| && Current(t) > 0 && t.cells[t.ptr + 1] < ShortMax
  {
    TapeValue(t.cells[t.ptr + 1 := t.cells[t.ptr + 1] + 1][t.ptr := Current(t) - 1], t.ptr)
  }

  /** The first four tokens of `>+<-]` move one unit and count 4. */
  lemma TransferPass(ctx: Ctx, body: seq<Token>, depth: nat, reached: bool, repeat: bool, partial: nat, m: Machine, f: nat)
    requires |body| == 5 && body[0].op == '>' && body[1].op == '+' && body[2].op == '<' && body[3].op == '-'
    requires ctx.breakpoints.None? && ctx.jump.None? && ctx.mode == ShortNoOverflow
    requires m.tape.ptr + 1 < |m.tape.cells| && Current(m.tape) > 0 && m.tape.cells[m.tape.ptr + 1] < ctx.limit
    ensures Sweep(ctx, body, depth, 0, 0, reached, repeat, partial, m, f)
            == Sweep(ctx, body, depth, 4, 0, reached, repeat, partial + 4, m.(tape := Moved(m.tape)), f)
  {
    var m1 := m.(tape := MoveNext(m.tape));
    var m2 := m1.(tape := Plus(m1.tape));
    var m3 := m2.(tape := MoveBack(m2.tape));
    var m4 := m3.(tape := Minus(m3.tape));
    assert StepOp(ctx, body, depth, 0, reached, partial, m, f) == Ok(Go(0, reached, false, partial + 1, m1, f));
    assert StepOp(ctx, body, depth, 1, reached, partial + 1, m1, f) == Ok(Go(0, reached, false, partial + 2, m2, f));
    assert StepOp(ctx, body, depth, 2, reached, partial + 2, m2, f) == Ok(Go(0, reached, false, partial + 3, m3, f));
    assert StepOp(ctx, body, depth, 3, reached, partial + 3, m3, f) == Ok(Go(0, reached, false, partial + 4, m4, f));
    assert m4.tape == Moved(m.tape);
    assert Sweep(ctx, body, depth, 3, 0, reached, repeat, partial + 3, m3, f)
           == Sweep(ctx, body, depth, 4, 0, reached, repeat, partial + 4, m4, f);
    assert Sweep(ctx, body, depth, 2, 0, reached, repeat, partial + 2, m2, f)
           == Sweep(ctx, body, depth, 3, 0, reached, repeat, partial + 3, m3, f);
    assert Sweep(ctx, body, depth, 1, 0, reached, repeat, partial + 1, m1, f)
           == Sweep(ctx, body, depth, 2, 0, reached, repeat, partial + 2, m2, f);
    assert Sweep(ctx, body, depth, 0, 0, reached, repeat, partial, m, f)
           == Sweep(ctx, body, depth, 1, 0, reached, repeat, partial + 1, m1, f);
  }

  /** The loop body `>+<-]` on a cell holding `v > 0` moves `v` into the next cell in `v` passes,
      counting 5 per pass. */
  lemma {:induction false} TransferLoop(ctx: Ctx, body: seq<Token>, depth: nat, reached: bool, repeat: bool,
                                        partial: nat, m: Machine, fuel: nat)
    requires |body| == 5 && body[0].op == '>' && body[1].op == '+' && body[2].op == '<' && body[3].op == '-'
    requires body[4].op == ']'
    requires ctx.breakpoints.None? && ctx.jump.None? && ctx.mode == ShortNoOverflow
    requires m.tape.ptr + 1 < |m.tape.cells| && Current(m.tape) > 0 && fuel >= Current(m.tape)
    requires m.tape.cells[m.tape.ptr + 1] + Current(m.tape) <= ctx.limit
    ensures Iter(ctx, body, depth, reached, repeat, partial, m, fuel)
            == Ok(Run(WorkingData({Success}, [], depth + 4, reached, partial + 5 * Current(m.tape)),
                      m.(tape := TapeValue(m.tape.cells[m.tape.ptr := 0][m.tape.ptr + 1 := m.tape.cells[m.tape.ptr + 1] + Current(m.tape)],
                                           m.tape.ptr)),
                      fuel - Current(m.tape)))
    decreases Current(m.tape)
  {
    var v := Current(m.tape);
    var p := m.tape.ptr;
    var w := m.tape.cells[p + 1];
    var f := fuel - 1;
    var m4 := m.(tape := Moved(m.tape));
    TransferPass(ctx, body, depth, reached, repeat, partial, m, f);
    if v == 1 {
      assert StepOp(ctx, body, depth, 4, reached, partial + 4, m4, f)
             == Ok(Stop(Run(WorkingData({Success}, [], depth + 4, reached, partial + 5), m4, f)));
      assert m4.tape.cells == m.tape.cells[p := 0][p + 1 := w + v];
    } else {
      assert StepOp(ctx, body, depth, 4, reached, partial + 4, m4, f) == Ok(Go(0, reached, true, partial + 5, m4, f));
      assert Sweep(ctx, body, depth, 5, 0, reached, true, partial + 5, m4, f)
             == Iter(ctx, body, depth, reached, true, partial + 5, m4, f);
      TransferLoop(ctx, body, depth, reached, true, partial + 5, m4, f);
      assert m4.tape.cells[p := 0][p + 1 := (w + 1) + (v - 1)] == m.tape.cells[p := 0][p + 1 := w + v];
    }
  }

  /** The body `,[>+<-]>.` called at depth 15 with `a` waiting: reads 97, moves it one cell right,
      steps there and prints it. */
  lemma TraceCopyBody(ctx: Ctx, body: seq<Token>, m: Machine, fuel: nat)
    requires ctx == Ctx(None, None, ShortNoOverflow, ShortMax, false)
    requires body == [Token(2, ','), Token(3, '['), Token(4, '>'), Token(5, '+'), Token(6, '<'), Token(7, '-'),
                      Token(8, ']'), Token(9, '>'), Token(10, '.')]
    requires m.stdin == "a" && m.stdout == [] && m.tape.ptr + 1 < |m.tape.cells| && m.tape.cells[m.tape.ptr + 1] == 0
    requires fuel >= 98
    ensures Core(ctx, body, 15, false, m, fuel)
            == Ok(Run(WorkingData({Success}, [], 24, false, 489),
                      m.(stdin := [], stdout := "a",
                         tape := TapeValue(m.tape.cells[m.tape.ptr := 0][m.tape.ptr + 1 := 97], m.tape.ptr + 1)),
                      fuel - 98))
  {
    var f := fuel - 1;
    var p := m.tape.ptr;
    var m5 := m.(stdin := [], tape := Store(m.tape, 97));
    assert m.stdin[0] == 'a' && m.stdin[1..] == [] && 'a' as int == 97;
    assert InputValue(ShortNoOverflow, 'a') == Some(97);
    assert StepOp(ctx, body, 15, 0, false, 0, m, f) == Ok(Go(0, false, false, 1, m5, f));
    var m6 := m5.(tape := TapeValue(m.tape.cells[p := 0][p + 1 := 97], p));
    assert m5.tape.cells[p := 0][p + 1 := 97] == m.tape.cells[p := 0][p + 1 := 97];
    CopyLoopStep(ctx, body, m5, m6, f);
    var m7 := m6.(tape := MoveNext(m6.tape));
    assert StepOp(ctx, body, 15, 7, false, 487, m6, f - 97) == Ok(Go(0, false, false, 488, m7, f - 97));
    var m8 := m7.(stdout := [CellChar(97)]);
    assert Current(m7.tape) == 97;
    assert m7.stdout + [CellChar(Current(m7.tape))] == [CellChar(97)];
    assert StepOp(ctx, body, 15, 8, false, 488, m7, f - 97) == Ok(Go(0, false, false, 489, m8, f - 97));
    var done := Ok(Run(WorkingData({Success}, [], 24, false, 489), m8, f - 97));
    assert Sweep(ctx, body, 15, 9, 0, false, false, 489, m8, f - 97) == done;
    assert Sweep(ctx, body, 15, 8, 0, false, false, 488, m7, f - 97) == done;
    assert Sweep(ctx, body, 15, 7, 0, false, false, 487, m6, f - 97) == done;
    assert Sweep(ctx, body, 15, 2, 5, false, false, 487, m6, f - 97) == done;
    assert Sweep(ctx, body, 15, 1, 0, false, false, 1, m5, f) == done;
    assert Sweep(ctx, body, 15, 0, 0, false, false, 0, m, f) == done;
    assert CellChar(97) == 'a';
  }

  /** The `[` of the copied function's body runs the transfer loop to its end, 97 times. */
  lemma CopyLoopStep(ctx: Ctx, body: seq<Token>, m5: Machine, m6: Machine, f: nat)
    requires ctx == Ctx(None, None, ShortNoOverflow, ShortMax, false)
    requires body == [Token(2, ','), Token(3, '['), Token(4, '>'), Token(5, '+'), Token(6, '<'), Token(7, '-'),
                      Token(8, ']'), Token(9, '>'), Token(10, '.')]
    requires m5.tape.ptr + 1 < |m5.tape.cells| && Current(m5.tape) == 97 && m5.tape.cells[m5.tape.ptr + 1] == 0
    requires f >= 97
    requires m6 == m5.(tape := TapeValue(m5.tape.cells[m5.tape.ptr := 0][m5.tape.ptr + 1 := 97], m5.tape.ptr))
    ensures StepOp(ctx, body, 15, 1, false, 1, m5, f) == Ok(Go(5, false, false, 487, m6, f - 97))
  {
    var code := OpsOf(body[2..]);
    assert code == ">+<-]>.";
    assert LoopEnd(code, 4, 0) == Some(4);
    assert LoopEnd(code, 3, 0) == Some(4);
    assert LoopEnd(code, 2, 0) == Some(4);
    assert LoopEnd(code, 1, 0) == Some(4);
    assert LoopEnd(code, 0, 0) == Some(4);
    var loop := body[2..7];
    assert InnerLoop(body, 1) == Some(loop);
    TransferLoop(ctx, loop, 17, false, false, 0, m5, f);
    assert Core(ctx, loop, 17, false, m5, f) == Ok(Run(WorkingData({Success}, [], 21, false, 485), m6, f - 97));
  }

  /** The `(` of `+(,[>+<-]>.)>+:` binds the nine tokens up to the `)` to the current cell. */
  lemma CopyDefine(ctx: Ctx, ops: seq<Token>, m: Machine, fuel: nat)
    requires ctx == Ctx(None, None, ShortNoOverflow, ShortMax, false)
    requires ops == [Token(0, '+'), Token(1, '('), Token(2, ','), Token(3, '['), Token(4, '>'), Token(5, '+'),
                     Token(6, '<'), Token(7, '-'), Token(8, ']'), Token(9, '>'), Token(10, '.'), Token(11, ')'),
                     Token(12, '>'), Token(13, '+'), Token(14, ':')]
    requires m.functions == map[]
    ensures StepOp(ctx, ops, 0, 1, false, 1, m, fuel)
            == Ok(Go(10, false, false, 1, m.(functions := map[Current(m.tape) := ops[2..11]]), fuel))
  {
    assert NextClose(ops, 11) == Some(11);
    assert NextClose(ops, 10) == Some(11);
    assert NextClose(ops, 9) == Some(11);
    assert NextClose(ops, 8) == Some(11);
    assert NextClose(ops, 7) == Some(11);
    assert NextClose(ops, 6) == Some(11);
    assert NextClose(ops, 5) == Some(11);
    assert NextClose(ops, 4) == Some(11);
    assert NextClose(ops, 3) == Some(11);
    assert NextClose(ops, 2) == Some(11);
  }

  /** The closing `:` of `+(,[>+<-]>.)>+:` runs the bound body on cell 1. */
  lemma CopyCall(ctx: Ctx, ops: seq<Token>, m: Machine, fuel: nat)
    requires ctx == Ctx(None, None, ShortNoOverflow, ShortMax, false)
    requires ops == [Token(0, '+'), Token(1, '('), Token(2, ','), Token(3, '['), Token(4, '>'), Token(5, '+'),
                     Token(6, '<'), Token(7, '-'), Token(8, ']'), Token(9, '>'), Token(10, '.'), Token(11, ')'),
                     Token(12, '>'), Token(13, '+'), Token(14, ':')]
    requires m.functions == map[1 := ops[2..11]] && m.stdin == "a" && m.stdout == []
    requires m.tape.ptr == 1 && |m.tape.cells| >= 3 && m.tape.cells[1] == 1 && m.tape.cells[2] == 0
    requires fuel >= 98
    ensures StepOp(ctx, ops, 0, 14, false, 3, m, fuel)
            == Ok(Go(0, false, false, 493, m.(stdin := [], stdout := "a",
                                               tape := TapeValue(m.tape.cells[1 := 0][2 := 97], 2)), fuel - 98))
  {
    var body := ops[2..11];
    assert body == [Token(2, ','), Token(3, '['), Token(4, '>'), Token(5, '+'), Token(6, '<'), Token(7, '-'),
                    Token(8, ']'), Token(9, '>'), Token(10, '.')];
    TraceCopyBody(ctx, body, m, fuel);
  }

  /** The trace of `+(,[>+<-]>.)>+:`: bind the body to key 1, step right, make the cell 1 and call. */
  lemma TraceCopyScript(ctx: Ctx, ops: seq<Token>, m0: Machine, fuel: nat)
    requires ctx == Ctx(None, None, ShortNoOverflow, ShortMax, false)
    requires ops == [Token(0, '+'), Token(1, '('), Token(2, ','), Token(3, '['), Token(4, '>'), Token(5, '+'),
                     Token(6, '<'), Token(7, '-'), Token(8, ']'), Token(9, '>'), Token(10, '.'), Token(11, ')'),
                     Token(12, '>'), Token(13, '+'), Token(14, ':')]
    requires m0.functions == map[] && m0.stdin == "a" && m0.stdout == []
    requires |m0.tape.cells| >= 3 && m0.tape.ptr == 0
    requires m0.tape.cells[0] == 0 && m0.tape.cells[1] == 0 && m0.tape.cells[2] == 0
    requires fuel >= 99
    ensures Core(ctx, ops, 0, false, m0, fuel).Ok?
    ensures var run := Core(ctx, ops, 0, false, m0, fuel).value;
            && run.data == WorkingData({Success}, [], 15, false, 493)
            && run.m == Machine(TapeValue(m0.tape.cells[0 := 1][1 := 0][2 := 97], 2), [], "a", map[1 := ops[2..11]])
  {
    var f := fuel - 1;
    var m1 := m0.(tape := Plus(m0.tape));
    assert StepOp(ctx, ops, 0, 0, false, 0, m0, f) == Ok(Go(0, false, false, 1, m1, f));
    var body := ops[2..11];
    CopyDefine(ctx, ops, m1, f);
    var m2 := m1.(functions := map[1 := body]);
    var m3 := m2.(tape := MoveNext(m2.tape));
    assert StepOp(ctx, ops, 0, 12, false, 1, m2, f) == Ok(Go(0, false, false, 2, m3, f));
    var m4 := m3.(tape := Plus(m3.tape));
    assert StepOp(ctx, ops, 0, 13, false, 2, m3, f) == Ok(Go(0, false, false, 3, m4, f));
    CopyCall(ctx, ops, m4, f);
    var m9 := m4.(stdin := [], stdout := "a", tape := TapeValue(m4.tape.cells[1 := 0][2 := 97], 2));
    assert StepOp(ctx, ops, 0, 14, false, 3, m4, f) == Ok(Go(0, false, false, 493, m9, f - 98));
    var done := Ok(Run(WorkingData({Success}, [], 15, false, 493), m9, f - 98));
    assert Sweep(ctx, ops, 0, 15, 0, false, false, 493, m9, f - 98) == done;
    assert Sweep(ctx, ops, 0, 14, 0, false, false, 3, m4, f) == done;
    assert Sweep(ctx, ops, 0, 13, 0, false, false, 2, m3, f) == done;
    assert Sweep(ctx, ops, 0, 12, 0, false, false, 1, m2, f) == done;
    assert Sweep(ctx, ops, 0, 2, 10, false, false, 1, m2, f) == done;
    assert Sweep(ctx, ops, 0, 1, 0, false, false, 1, m1, f) == done;
    assert Sweep(ctx, ops, 0, 0, 0, false, false, 0, m0, f) == done;
    assert m9.tape.cells == m0.tape.cells[0 := 1][1 := 0][2 := 97];
  }

  lemma CopyTokens()
    ensures LoopCheck("+(,[>+<-]>.)>+:").0
    ensures forall k :: 0 <= k < |"+(,[>+<-]>.)>+:"| ==> IsOperator("+(,[>+<-]>.)>+:"[k])
    ensures Tokenize("+(,[>+<-]>.)>+:", 0)
            == [Token(0, '+'), Token(1, '('), Token(2, ','), Token(3, '['), Token(4, '>'), Token(5, '+'),
                Token(6, '<'), Token(7, '-'), Token(8, ']'), Token(9, '>'), Token(10, '.'), Token(11, ')'),
                Token(12, '>'), Token(13, '+'), Token(14, ':')]
  {
    var code := "+(,[>+<-]>.)>+:";
    assert LoopScan(code, 15, 0, 3) == (true, 0);
    assert LoopScan(code, 14, 0, 3) == (true, 0);
    assert LoopScan(code, 13, 0, 3) == (true, 0);
    assert LoopScan(code, 12, 0, 3) == (true, 0);
    assert LoopScan(code, 11, 0, 3) == (true, 0);
    assert LoopScan(code, 10, 0, 3) == (true, 0);
    assert LoopScan(code, 9, 0, 3) == (true, 0);
    assert LoopScan(code, 8, 1, 3) == (true, 0);
    assert LoopScan(code, 7, 1, 3) == (true, 0);
    assert LoopScan(code, 6, 1, 3) == (true, 0);
    assert LoopScan(code, 5, 1, 3) == (true, 0);
    assert LoopScan(code, 4, 1, 3) == (true, 0);
    assert LoopScan(code, 3, 0, 0) == (true, 0);
    assert LoopScan(code, 2, 0, 0) == (true, 0);
    assert LoopScan(code, 1, 0, 0) == (true, 0);
    assert LoopScan(code, 0, 0, 0) == (true, 0);
  }

  /** `TryRun` on the tokens of `+(,[>+<-]>.)>+:` with `a` queued. */
  lemma TryCopy(ops: seq<Token>, state: Tape, ticks: nat)
    requires ops == [Token(0, '+'), Token(1, '('), Token(2, ','), Token(3, '['), Token(4, '>'), Token(5, '+'),
                     Token(6, '<'), Token(7, '-'), Token(8, ']'), Token(9, '>'), Token(10, '.'), Token(11, ')'),
                     Token(12, '>'), Token(13, '+'), Token(14, ':')]
    requires |state.cells| >= 3 && state.ptr == 0 && state.cells[0] == 0 && state.cells[1] == 0 && state.cells[2] == 0
    requires ticks >= 99
    ensures var r := TryRunSpec(ops, "a", [], state, ShortNoOverflow, ShortMax, None, ticks, 0, None, None, map[]);
            && r.Ok? && r.value.result.code == {Success, TextOutput} && r.value.result.stdout == "a"
            && r.value.result.operations == 493
            && r.value.result.tape == TapeValue(state.cells[0 := 1][1 := 0][2 := 97], 2)
  {
    var ctx := Ctx(None, None, ShortNoOverflow, ShortMax, false);
    var m0 := Machine(state, "a", [], map[]);
    TraceCopyScript(ctx, ops, m0, ticks);
    var run := Core(ctx, ops, 0, false, m0, ticks).value;
    FinishOneFunction(ops, run.data, run.m, 1, ops[2..11]);
  }

  /** `+(,[>+<-]>.)>+:` with input `a` defines a function that reads a character, moves it one
      cell to the right and prints it, then calls it on cell 1: it prints `a` and leaves 97 in
      cell 2, after 8 operations plus 5 for each of the 97 loop passes (PBrainTests.cs:24-35). */
  lemma CopyInput(ticks: nat)
    requires ticks >= 99
    ensures var r := RunSpec("+(,[>+<-]>.)>+:", "a", Fresh(DefaultMemorySize), ShortNoOverflow, ShortMax, None, ticks);
            && r.Ok? && r.value.code == {Success, TextOutput} && r.value.stdout == "a"
            && |r.value.tape.cells| == DefaultMemorySize && r.value.tape.ptr == 2
            && r.value.tape.cells[2] == 97 && r.value.operations == 8 + 97 * 5
  {
    var state := Fresh(DefaultMemorySize);
    assert |state.cells| == DefaultMemorySize && state.ptr == 0;
    assert state.cells[0] == 0 && state.cells[1] == 0 && state.cells[2] == 0;
    CopyInputOn("+(,[>+<-]>.)>+:", state, ticks);
  }

  lemma CopyInputOn(source: string, state: Tape, ticks: nat)
    requires source == "+(,[>+<-]>.)>+:" && ticks >= 99
    requires |state.cells| >= 3 && state.ptr == 0 && state.cells[0] == 0 && state.cells[1] == 0 && state.cells[2] == 0
    ensures var r := RunSpec(source, "a", state, ShortNoOverflow, ShortMax, None, ticks);
            && r.Ok? && r.value.code == {Success, TextOutput} && r.value.stdout == "a"
            && r.value.tape == TapeValue(state.cells[0 := 1][1 := 0][2 := 97], 2) && r.value.operations == 8 + 97 * 5
  {
    CopyTokens();
    RunOperators(source, "a", state, ShortNoOverflow, ShortMax, ticks);
    TryCopy(Tokenize(source, 0), state, ticks);
  }

  // ---------------------------------------------------------------------------------------------
  // Function declarations the syntax check lets through

  /** `TryRun` on the tokens of `+(`. */
  lemma TryUnclosedFunction(ops: seq<Token>, state: Tape, ticks: nat)
    requires ops == [Token(0, '+'), Token(1, '(')]
    requires |state.cells| > 0 && state.ptr == 0 && state.cells[0] == 0 && ticks >= 1
    ensures TryRunSpec(ops, "", [], state, ShortNoOverflow, ShortMax, None, ticks, 0, None, None, map[])
            == Crash(MalformedFunction)
  {
    var ctx := Ctx(None, None, ShortNoOverflow, ShortMax, false);
    var m0 := Machine(state, "", [], map[]);
    var m1 := m0.(tape := Plus(state));
    assert StepOp(ctx, ops, 0, 0, false, 0, m0, ticks - 1) == Ok(Go(0, false, false, 1, m1, ticks - 1));
    assert NextClose(ops, 2) == None;
    assert StepOp(ctx, ops, 0, 1, false, 1, m1, ticks - 1) == Crash(MalformedFunction);
    assert Sweep(ctx, ops, 0, 1, 0, false, false, 1, m1, ticks - 1) == Crash(MalformedFunction);
    assert Sweep(ctx, ops, 0, 0, 0, false, false, 0, m0, ticks - 1) == Crash(MalformedFunction);
    assert Core(ctx, ops, 0, false, m0, ticks) == Crash(MalformedFunction);
  }

  /** `+(` passes the syntax check (`Syntax.UnclosedFunctionAccepted`), but running it throws at
      the `(`: no `)` follows it, so there is no body to extract. */
  lemma UnclosedFunctionCrashes(ticks: nat)
    requires ticks >= 1
    ensures RunSpec("+(", "", Fresh(DefaultMemorySize), ShortNoOverflow, ShortMax, None, ticks) == Crash(MalformedFunction)
  {
    var source := "+(";
    var state := Fresh(DefaultMemorySize);
    assert LoopScan(source, 2, 0, 0) == (true, 0);
    assert LoopScan(source, 1, 0, 0) == (true, 0);
    RunOperators(source, "", state, ShortNoOverflow, ShortMax, ticks);
    var ops := Tokenize(source, 0);
    assert ops == [Token(0, '+'), Token(1, '(')];
    TryUnclosedFunction(ops, state, ticks);
  }

  /** `TryRun` on the tokens of `()`. */
  lemma TryEmptyFunction(ops: seq<Token>, state: Tape, ticks: nat)
    requires ops == [Token(0, '('), Token(1, ')')]
    requires |state.cells| > 0 && state.ptr == 0 && state.cells[0] == 0 && ticks >= 1
    ensures TryRunSpec(ops, "", [], state, ShortNoOverflow, ShortMax, None, ticks, 0, None, None, map[])
            == Crash(EmptyFunctionBody)
  {
    var ctx := Ctx(None, None, ShortNoOverflow, ShortMax, false);
    var m0 := Machine(state, "", [], map[]);
    var m1 := m0.(functions := map[0 := []]);
    assert NextClose(ops, 1) == Some(1);
    assert StepOp(ctx, ops, 0, 0, false, 0, m0, ticks - 1) == Ok(Go(1, false, false, 0, m1, ticks - 1));
    var done := Ok(Run(WorkingData({Success}, [], 2, false, 0), m1, ticks - 1));
    assert Sweep(ctx, ops, 0, 2, 0, false, false, 0, m1, ticks - 1) == done;
    assert Sweep(ctx, ops, 0, 1, 1, false, false, 0, m1, ticks - 1) == done;
    assert Sweep(ctx, ops, 0, 0, 0, false, false, 0, m0, ticks - 1) == done;
    assert Core(ctx, ops, 0, false, m0, ticks) == done;
    SingleKey(m1.functions, 0);
    assert Definitions(m1.functions) == Crash(EmptyFunctionBody);
  }

  /** `()` binds an empty body to key 0 and finishes its pass, but building the result's function
      list then throws on the empty body. */
  lemma EmptyFunctionCrashes(ticks: nat)
    requires ticks >= 1
    ensures RunSpec("()", "", Fresh(DefaultMemorySize), ShortNoOverflow, ShortMax, None, ticks) == Crash(EmptyFunctionBody)
  {
    var source := "()";
    var state := Fresh(DefaultMemorySize);
    assert LoopScan(source, 2, 0, 0) == (true, 0);
    assert LoopScan(source, 1, 0, 0) == (true, 0);
    RunOperators(source, "", state, ShortNoOverflow, ShortMax, ticks);
    var ops := Tokenize(source, 0);
    assert ops == [Token(0, '('), Token(1, ')')];
    TryEmptyFunction(ops, state, ticks);
  }
}
