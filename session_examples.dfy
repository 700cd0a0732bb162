/** A two-chunk debugging session worked out on the model: `["++", "-"]` stops at the start of the
    second chunk, and continuing replays the first chunk without effect before running the rest. */
module SessionExamples {
  import opened Common
  import opened Operators
  import opened Brackets
  import opened Tapes
  import opened Tokens
  import opened Syntax
  import opened Results
  import opened EngineSpec
  import opened Sessions

  lemma ChunkTokens()
    ensures Filtered(["++", "-"]) == ["++", "-"]
    ensures Concat(["++", "-"]) == "++-" && Breakpoints(["++", "-"]) == [2]
    ensures Tokenize("++-", 0) == [Token(0, '+'), Token(1, '+'), Token(2, '-')]
    ensures Balanced(OpsOf(Tokenize("++-", 0)))
  {
    FilterKeepsOperators("++");
    FilterKeepsOperators("-");
    var chunks := ["++", "-"];
    assert chunks[..1] == ["++"] && ["++"][..0] == [];
    assert Concat(chunks[..1]) == "++";
    assert LoopScan("++-", 3, 0, 0) == (true, 0);
    assert LoopScan("++-", 2, 0, 0) == (true, 0);
    assert LoopScan("++-", 1, 0, 0) == (true, 0);
    assert LoopScan("++-", 0, 0, 0) == (true, 0);
    LoopCheckSpec("++-");
  }

  /** The first run stops before the `-` at offset 2, having counted the two `+`. */
  lemma FirstRun(ops: seq<Token>, state: Tape, ticks: nat)
    requires ops == [Token(0, '+'), Token(1, '+'), Token(2, '-')]
    requires |state.cells| > 0 && state.ptr == 0 && state.cells[0] == 0 && ticks >= 1
    ensures var r := TryRunSpec(ops, "", [], state, ShortNoOverflow, ShortMax, None, ticks, 0, None, Some([2]), map[]);
            && r.Ok? && r.value.stdin == [] && r.value.result.tape == Store(state, 2)
            && r.value.result.code == {Success, BreakpointReached, NoOutput}
            && r.value.result.breakpoint == Some(2) && r.value.result.operations == 2
            && r.value.result.stdout == [] && r.value.result.functions == []
  {
    var ctx := Ctx(None, Some([2]), ShortNoOverflow, ShortMax, false);
    var f := ticks - 1;
    var m0 := Machine(state, "", [], map[]);
    var m1 := m0.(tape := Plus(m0.tape));
    var m2 := m1.(tape := Plus(m1.tape));
    assert StepOp(ctx, ops, 0, 0, false, 0, m0, f) == Ok(Go(0, false, false, 1, m1, f));
    assert StepOp(ctx, ops, 0, 1, false, 1, m1, f) == Ok(Go(0, false, false, 2, m2, f));
    var done := Ok(Run(WorkingData({Success, BreakpointReached}, [ops[..3]], 2, true, 2), m2, f));
    assert Sweep(ctx, ops, 0, 2, 0, false, false, 2, m2, f) == done;
    assert Sweep(ctx, ops, 0, 1, 0, false, false, 1, m1, f) == done;
    assert Sweep(ctx, ops, 0, 0, 0, false, false, 0, m0, f) == done;
    assert Core(ctx, ops, 0, false, m0, ticks) == done;
    assert m2.tape == Store(state, 2);
    NoKeys(m0.functions);
  }

  lemma NoKeys(functions: map<Cell, seq<Token>>)
    requires functions == map[]
    ensures SortedKeys(functions) == []
  {
    assert functions.Keys == {};
    KeysEmpty(0);
  }

  lemma {:induction false} KeysEmpty(from: nat)
    ensures KeysFrom({}, from) == []
    decreases ShortMax + 1 - from
  {
    if from <= ShortMax {
      KeysEmpty(from + 1);
    }
  }

  /** The second run replays `+ +` as no-ops up to offset 2, then runs the `-`. */
  lemma SecondRun(ops: seq<Token>, tape: Tape, ticks: nat)
    requires ops == [Token(0, '+'), Token(1, '+'), Token(2, '-')]
    requires |tape.cells| > 0 && tape.ptr == 0 && tape.cells[0] == 2 && ticks >= 1
    ensures var r := TryRunSpec(ops, "", [], tape, ShortNoOverflow, ShortMax, None, ticks, 2, Some(2), Some([2]), map[]);
            && r.Ok? && r.value.result.tape == Store(tape, 1) && r.value.result.code == {Success, NoOutput}
            && r.value.result.breakpoint == None && r.value.result.operations == 3
  {
    var ctx := Ctx(Some(2), Some([2]), ShortNoOverflow, ShortMax, false);
    var f := ticks - 1;
    var m0 := Machine(tape, "", [], map[]);
    var m1 := m0.(tape := Minus(m0.tape));
    assert StepOp(ctx, ops, 0, 0, false, 0, m0, f) == Ok(Go(0, false, false, 0, m0, f));
    assert StepOp(ctx, ops, 0, 1, false, 0, m0, f) == Ok(Go(0, false, false, 0, m0, f));
    assert StepOp(ctx, ops, 0, 2, true, 0, m0, f) == Ok(Go(0, true, false, 1, m1, f));
    var done := Ok(Run(WorkingData({Success}, [], 3, true, 1), m1, f));
    assert Sweep(ctx, ops, 0, 3, 0, true, false, 1, m1, f) == done;
    assert Sweep(ctx, ops, 0, 2, 0, false, false, 0, m0, f) == done;
    assert Sweep(ctx, ops, 0, 1, 0, false, false, 0, m0, f) == done;
    assert Sweep(ctx, ops, 0, 0, 0, false, false, 0, m0, f) == done;
    assert Core(ctx, ops, 0, false, m0, ticks) == done;
    assert m1.tape == Store(tape, 1);
    NoKeys(m0.functions);
  }

  /** Starting a session on `["++", "-"]` stops at the breakpoint placed at the second chunk, with
      cell 0 at 2 and two operations counted. */
  lemma StartSession(ticks: nat)
    requires ticks >= 1
    ensures var r := InitializeSessionSpec(["++", "-"], "", ShortNoOverflow, DefaultMemorySize, ShortMax, None, ticks);
            && r.Ok? && CanContinue(r.value) && r.value.current.breakpoint == Some(2)
            && r.value.current.operations == 2 && r.value.current.tape == Store(Fresh(DefaultMemorySize), 2)
            && r.value.current.functions == []
            && r.value.debug.value == DebugData([Token(0, '+'), Token(1, '+'), Token(2, '-')], [], [], None, [2])
  {
    ChunkTokens();
    var chunks := ["++", "-"];
    assert forall j :: 0 <= j < |chunks| ==> chunks[j] != [];
    FirstRun(Tokenize("++-", 0), Fresh(DefaultMemorySize), ticks);
  }

  /** A session stopped where `StartSession` stops, continued with its breakpoints. */
  lemma ContinueFromBreakpoint(s: Session, ticks: nat)
    requires ticks >= 1 && s.mode == ShortNoOverflow && s.limit == ShortMax
    requires s.debug == Some(DebugData([Token(0, '+'), Token(1, '+'), Token(2, '-')], [], [], None, [2]))
    requires s.current.breakpoint == Some(2) && s.current.operations == 2 && s.current.functions == []
    requires s.current.tape == Store(Fresh(DefaultMemorySize), 2)
    ensures CanStep(s, Some([2]))
    ensures var r := StepSpec(s, Some([2]), ticks);
            && r.Ok? && !CanContinue(r.value) && r.value.current.operations == 3
            && r.value.current.tape == Store(Fresh(DefaultMemorySize), 1) && r.value.current.code == {Success, NoOutput}
  {
    var tape := Store(Fresh(DefaultMemorySize), 2);
    SecondRun(s.debug.value.source, tape, ticks);
    assert Store(tape, 1) == Store(Fresh(DefaultMemorySize), 1);
  }

  /** Continuing the session of `StartSession` runs the `-` and ends it: cell 0 is 1, three
      operations are counted in all, and there is no breakpoint left to continue from. */
  lemma ContinueToEnd(s: Session, ticks: nat)
    requires ticks >= 1
    requires InitializeSessionSpec(["++", "-"], "", ShortNoOverflow, DefaultMemorySize, ShortMax, None, ticks) == Ok(s)
    ensures CanContinue(s) && CanStep(s, Some(s.debug.value.breakpoints))
    ensures var r := StepSpec(s, Some(s.debug.value.breakpoints), ticks);
            && r.Ok? && !CanContinue(r.value) && r.value.current.operations == 3
            && r.value.current.tape == Store(Fresh(DefaultMemorySize), 1) && r.value.current.code == {Success, NoOutput}
  {
    StartSession(ticks);
    ContinueFromBreakpoint(s, ticks);
  }
}
