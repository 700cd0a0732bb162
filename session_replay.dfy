/** A debugging session of a script made of the eight Brainf_ck operators, with no time threshold,
    ends as one run of the joined script does (Brainf_ckInterpreter.cs:89-127, 255-311, 605-632):
    every session built from it either holds that run's result or stopped at a chunk boundary
    from which running on reaches that result, with the same memory, output, exit code and
    operation count. */
module SessionReplay {
  import opened Common
  import opened Operators
  import opened Brackets
  import opened Tapes
  import opened Tokens
  import opened Results
  import opened EngineSpec
  import opened EngineLemmas
  import opened Sessions
  import opened Runs
  import opened Resumption
  import opened Replay
  import opened LoopShape

  // ---------------------------------------------------------------------------------------------
  // Brainf_ck code leaves the function table alone

  ghost predicate KeepsTable(o: Outcome<Run>, t: map<Cell, seq<Token>>) {
    o.Ok? ==> o.value.m.functions == t
  }

  ghost predicate KeepsTableStep(o: Outcome<Stepped>, t: map<Cell, seq<Token>>) {
    o.Ok? ==> (if o.value.Go? then o.value.m.functions else o.value.run.m.functions) == t
  }

  lemma {:induction false} TableCore(ctx: Ctx, ops: seq<Token>, depth: nat, reached: bool, m: Machine, fuel: nat)
    requires BrainCode(ops)
    ensures KeepsTable(Core(ctx, ops, depth, reached, m, fuel), m.functions)
    decreases fuel, 1, 0, 0
  {
    TableIter(ctx, ops, depth, reached, false, 0, m, fuel);
  }

  lemma {:induction false} TableIter(ctx: Ctx, ops: seq<Token>, depth: nat, reached: bool, repeat: bool, partial: nat,
                                     m: Machine, fuel: nat)
    requires BrainCode(ops)
    ensures KeepsTable(Iter(ctx, ops, depth, reached, repeat, partial, m, fuel), m.functions)
    decreases fuel, 0, 0, 0
  {
    if fuel > 0 {
      TableSweep(ctx, ops, depth, 0, 0, reached, repeat, partial, m, fuel - 1);
    }
  }

  lemma {:induction false} TableSweep(ctx: Ctx, ops: seq<Token>, depth: nat, i: nat, skip: nat, reached: bool,
                                      repeat: bool, partial: nat, m: Machine, fuel: nat)
    requires BrainCode(ops) && i + skip <= |ops|
    ensures KeepsTable(Sweep(ctx, ops, depth, i, skip, reached, repeat, partial, m, fuel), m.functions)
    decreases fuel, 2, |ops| - i, 2
  {
    if i == |ops| {
      if repeat {
        TableIter(ctx, ops, depth, reached, repeat, partial, m, fuel);
      }
    } else if skip > 0 {
      TableSweep(ctx, ops, depth, i + skip, 0, reached, repeat, partial, m, fuel);
    } else if !IsBreak(ctx, ops[i].offset, reached) {
      var reached' := reached || ctx.jump == Some(ops[i].offset);
      var r := StepOp(ctx, ops, depth, i, reached', partial, m, fuel);
      TableStep(ctx, ops, depth, i, reached', partial, m, fuel);
      if r.Ok? && r.value.Go? {
        var g := r.value;
        TableSweep(ctx, ops, depth, i + 1, g.skip, g.reached, repeat || g.repeat, g.partial, g.m, g.fuel);
      }
    }
  }

  lemma {:induction false} TableStep(ctx: Ctx, ops: seq<Token>, depth: nat, i: nat, reached: bool, partial: nat,
                                     m: Machine, fuel: nat)
    requires BrainCode(ops) && i < |ops|
    ensures KeepsTableStep(StepOp(ctx, ops, depth, i, reached, partial, m, fuel), m.functions)
    decreases fuel, 2, |ops| - i, 1
  {
    if ops[i].op == '[' && !PeepholeApplies(ctx, ops, i, reached, m) {
      TableLoop(ctx, ops, depth, i, reached, partial, m, fuel);
    }
  }

  lemma {:induction false} TableLoop(ctx: Ctx, ops: seq<Token>, depth: nat, i: nat, reached: bool, partial: nat,
                                     m: Machine, fuel: nat)
    requires BrainCode(ops) && i < |ops|
    ensures KeepsTableStep(Loop(ctx, ops, depth, i, reached, partial, m, fuel), m.functions)
    decreases fuel, 2, |ops| - i, 0
  {
    if InnerLoop(ops, i).Some? {
      var loop := InnerLoop(ops, i).value;
      if Current(m.tape) > 0 || Replaying(ctx, reached) {
        BrainSub(ops, i + 1, i + 1 + |loop|);
        TableCore(ctx, loop, depth + i + 1, reached, m, fuel);
      }
    }
  }

  /** An empty function table is listed as no definitions, and no definitions rebuild it. */
  lemma EmptyTable()
    ensures Definitions(map[]) == Ok([]) && Rebuild([]) == map[]
  {
  }

  // ---------------------------------------------------------------------------------------------
  // The joined script

  /** Filtering the joined chunks is joining the filtered chunks. */
  lemma {:induction false} FilterConcat(source: seq<string>)
    ensures FindExecutableCode(Concat(source)) == Concat(Filtered(source))
    decreases |source|
  {
    if source != [] {
      var init := source[..|source| - 1];
      FilterConcat(init);
      FilterAppend(Concat(init), source[|source| - 1]);
      assert Filtered(source)[..|source| - 1] == Filtered(init);
    }
  }

  /** Operator code with no `(`, `)` or `:` is Brainf_ck code. */
  predicate NoFunctions(code: string) {
    '(' !in code && ')' !in code && ':' !in code
  }

  lemma BrainTokens(code: string)
    requires (forall k :: 0 <= k < |code| ==> IsOperator(code[k])) && NoFunctions(code)
    ensures BrainCode(Tokenize(code, 0))
  {
    forall k | 0 <= k < |code| ensures Tokenize(code, 0)[k].op in {'>', '<', '+', '-', '.', ',', '[', ']'} {
      assert Tokenize(code, 0)[k].op == code[k];
      assert code[k] in code;
    }
  }

  // ---------------------------------------------------------------------------------------------
  // Resuming a session on track

  /** Two runs that end the same way, with counts that add up to the same total, give one result. */
  lemma FinishShift(executable: seq<Token>, d1: WorkingData, d2: WorkingData, m: Machine, o1: nat, o2: nat)
    requires d1.code == d2.code && d1.frames == d2.frames && d1.position == d2.position
    requires o1 + d1.partial == o2 + d2.partial
    ensures Finish(executable, d1, m, o1) == Finish(executable, d2, m, o2)
  {
    assert ExceptionInfoOf(d1, OpsOf(executable)) == ExceptionInfoOf(d2, OpsOf(executable));
  }

  /** The machine a step of `s` starts from. */
  function Resumed(s: Session): (m: Machine)
    requires s.debug.Some?
    ensures m.tape == s.current.tape && m.stdin == s.debug.value.stdin && m.stdout == s.debug.value.stdout
  {
    Machine(s.current.tape, s.debug.value.stdin, s.debug.value.stdout, Rebuild(s.current.functions))
  }

  /** `o` ends with the result `res`, once the `ops` operations counted before it are added. */
  ghost predicate Ends(executable: seq<Token>, o: Outcome<Run>, res: InterpreterResult, ops: nat) {
    o.Ok? && Finish(executable, o.value.data, o.value.m, ops) == Ok(res)
  }

  /** Running `executable` from the resume point `jump` without breakpoints, on `m`, ends with
      `res` for some tick budget. */
  ghost predicate EndsFrom(executable: seq<Token>, jump: Option<nat>, mode: OverflowMode, limit: Cell, m: Machine,
                           res: InterpreterResult, ops: nat) {
    exists f :: Ends(executable, Core(Ctx(jump, None, mode, limit, false), executable, 0, false, m, f), res, ops)
  }

  /** A tick budget that `EndsFrom` promises. */
  lemma PickEnds(executable: seq<Token>, jump: Option<nat>, mode: OverflowMode, limit: Cell, m: Machine,
                 res: InterpreterResult, ops: nat) returns (f: nat)
    requires EndsFrom(executable, jump, mode, limit, m, res, ops)
    ensures Ends(executable, Core(Ctx(jump, None, mode, limit, false), executable, 0, false, m, f), res, ops)
  {
    f :| Ends(executable, Core(Ctx(jump, None, mode, limit, false), executable, 0, false, m, f), res, ops);
  }

  /** A session of the token stream `executable` with breakpoints `breakpoints` that is on its
      way to `res`: it either holds `res`, or it stopped at one of its breakpoints and running on
      from there without breakpoints, with enough ticks, gives `res`. */
  ghost predicate OnTrack(s: Session, executable: seq<Token>, breakpoints: seq<nat>, res: InterpreterResult) {
    && s.debug.Some?
    && s.debug.value.source == executable && s.debug.value.breakpoints == breakpoints
    && s.debug.value.threshold.None? && s.current.functions == []
    && (CanContinue(s) ==>
          && s.current.breakpoint.Some? && s.current.breakpoint.value in breakpoints
          && s.current.breakpoint.value < |executable|
          && EndsFrom(executable, s.current.breakpoint, s.mode, s.limit, Resumed(s), res, s.current.operations))
    && (!CanContinue(s) ==> s.current == res)
  }

  /** The run `x`, started with `ops` operations counted, is on its way to `res`: it ends with
      `res`, or it stopped at one of `breakpoints` from which the run without breakpoints ends with
      `res`, counts added up. */
  ghost predicate Lands(executable: seq<Token>, breakpoints: seq<nat>, x: Run, ops: nat, res: InterpreterResult,
                        mode: OverflowMode, limit: Cell) {
    && x.m.functions == map[]
    && (BreakpointReached in x.data.code ==>
          && x.data.position in breakpoints && x.data.position < |executable|
          && EndsFrom(executable, Some(x.data.position), mode, limit, x.m, res, ops + x.data.partial))
    && (BreakpointReached !in x.data.code ==> Finish(executable, x.data, x.m, ops) == Ok(res))
  }

  /** One run with breakpoints from the resume point `jump`, against the run from there without
      them: the run with breakpoints either ends as that run does, or stops at a breakpoint from
      which the run without breakpoints ends as that run does, counts added up. */
  lemma StepCore(executable: seq<Token>, breakpoints: seq<nat>, jump: Option<nat>, m: Machine, ops: nat,
                 res: InterpreterResult, mode: OverflowMode, limit: Cell, ticks: nat, f: nat)
    requires BrainCode(executable) && Aligned(executable, 0) && Shape(executable, 0, false)
    requires m.functions == map[]
    requires Ends(executable, Core(Ctx(jump, None, mode, limit, false), executable, 0, false, m, f), res, ops)
    requires Core(Ctx(jump, Some(breakpoints), mode, limit, false), executable, 0, false, m, ticks).Ok?
    ensures Lands(executable, breakpoints,
                  Core(Ctx(jump, Some(breakpoints), mode, limit, false), executable, 0, false, m, ticks).value,
                  ops, res, mode, limit)
  {
    var cx := Ctx(jump, Some(breakpoints), mode, limit, false);
    var cy := Unbroken(cx);
    var x := Core(cx, executable, 0, false, m, ticks).value;
    var y := Core(cy, executable, 0, false, m, f).value;
    TableCore(cx, executable, 0, false, m, ticks);
    BrainCallFree(executable);
    CoreSound(cx, executable, 0, false, m, ticks);
    if BreakpointReached in x.data.code {
      var q := x.data.position;
      var cz := Ctx(Some(q), None, mode, limit, false);
      FuelCore(cx, executable, 0, false, m, ticks, f);
      FuelCore(cy, executable, 0, false, m, f, ticks);
      assert Core(cy, executable, 0, false, m, ticks + f) == Ok(BumpRun(y, ticks));
      var g := GlueCore(cx, cy, cz, q, executable, 0, false, false, m, ticks + f);
      var z := Core(cz, executable, 0, false, x.m, g).value;
      FinishShift(executable, z.data, y.data, y.m, ops + x.data.partial, ops);
      assert Ends(executable, Core(cz, executable, 0, false, x.m, g), res, ops + x.data.partial);
    } else {
      QuietCore(cx, executable, 0, false, m, ticks);
      Deterministic(cy, executable, 0, false, m, ticks, f);
    }
  }

  /** The session a step leaves is on track when its run was of the kind `StepCore` describes. */
  lemma Landed(s: Session, executable: seq<Token>, breakpoints: seq<nat>, res: InterpreterResult, x: Run, ops: nat)
    requires s.debug == Some(DebugData(executable, x.m.stdin, x.m.stdout, None, breakpoints))
    requires Finish(executable, x.data, x.m, ops) == Ok(s.current)
    requires Lands(executable, breakpoints, x, ops, res, s.mode, s.limit)
    ensures OnTrack(s, executable, breakpoints, res)
  {
    LandedParts(s, executable, x, ops);
    if BreakpointReached in x.data.code {
      assert EndsFrom(executable, s.current.breakpoint, s.mode, s.limit, Resumed(s), res, s.current.operations);
    } else {
      assert Ok(s.current) == Ok(res);
    }
  }

  lemma LandedParts(s: Session, executable: seq<Token>, x: Run, ops: nat)
    requires s.debug.Some? && s.debug.value.stdin == x.m.stdin && s.debug.value.stdout == x.m.stdout
    requires Finish(executable, x.data, x.m, ops) == Ok(s.current) && x.m.functions == map[]
    ensures s.current.functions == [] && Resumed(s) == x.m
    ensures CanContinue(s) <==> BreakpointReached in x.data.code
    ensures CanContinue(s) ==> s.current.breakpoint == Some(x.data.position)
    ensures s.current.operations == ops + x.data.partial
  {
    EmptyTable();
  }

  /** What the session operations need of the executable: Brainf_ck code numbered from 0 whose
      loops all nest. */
  ghost predicate Replayable(executable: seq<Token>) {
    BrainCode(executable) && Aligned(executable, 0) && Shape(executable, 0, false)
  }

  /** `ContinueSession` keeps a session on track: it stops at a later breakpoint from which the
      rest still leads to `res`, or it ends with `res` itself. */
  lemma ContinueOnTrack(s: Session, executable: seq<Token>, breakpoints: seq<nat>, res: InterpreterResult, ticks: nat)
    requires Replayable(executable) && OnTrack(s, executable, breakpoints, res) && CanContinue(s)
    ensures CanStep(s, Some(breakpoints))
    ensures StepSpec(s, Some(breakpoints), ticks).Ok? ==>
              OnTrack(StepSpec(s, Some(breakpoints), ticks).value, executable, breakpoints, res)
  {
    var f := PickEnds(executable, s.current.breakpoint, s.mode, s.limit, Resumed(s), res, s.current.operations);
    if StepSpec(s, Some(breakpoints), ticks).Ok? {
      var x := StepFacts(s, executable, breakpoints, res, ticks, f);
      Landed(StepSpec(s, Some(breakpoints), ticks).value, executable, breakpoints, res, x, s.current.operations);
    }
  }

  /** The run inside a `ContinueSession` step of a session on track, as `Landed` takes it. */
  lemma StepFacts(s: Session, executable: seq<Token>, breakpoints: seq<nat>, res: InterpreterResult, ticks: nat,
                  f: nat) returns (x: Run)
    requires Replayable(executable) && s.debug.Some? && s.current.functions == []
    requires s.debug.value.source == executable && s.debug.value.breakpoints == breakpoints
    requires s.debug.value.threshold.None?
    requires Ends(executable, Core(Ctx(s.current.breakpoint, None, s.mode, s.limit, false), executable, 0, false,
                                   Resumed(s), f), res, s.current.operations)
    requires CanStep(s, Some(breakpoints)) && StepSpec(s, Some(breakpoints), ticks).Ok?
    ensures var next := StepSpec(s, Some(breakpoints), ticks).value;
            && next.mode == s.mode && next.limit == s.limit
            && next.debug == Some(DebugData(executable, x.m.stdin, x.m.stdout, None, breakpoints))
            && Finish(executable, x.data, x.m, s.current.operations) == Ok(next.current)
            && Lands(executable, breakpoints, x, s.current.operations, res, s.mode, s.limit)
  {
    var m := Resumed(s);
    StepUnfold(s, Some(breakpoints), ticks);
    x := Core(Ctx(s.current.breakpoint, Some(breakpoints), s.mode, s.limit, false), executable, 0, false, m, ticks).value;
    StepCore(executable, breakpoints, s.current.breakpoint, m, s.current.operations, res, s.mode, s.limit, ticks, f);
  }

  /** A step that succeeds is a run of the core on the machine the session holds, finished. */
  lemma StepUnfold(s: Session, breakpoints: Option<seq<nat>>, ticks: nat)
    requires CanStep(s, breakpoints) && StepSpec(s, breakpoints, ticks).Ok?
    ensures var d := s.debug.value;
            var o := Core(Ctx(s.current.breakpoint, breakpoints, s.mode, s.limit, d.threshold.Some?), d.source, 0, false,
                          Resumed(s), ticks);
            var next := StepSpec(s, breakpoints, ticks).value;
            && o.Ok? && next.mode == s.mode && next.limit == s.limit
            && next.debug == Some(d.(stdin := o.value.m.stdin, stdout := o.value.m.stdout))
            && Finish(d.source, o.value.data, o.value.m, s.current.operations) == Ok(next.current)
  {
  }

  /** Running a session on track to completion gives `res`, and some tick budget is enough for it. */
  lemma CompletionOnTrack(s: Session, executable: seq<Token>, breakpoints: seq<nat>, res: InterpreterResult, ticks: nat)
    requires OnTrack(s, executable, breakpoints, res) && CanContinue(s)
    ensures CanStep(s, None)
    ensures StepSpec(s, None, ticks).Ok? ==> StepSpec(s, None, ticks).value.current == res
    ensures exists t :: StepSpec(s, None, t).Ok?
  {
    var jump := s.current.breakpoint;
    var m := Resumed(s);
    var cy := Ctx(jump, None, s.mode, s.limit, false);
    var f :| Ends(executable, Core(cy, executable, 0, false, m, f), res, s.current.operations);
    if StepSpec(s, None, ticks).Ok? {
      Deterministic(cy, executable, 0, false, m, ticks, f);
    }
    assert StepSpec(s, None, f).Ok?;
  }

  /** A `TryRun` that succeeds is a run of the core, finished. */
  lemma TryRunUnfold(executable: seq<Token>, stdin: seq<char>, stdout: string, tape: Tape, mode: OverflowMode,
                     limit: Cell, threshold: Option<int>, ticks: nat, operations: nat, jump: Option<nat>,
                     breakpoints: Option<seq<nat>>, functions: map<Cell, seq<Token>>)
    requires ValidArguments(executable, threshold, jump, breakpoints)
    requires TryRunSpec(executable, stdin, stdout, tape, mode, limit, threshold, ticks, operations, jump, breakpoints,
                        functions).Ok?
    ensures var o := Core(Ctx(jump, breakpoints, mode, limit, threshold.Some?), executable, 0, false,
                          Machine(tape, stdin, stdout, functions), ticks);
            var r := TryRunSpec(executable, stdin, stdout, tape, mode, limit, threshold, ticks, operations, jump,
                                breakpoints, functions).value;
            && o.Ok? && r.stdin == o.value.m.stdin
            && Finish(executable, o.value.data, o.value.m, operations) == Ok(r.result)
  {
  }

  /** The one-shot run of a script whose chunks all hold operators and whose loops balance: the
      run of its joined tokens from the start, with no breakpoints. */
  lemma RunUnfold(source: seq<string>, arguments: string, mode: OverflowMode, size: nat, limit: Cell, ticks: nat)
    requires size > 0
    requires |source| > 0 && forall j :: 0 <= j < |source| ==> Filtered(source)[j] != []
    requires Balanced(Concat(Filtered(source)))
    requires RunSpec(Concat(source), arguments, Fresh(size), mode, limit, None, ticks).Ok?
    ensures var executable := Tokenize(Concat(Filtered(source)), 0);
            Ends(executable, Core(Ctx(None, None, mode, limit, false), executable, 0, false,
                                  Machine(Fresh(size), arguments, [], map[]), ticks),
                 RunSpec(Concat(source), arguments, Fresh(size), mode, limit, None, ticks).value, 0)
  {
    FilterConcat(source);
    ConcatNonEmpty(Filtered(source));
    var executable := Tokenize(Concat(Filtered(source)), 0);
    TryRunUnfold(executable, arguments, [], Fresh(size), mode, limit, None, ticks, 0, None, None, map[]);
  }

  /** The scripts the replay theorems are about: chunks that each hold an operator, loops that
      balance across the chunks, no function definitions or calls, and no time threshold. */
  ghost predicate ReplayScript(source: seq<string>) {
    && |source| > 0 && (forall j :: 0 <= j < |source| ==> Filtered(source)[j] != [])
    && Balanced(Concat(Filtered(source))) && NoFunctions(Concat(Filtered(source)))
  }

  /** Such a script is tokenized into replayable code. */
  lemma ScriptReplayable(source: seq<string>)
    requires ReplayScript(source)
    ensures Replayable(Tokenize(Concat(Filtered(source)), 0))
  {
    var code := Concat(Filtered(source));
    FilterConcat(source);
    BrainTokens(code);
    var executable := Tokenize(code, 0);
    assert OpsOf(executable)[0..] == code;
    ShapeFrom(executable, 0, false);
  }

  /** `InitializeSession` starts on track towards the one-shot run of the joined script. */
  lemma InitializeOnTrack(source: seq<string>, arguments: string, mode: OverflowMode, size: nat, limit: Cell,
                          ticks: nat, runTicks: nat)
    requires size > 0 && ReplayScript(source)
    requires RunSpec(Concat(source), arguments, Fresh(size), mode, limit, None, runTicks).Ok?
    ensures var r := InitializeSessionSpec(source, arguments, mode, size, limit, None, ticks);
            r.Ok? ==> OnTrack(r.value, Tokenize(Concat(Filtered(source)), 0), Breakpoints(Filtered(source)),
                              RunSpec(Concat(source), arguments, Fresh(size), mode, limit, None, runTicks).value)
  {
    var executable := Tokenize(Concat(Filtered(source)), 0);
    var breakpoints := Breakpoints(Filtered(source));
    var res := RunSpec(Concat(source), arguments, Fresh(size), mode, limit, None, runTicks).value;
    var m := Machine(Fresh(size), arguments, [], map[]);
    var bps := if |breakpoints| > 0 then Some(breakpoints) else None;
    var r := InitializeSessionSpec(source, arguments, mode, size, limit, None, ticks);
    RunUnfold(source, arguments, mode, size, limit, runTicks);
    ScriptReplayable(source);
    if r.Ok? {
      InitializeUnfold(source, arguments, mode, size, limit, ticks);
      var cx := Ctx(None, bps, mode, limit, false);
      var x := Core(cx, executable, 0, false, m, ticks).value;
      if |breakpoints| > 0 {
        StepCore(executable, breakpoints, None, m, 0, res, mode, limit, ticks, runTicks);
      } else {
        TableCore(cx, executable, 0, false, m, ticks);
        CoreSound(cx, executable, 0, false, m, ticks);
        Deterministic(cx, executable, 0, false, m, ticks, runTicks);
      }
      Landed(r.value, executable, breakpoints, res, x, 0);
    }
  }

  /** A session that `InitializeSession` starts from such a script is a run of the core from the
      start of the joined tokens, finished. */
  lemma InitializeUnfold(source: seq<string>, arguments: string, mode: OverflowMode, size: nat, limit: Cell, ticks: nat)
    requires size > 0 && ReplayScript(source)
    requires InitializeSessionSpec(source, arguments, mode, size, limit, None, ticks).Ok?
    ensures var executable := Tokenize(Concat(Filtered(source)), 0);
            var breakpoints := Breakpoints(Filtered(source));
            var o := Core(Ctx(None, if |breakpoints| > 0 then Some(breakpoints) else None, mode, limit, false), executable,
                          0, false, Machine(Fresh(size), arguments, [], map[]), ticks);
            var r := InitializeSessionSpec(source, arguments, mode, size, limit, None, ticks).value;
            && o.Ok? && r.mode == mode && r.limit == limit
            && r.debug == Some(DebugData(executable, o.value.m.stdin, o.value.m.stdout, None, breakpoints))
            && Finish(executable, o.value.data, o.value.m, 0) == Ok(r.current)
  {
    var executable := Tokenize(Concat(Filtered(source)), 0);
    var breakpoints := Breakpoints(Filtered(source));
    var bps := if |breakpoints| > 0 then Some(breakpoints) else None;
    InitializeRuns(source, arguments, mode, size, limit, None, ticks);
    TryRunUnfold(executable, arguments, [], Fresh(size), mode, limit, None, ticks, 0, None, bps, map[]);
  }

  // ---------------------------------------------------------------------------------------------
  // Progress: breakpoints cost at most one pass more

  /** `o`, run with breakpoints and one pass more, succeeds, and unless it stopped at a
      breakpoint it is `y`, the run without them, with that pass left over. */
  ghost predicate Ahead(o: Outcome<Run>, y: Outcome<Run>) {
    o.Ok? && (Quiet(o) ==> y.Ok? && o == Ok(BumpRun(y.value, 1)))
  }

  ghost predicate AheadStep(o: Outcome<Stepped>, y: Outcome<Stepped>) {
    o.Ok? && (QuietStep(o) ==> y.Ok? && o == Ok(BumpStep(y.value, 1)))
  }

  lemma {:induction false} AheadCore(x: Ctx, ops: seq<Token>, depth: nat, reached: bool, m: Machine, fuel: nat)
    requires !x.timed && BrainCode(ops) && Aligned(ops, depth)
    requires Core(Unbroken(x), ops, depth, reached, m, fuel).Ok?
    ensures Ahead(Core(x, ops, depth, reached, m, fuel + 1), Core(Unbroken(x), ops, depth, reached, m, fuel))
    decreases fuel, 1, 0, 0
  {
    AheadIter(x, ops, depth, reached, false, 0, m, fuel);
  }

  lemma {:induction false} AheadIter(x: Ctx, ops: seq<Token>, depth: nat, reached: bool, repeat: bool, partial: nat,
                                     m: Machine, fuel: nat)
    requires !x.timed && BrainCode(ops) && Aligned(ops, depth)
    requires Iter(Unbroken(x), ops, depth, reached, repeat, partial, m, fuel).Ok?
    ensures Ahead(Iter(x, ops, depth, reached, repeat, partial, m, fuel + 1),
                  Iter(Unbroken(x), ops, depth, reached, repeat, partial, m, fuel))
    decreases fuel, 0, 0, 0
  {
    AheadSweep(x, ops, depth, 0, 0, reached, repeat, partial, m, fuel - 1);
  }

  lemma {:induction false} AheadSweep(x: Ctx, ops: seq<Token>, depth: nat, i: nat, skip: nat, reached: bool,
                                      repeat: bool, partial: nat, m: Machine, fuel: nat)
    requires !x.timed && BrainCode(ops) && Aligned(ops, depth) && i + skip <= |ops|
    requires Sweep(Unbroken(x), ops, depth, i, skip, reached, repeat, partial, m, fuel).Ok?
    ensures Ahead(Sweep(x, ops, depth, i, skip, reached, repeat, partial, m, fuel + 1),
                  Sweep(Unbroken(x), ops, depth, i, skip, reached, repeat, partial, m, fuel))
    decreases fuel, 2, |ops| - i, 3
  {
    if i == |ops| {
      if repeat {
        AheadIter(x, ops, depth, reached, repeat, partial, m, fuel);
      }
    } else if skip > 0 {
      AheadSweep(x, ops, depth, i + skip, 0, reached, repeat, partial, m, fuel);
    } else if !IsBreak(x, ops[i].offset, reached) {
      AheadToken(x, ops, depth, i, reached, repeat, partial, m, fuel);
    }
  }

  /** The same for the token at `i`, where no breakpoint stops the run with breakpoints. */
  lemma {:induction false} AheadToken(x: Ctx, ops: seq<Token>, depth: nat, i: nat, reached: bool, repeat: bool,
                                      partial: nat, m: Machine, fuel: nat)
    requires !x.timed && BrainCode(ops) && Aligned(ops, depth) && i < |ops| && !IsBreak(x, ops[i].offset, reached)
    requires Sweep(Unbroken(x), ops, depth, i, 0, reached, repeat, partial, m, fuel).Ok?
    ensures Ahead(Sweep(x, ops, depth, i, 0, reached, repeat, partial, m, fuel + 1),
                  Sweep(Unbroken(x), ops, depth, i, 0, reached, repeat, partial, m, fuel))
    decreases fuel, 2, |ops| - i, 2
  {
    var y := Unbroken(x);
    var reached' := reached || x.jump == Some(ops[i].offset);
    AheadStepOp(x, ops, depth, i, reached', partial, m, fuel);
    var o := StepOp(x, ops, depth, i, reached', partial, m, fuel + 1);
    var r := StepOp(y, ops, depth, i, reached', partial, m, fuel);
    if QuietStep(o) && o.value.Go? {
      var g := r.value;
      AheadSweep(x, ops, depth, i + 1, g.skip, g.reached, repeat || g.repeat, g.partial, g.m, g.fuel);
    }
  }

  lemma {:induction false} AheadStepOp(x: Ctx, ops: seq<Token>, depth: nat, i: nat, reached: bool, partial: nat,
                                       m: Machine, fuel: nat)
    requires !x.timed && BrainCode(ops) && Aligned(ops, depth) && i < |ops|
    requires StepOp(Unbroken(x), ops, depth, i, reached, partial, m, fuel).Ok?
    ensures AheadStep(StepOp(x, ops, depth, i, reached, partial, m, fuel + 1),
                      StepOp(Unbroken(x), ops, depth, i, reached, partial, m, fuel))
    decreases fuel, 2, |ops| - i, 1
  {
    if ops[i].op == '[' && !PeepholeApplies(x, ops, i, reached, m) {
      if PeepholeApplies(Unbroken(x), ops, i, reached, m) {
        SplitDrainStops(x, ops, depth, i, reached, partial, m, fuel + 1);
      } else {
        AheadLoop(x, ops, depth, i, reached, partial, m, fuel);
      }
    }
  }

  lemma {:induction false} AheadLoop(x: Ctx, ops: seq<Token>, depth: nat, i: nat, reached: bool, partial: nat,
                                     m: Machine, fuel: nat)
    requires !x.timed && BrainCode(ops) && Aligned(ops, depth) && i < |ops|
    requires Loop(Unbroken(x), ops, depth, i, reached, partial, m, fuel).Ok?
    ensures AheadStep(Loop(x, ops, depth, i, reached, partial, m, fuel + 1),
                      Loop(Unbroken(x), ops, depth, i, reached, partial, m, fuel))
    decreases fuel, 2, |ops| - i, 0
  {
    var loop := InnerLoop(ops, i).value;
    if Current(m.tape) > 0 || Replaying(x, reached) {
      BrainSlice(ops, depth, i + 1, i + 1 + |loop|);
      AheadCore(x, loop, depth + i + 1, reached, m, fuel);
    }
  }

  /** A session on track that can continue has a tick budget with which `ContinueSession`
      succeeds: one pass more than the rest of the run without breakpoints needs. */
  lemma ContinueProgress(s: Session, executable: seq<Token>, breakpoints: seq<nat>, res: InterpreterResult)
    requires Replayable(executable) && OnTrack(s, executable, breakpoints, res) && CanContinue(s)
    ensures CanStep(s, Some(breakpoints))
    ensures exists t :: StepSpec(s, Some(breakpoints), t).Ok?
  {
    var jump := s.current.breakpoint;
    var m := Resumed(s);
    var cx := Ctx(jump, Some(breakpoints), s.mode, s.limit, false);
    var f: nat :| Ends(executable, Core(Ctx(jump, None, s.mode, s.limit, false), executable, 0, false, m, f), res,
                  s.current.operations);
    AheadCore(cx, executable, 0, false, m, f);
    var x := Core(cx, executable, 0, false, m, f + 1).value;
    EmptyTable();
    TableCore(cx, executable, 0, false, m, f + 1);
    CoreSound(cx, executable, 0, false, m, f + 1);
    assert Finish(executable, x.data, x.m, s.current.operations).Ok?;
    assert StepSpec(s, Some(breakpoints), f + 1).Ok?;
  }

  /** Such a script has a tick budget with which `InitializeSession` succeeds, once its one-shot
      run does. */
  lemma InitializeProgress(source: seq<string>, arguments: string, mode: OverflowMode, size: nat, limit: Cell,
                           runTicks: nat)
    requires size > 0 && ReplayScript(source)
    requires RunSpec(Concat(source), arguments, Fresh(size), mode, limit, None, runTicks).Ok?
    ensures exists t :: InitializeSessionSpec(source, arguments, mode, size, limit, None, t).Ok?
  {
    var executable := Tokenize(Concat(Filtered(source)), 0);
    var breakpoints := Breakpoints(Filtered(source));
    var m := Machine(Fresh(size), arguments, [], map[]);
    var bps := if |breakpoints| > 0 then Some(breakpoints) else None;
    var cx := Ctx(None, bps, mode, limit, false);
    RunUnfold(source, arguments, mode, size, limit, runTicks);
    ScriptReplayable(source);
    EmptyTable();
    var t := if |breakpoints| > 0 then runTicks + 1 else runTicks;
    if |breakpoints| > 0 {
      AheadCore(cx, executable, 0, false, m, runTicks);
    }
    var x := Core(cx, executable, 0, false, m, t).value;
    TableCore(cx, executable, 0, false, m, t);
    CoreSound(cx, executable, 0, false, m, t);
    assert Finish(executable, x.data, x.m, 0).Ok?;
    InitializeRuns(source, arguments, mode, size, limit, None, t);
    assert InitializeSessionSpec(source, arguments, mode, size, limit, None, t).Ok?;
  }

  // ---------------------------------------------------------------------------------------------
  // A debugging session, end to end

  /** `ContinueSession` called once per entry of `ticks`, with that tick budget, for as long as
      the session can continue; the first failing call ends the chain with its failure. */
  ghost function ContinueAll(s: Session, ticks: seq<nat>): (r: Outcome<Session>)
    ensures r.Ok? && s.debug.Some? ==> r.value.debug.Some?
    decreases |ticks|
  {
    if ticks == [] || !CanContinue(s) || !CanStep(s, Some(s.debug.value.breakpoints)) then Ok(s)
    else
      match StepSpec(s, Some(s.debug.value.breakpoints), ticks[0])
      case Crash(f) => Crash(f)
      case Ok(next) => ContinueAll(next, ticks[1..])
  }

  /** Every session a chain of `ContinueSession` calls reaches is still on track. */
  lemma {:induction false} ContinueAllOnTrack(s: Session, executable: seq<Token>, breakpoints: seq<nat>,
                                              res: InterpreterResult, ticks: seq<nat>)
    requires Replayable(executable) && OnTrack(s, executable, breakpoints, res)
    ensures ContinueAll(s, ticks).Ok? ==> OnTrack(ContinueAll(s, ticks).value, executable, breakpoints, res)
    decreases |ticks|
  {
    if ticks != [] && CanContinue(s) {
      ContinueOnTrack(s, executable, breakpoints, res, ticks[0]);
      var o := StepSpec(s, Some(breakpoints), ticks[0]);
      if o.Ok? {
        ContinueAllOnTrack(o.value, executable, breakpoints, res, ticks[1..]);
      }
    }
  }

  /** A session over a script of Brainf_ck chunks, however its `ContinueSession` calls are
      budgeted, ends as the one-shot run of the joined script: once it cannot continue it holds
      that run's memory, output and operation count; while it can, both `ContinueSession` and
      `RunSessionToCompletion` have a budget that suffices, and completion gives that run. */
  lemma SessionEndsAsRun(source: seq<string>, arguments: string, mode: OverflowMode, size: nat, limit: Cell,
                         ticks: nat, steps: seq<nat>, last: nat, runTicks: nat)
    requires size > 0 && ReplayScript(source)
    requires RunSpec(Concat(source), arguments, Fresh(size), mode, limit, None, runTicks).Ok?
    ensures exists t :: InitializeSessionSpec(source, arguments, mode, size, limit, None, t).Ok?
    ensures var init := InitializeSessionSpec(source, arguments, mode, size, limit, None, ticks);
            var res := RunSpec(Concat(source), arguments, Fresh(size), mode, limit, None, runTicks).value;
            init.Ok? && ContinueAll(init.value, steps).Ok? ==>
              var s := ContinueAll(init.value, steps).value;
              && (!CanContinue(s) ==> s.current == res)
              && (CanContinue(s) ==>
                    && CanStep(s, Some(s.debug.value.breakpoints)) && CanStep(s, None)
                    && (exists t :: StepSpec(s, Some(s.debug.value.breakpoints), t).Ok?)
                    && (exists t :: StepSpec(s, None, t).Ok?)
                    && (StepSpec(s, None, last).Ok? ==> StepSpec(s, None, last).value.current == res))
  {
    InitializeProgress(source, arguments, mode, size, limit, runTicks);
    var executable := Tokenize(Concat(Filtered(source)), 0);
    var breakpoints := Breakpoints(Filtered(source));
    var res := RunSpec(Concat(source), arguments, Fresh(size), mode, limit, None, runTicks).value;
    var init := InitializeSessionSpec(source, arguments, mode, size, limit, None, ticks);
    if init.Ok? && ContinueAll(init.value, steps).Ok? {
      InitializeOnTrack(source, arguments, mode, size, limit, ticks, runTicks);
      ScriptReplayable(source);
      ContinueAllOnTrack(init.value, executable, breakpoints, res, steps);
      var s := ContinueAll(init.value, steps).value;
      if CanContinue(s) {
        ContinueProgress(s, executable, breakpoints, res);
        CompletionOnTrack(s, executable, breakpoints, res, last);
      }
    }
  }
}
