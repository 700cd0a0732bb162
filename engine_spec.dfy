/** The interpreter's recursive core (`TryRunCore`, Brainf_ckInterpreter.cs:277-515) as functions
    over values. `fuel` counts the time checks made at the start of every pass of the do-while
    loop (line 286): with a threshold, running out of it is the clock passing the threshold;
    without one, it bounds how far the model follows a run. */
module EngineSpec {
  import opened Common
  import opened Tapes
  import opened Tokens
  import opened Results

  /** `Brainf_ckInterpreter.DefaultMemorySize`: the number of cells `Run` and `InitializeSession`
      use unless told otherwise. */
  const DefaultMemorySize := 64
  /** `Brainf_ckInterpreter.StdoutBufferSizeLimit`. */
  const StdoutBufferSizeLimit := 1024
  /** `Brainf_ckInterpreter.FunctionDefinitionsLimit`. */
  const FunctionDefinitionsLimit := 128

  datatype OverflowMode = ShortNoOverflow | ByteOverflow

  /** What stays fixed for one `TryRun` call: the resumption target, the breakpoints, the overflow
      mode, the cell bound and whether a time threshold is set. */
  datatype Ctx = Ctx(jump: Option<nat>, breakpoints: Option<seq<nat>>, mode: OverflowMode,
                     limit: Cell, timed: bool)

  /** Everything the core updates in place: memory, stdin queue, stdout buffer, function table. */
  datatype Machine = Machine(tape: Tape, stdin: seq<char>, stdout: string,
                             functions: map<Cell, seq<Token>>)

  /** A finished call: its working data, the machine after it and the fuel left. */
  datatype Run = Run(data: WorkingData, m: Machine, fuel: nat)

  /** One operator's outcome: carry on with the next token (after skipping `skip` more), or
      return from the current call. */
  datatype Stepped =
    | Go(skip: nat, reached: bool, repeat: bool, partial: nat, m: Machine, fuel: nat)
    | Stop(run: Run)

  /** Outcome of an operator that does not recurse. */
  datatype Effect = Next(partial: nat, m: Machine, skip: nat) | Fail(flag: ExitFlag, m: Machine) | Broken(fault: Fault)

  /** Replay mode: resuming towards `jump` and not there yet (`jump != null && !reached`). */
  predicate Replaying(ctx: Ctx, reached: bool) {
    ctx.jump.Some? && !reached
  }

  /** The breakpoint test of lines 304-305. */
  predicate IsBreak(ctx: Ctx, offset: nat, reached: bool) {
    ctx.breakpoints.Some? && offset in ctx.breakpoints.value && (ctx.jump.None? || reached)
  }

  /** No breakpoint in `(offset, offset + 2]` (line 376). */
  predicate NoBreakpointAfter(breakpoints: Option<seq<nat>>, offset: nat) {
    breakpoints.None? || forall k :: 0 <= k < |breakpoints.value| ==> !(offset < breakpoints.value[k] <= offset + 2)
  }

  /** The working data of an operator that failed at `i`. */
  function Failed(flag: ExitFlag, ops: seq<Token>, depth: nat, i: nat, reached: bool, partial: nat): WorkingData
    requires i < |ops|
  {
    WorkingData({Failure, ExceptionThrown, flag}, [ops[..i + 1]], depth + i, reached, partial)
  }

  // ---------------------------------------------------------------------------------------------
  // Operators that do not recurse (lines 320-363, 420-483)

  /** `>` */
  function Right(partial: nat, m: Machine): (e: Effect)
    ensures e.Fail? <==> !CanMoveNext(m.tape)
    ensures e.Fail? ==> e.flag == UpperBoundExceeded && e.m == m
    ensures e.Next? ==> e.skip == 0 && e.partial == partial + 1 && e.m.tape.cells == m.tape.cells
                        && e.m.tape.ptr == m.tape.ptr + 1 && e.m == m.(tape := e.m.tape)
  {
    if CanMoveNext(m.tape) then Next(partial + 1, m.(tape := MoveNext(m.tape)), 0)
    else Fail(UpperBoundExceeded, m)
  }

  /** `<` */
  function Left(partial: nat, m: Machine): (e: Effect)
    ensures e.Fail? <==> !CanMoveBack(m.tape)
    ensures e.Fail? ==> e.flag == LowerBoundExceeded && e.m == m
    ensures e.Next? ==> e.skip == 0 && e.partial == partial + 1 && e.m.tape.cells == m.tape.cells
                        && e.m.tape.ptr == m.tape.ptr - 1 && e.m == m.(tape := e.m.tape)
  {
    if CanMoveBack(m.tape) then Next(partial + 1, m.(tape := MoveBack(m.tape)), 0)
    else Fail(LowerBoundExceeded, m)
  }

  /** `+`: under `ByteOverflow` a cell at 255 wraps to 0; otherwise it must be below the bound. */
  function Increment(mode: OverflowMode, limit: Cell, partial: nat, m: Machine): (e: Effect)
    ensures e.Fail? <==> !(mode == ByteOverflow && IsAtByteMax(m.tape)) && !CanIncrement(m.tape, limit)
    ensures e.Fail? ==> e.flag == MaxValueExceeded && e.m == m
    ensures e.Next? ==> e.skip == 0 && e.partial == partial + 1 && e.m == m.(tape := e.m.tape)
                        && e.m.tape == Store(m.tape, if mode == ByteOverflow && IsAtByteMax(m.tape) then 0 else Current(m.tape) + 1)
  {
    if mode == ByteOverflow && IsAtByteMax(m.tape) then Next(partial + 1, m.(tape := Store(m.tape, 0)), 0)
    else if CanIncrement(m.tape, limit) then Next(partial + 1, m.(tape := Plus(m.tape)), 0)
    else Fail(MaxValueExceeded, m)
  }

  /** `-`: under `ByteOverflow` a cell at 0 wraps to 255. */
  function Decrement(mode: OverflowMode, partial: nat, m: Machine): (e: Effect)
    ensures e.Fail? <==> mode != ByteOverflow && !CanDecrement(m.tape)
    ensures e.Fail? ==> e.flag == NegativeValue && e.m == m
    ensures e.Next? ==> e.skip == 0 && e.partial == partial + 1 && e.m == m.(tape := e.m.tape)
                        && e.m.tape == Store(m.tape, if CanDecrement(m.tape) then Current(m.tape) - 1 else ByteMax)
  {
    if CanDecrement(m.tape) then Next(partial + 1, m.(tape := Minus(m.tape)), 0)
    else if mode == ByteOverflow then Next(partial + 1, m.(tape := Store(m.tape, ByteMax)), 0)
    else Fail(NegativeValue, m)
  }

  /** `.` */
  function Output(partial: nat, m: Machine): (e: Effect)
    ensures e.Fail? <==> |m.stdout| >= StdoutBufferSizeLimit
    ensures e.Fail? ==> e.flag == StdoutBufferLimitExceeded && e.m == m
    ensures e.Next? ==> e.skip == 0 && e.partial == partial + 1
                        && e.m == m.(stdout := m.stdout + [CellChar(Current(m.tape))])
  {
    if |m.stdout| >= StdoutBufferSizeLimit then Fail(StdoutBufferLimitExceeded, m)
    else Next(partial + 1, m.(stdout := m.stdout + [CellChar(Current(m.tape))]), 0)
  }

  /** `,`: the value a character is stored as, if the mode accepts it. */
  function InputValue(mode: OverflowMode, c: char): Option<Cell> {
    if mode == ShortNoOverflow then (if c as int <= ShortMax then Some(c as int) else None)
    else Some((c as int) % ByteMax)
  }

  /** `,`: a character is dequeued before it is checked, so a rejected one is consumed. */
  function Read(mode: OverflowMode, partial: nat, m: Machine): (e: Effect)
    ensures e.Fail? <==> m.stdin == [] || InputValue(mode, m.stdin[0]).None?
    ensures e.Fail? ==> e.m.tape == m.tape
    ensures e.Fail? && m.stdin == [] ==> e.flag == StdinBufferExhausted && e.m == m
    ensures e.Fail? && m.stdin != [] ==> e.flag == NegativeValue && e.m == m.(stdin := m.stdin[1..])
    ensures e.Next? ==> e.skip == 0 && e.partial == partial + 1
                        && e.m == m.(stdin := m.stdin[1..], tape := Store(m.tape, InputValue(mode, m.stdin[0]).value))
  {
    if m.stdin == [] then Fail(StdinBufferExhausted, m)
    else
      var m1 := m.(stdin := m.stdin[1..]);
      match InputValue(mode, m.stdin[0])
      case None => Fail(NegativeValue, m1)
      case Some(v) => Next(partial + 1, m1.(tape := Store(m1.tape, v)), 0)
  }

  /** `(`: binds the current cell to the body up to the next `)` and skips past that `)`;
      defining counts no operation. */
  function Define(ops: seq<Token>, i: nat, partial: nat, m: Machine): (e: Effect)
    requires i < |ops|
    ensures e.Fail? <==> Current(m.tape) in m.functions || |m.functions| == FunctionDefinitionsLimit
    ensures e.Fail? ==> e.m == m && e.flag == (if Current(m.tape) in m.functions then DuplicateFunctionDefinition
                                              else FunctionsLimitExceeded)
    ensures e.Broken? <==> !e.Fail? && FunctionBody(ops, i).None?
    ensures e.Next? ==> && e.partial == partial && i + 1 + e.skip <= |ops|
                        && e.skip == |FunctionBody(ops, i).value| + 1
                        && e.m == m.(functions := m.functions[Current(m.tape) := FunctionBody(ops, i).value])
  {
    var key := Current(m.tape);
    if key in m.functions then Fail(DuplicateFunctionDefinition, m)
    else if |m.functions| == FunctionDefinitionsLimit then Fail(FunctionsLimitExceeded, m)
    else match FunctionBody(ops, i)
      case None => Broken(MalformedFunction)
      case Some(f) => Next(partial, m.(functions := m.functions[key := f]), |f| + 1)
  }

  /** Every operator but `[`, `]` and `:`. In replay mode these are passed over untouched; `)`
      always is; a character outside the operator set is an error in either mode. */
  function Simple(ctx: Ctx, ops: seq<Token>, i: nat, replay: bool, partial: nat, m: Machine): (e: Effect)
    requires i < |ops|
    ensures e.Next? ==> i + 1 + e.skip <= |ops|
  {
    var op := ops[i].op;
    if op !in {'>', '<', '+', '-', '.', ',', '(', ')'} then Broken(InvalidOperator)
    else if replay || op == ')' then Next(partial, m, 0)
    else if op == '>' then Right(partial, m)
    else if op == '<' then Left(partial, m)
    else if op == '+' then Increment(ctx.mode, ctx.limit, partial, m)
    else if op == '-' then Decrement(ctx.mode, partial, m)
    else if op == '.' then Output(partial, m)
    else if op == ',' then Read(ctx.mode, partial, m)
    else Define(ops, i, partial, m)
  }

  // ---------------------------------------------------------------------------------------------
  // `[` with the `[-]` shortcut (lines 366-381), `]` (lines 406-418)

  /** The shortcut for `[-]` applies: the cell is positive, no replay is under way, the next two
      tokens are `-` and `]` and no breakpoint falls on them. */
  predicate PeepholeApplies(ctx: Ctx, ops: seq<Token>, i: nat, reached: bool, m: Machine)
    requires i < |ops|
  {
    && Current(m.tape) > 0 && !Replaying(ctx, reached)
    && i + 2 < |ops| && ops[i + 1].op == '-' && ops[i + 2].op == ']'
    && NoBreakpointAfter(ctx.breakpoints, ops[i].offset)
  }

  function Peephole(ops: seq<Token>, i: nat, reached: bool, partial: nat, m: Machine, fuel: nat): (r: Stepped)
    requires i + 2 < |ops|
  {
    Go(2, reached, false, partial + 2 * Current(m.tape) + 1, m.(tape := Store(m.tape, 0)), fuel)
  }

  /** `]`: leaves the loop body when the cell is 0 or while replaying, otherwise asks for another
      pass; the closing bracket counts once unless replaying. */
  function Close(ctx: Ctx, ops: seq<Token>, depth: nat, i: nat, reached: bool, partial: nat, m: Machine, fuel: nat): (r: Stepped)
    requires i < |ops|
  {
    var replay := Replaying(ctx, reached);
    if Current(m.tape) == 0 || replay then
      Stop(Run(WorkingData({Success}, [], depth + i, reached, if replay then partial else partial + 1), m, fuel))
    else Go(0, reached, true, partial + 1, m, fuel)
  }

  /** What a call or loop returns to its caller: the inner count (and the bracket or call itself,
      unless replaying); an inner failure or breakpoint propagates with the caller's frame added. */
  function Resume(inner: Run, ops: seq<Token>, i: nat, skip: nat, reached: bool, replay: bool, partial: nat): (r: Stepped)
    requires i < |ops|
  {
    var partial' := partial + inner.data.partial + (if replay then 0 else 1);
    var reached' := reached || inner.data.reached;
    if Success !in inner.data.code || BreakpointReached in inner.data.code then
      Stop(Run(WorkingData(inner.data.code, inner.data.frames + [ops[..i + 1]], inner.data.position, reached', partial'),
               inner.m, inner.fuel))
    else Go(skip, reached', false, partial', inner.m, inner.fuel)
  }

  // ---------------------------------------------------------------------------------------------
  // The recursive core

  /** `TryRunCore(operators, depth, reached)`. */
  function Core(ctx: Ctx, ops: seq<Token>, depth: nat, reached: bool, m: Machine, fuel: nat): (r: Outcome<Run>)
    ensures r.Ok? ==> r.value.fuel <= fuel
    decreases fuel, 1, 0, 0
  {
    Iter(ctx, ops, depth, reached, false, 0, m, fuel)
  }

  /** One pass of the do-while loop, starting with its time check. */
  function Iter(ctx: Ctx, ops: seq<Token>, depth: nat, reached: bool, repeat: bool, partial: nat, m: Machine, fuel: nat): (r: Outcome<Run>)
    ensures r.Ok? ==> r.value.fuel <= fuel
    decreases fuel, 0, 0, 0
  {
    if fuel == 0 then
      if ctx.timed then Ok(Run(WorkingData({Failure, ThresholdExceeded}, [[]], depth, false, partial), m, 0))
      else Crash(StepBoundReached)
    else Sweep(ctx, ops, depth, 0, 0, reached, repeat, partial, m, fuel - 1)
  }

  /** The `for` loop from token `i` on, with `skip` tokens still to pass over. */
  function Sweep(ctx: Ctx, ops: seq<Token>, depth: nat, i: nat, skip: nat, reached: bool, repeat: bool,
                 partial: nat, m: Machine, fuel: nat): (r: Outcome<Run>)
    requires i + skip <= |ops|
    ensures r.Ok? ==> r.value.fuel <= fuel
    decreases fuel, 2, |ops| - i, 2
  {
    if i == |ops| then
      if repeat then Iter(ctx, ops, depth, reached, repeat, partial, m, fuel)
      else Ok(Run(WorkingData({Success}, [], depth + |ops|, reached, partial), m, fuel))
    else if skip > 0 then Sweep(ctx, ops, depth, i + skip, 0, reached, repeat, partial, m, fuel)
    else if IsBreak(ctx, ops[i].offset, reached) then
      Ok(Run(WorkingData({Success, BreakpointReached}, [ops[..i + 1]], depth + i, true, partial), m, fuel))
    else
      var reached' := reached || ctx.jump == Some(ops[i].offset);
      match StepOp(ctx, ops, depth, i, reached', partial, m, fuel)
      case Crash(f) => Crash(f)
      case Ok(Stop(run)) => Ok(run)
      case Ok(Go(s, r2, rep, p2, m2, f2)) => Sweep(ctx, ops, depth, i + 1, s, r2, repeat || rep, p2, m2, f2)
  }

  /** The operator switch for token `i` (lines 319-510). */
  function StepOp(ctx: Ctx, ops: seq<Token>, depth: nat, i: nat, reached: bool, partial: nat, m: Machine, fuel: nat): (r: Outcome<Stepped>)
    requires i < |ops|
    ensures r.Ok? && r.value.Go? ==> i + 1 + r.value.skip <= |ops| && r.value.fuel <= fuel
    ensures r.Ok? && r.value.Stop? ==> r.value.run.fuel <= fuel
    decreases fuel, 2, |ops| - i, 1
  {
    var op := ops[i].op;
    if op == '[' then
      if PeepholeApplies(ctx, ops, i, reached, m) then Ok(Peephole(ops, i, reached, partial, m, fuel))
      else Loop(ctx, ops, depth, i, reached, partial, m, fuel)
    else if op == ']' then Ok(Close(ctx, ops, depth, i, reached, partial, m, fuel))
    else if op == ':' then Call(ctx, ops, depth, i, reached, partial, m, fuel)
    else match Simple(ctx, ops, i, Replaying(ctx, reached), partial, m)
      case Broken(f) => Crash(f)
      case Fail(flag, m') => Ok(Stop(Run(Failed(flag, ops, depth, i, reached, partial), m', fuel)))
      case Next(p', m', s) => Ok(Go(s, reached, false, p', m', fuel))
  }

  /** `[` without the shortcut (lines 383-403): the body runs if the cell is positive or while
      replaying; otherwise it is skipped at the cost of one operation. */
  function Loop(ctx: Ctx, ops: seq<Token>, depth: nat, i: nat, reached: bool, partial: nat, m: Machine, fuel: nat): (r: Outcome<Stepped>)
    requires i < |ops|
    ensures r.Ok? && r.value.Go? ==> i + 1 + r.value.skip <= |ops| && r.value.fuel <= fuel
    ensures r.Ok? && r.value.Stop? ==> r.value.run.fuel <= fuel
    decreases fuel, 2, |ops| - i, 0
  {
    match InnerLoop(ops, i)
    case None => Crash(MalformedLoop)
    case Some(loop) =>
      var replay := Replaying(ctx, reached);
      if Current(m.tape) > 0 || replay then
        match Core(ctx, loop, depth + i + 1, reached, m, fuel)
        case Crash(f) => Crash(f)
        case Ok(inner) => Ok(Resume(inner, ops, i, |loop|, reached, replay, partial))
      else Ok(Go(|loop|, reached, false, partial + 1, m, fuel))
  }

  /** `:` (lines 486-506): runs the body bound to the current cell. */
  function Call(ctx: Ctx, ops: seq<Token>, depth: nat, i: nat, reached: bool, partial: nat, m: Machine, fuel: nat): (r: Outcome<Stepped>)
    requires i < |ops|
    ensures r.Ok? && r.value.Go? ==> i + 1 + r.value.skip <= |ops| && r.value.fuel <= fuel
    ensures r.Ok? && r.value.Stop? ==> r.value.run.fuel <= fuel
    decreases fuel, 2, |ops| - i, 0
  {
    if Replaying(ctx, reached) then Ok(Go(0, reached, false, partial, m, fuel))
    else if Current(m.tape) !in m.functions then
      Ok(Stop(Run(Failed(UndefinedFunctionCalled, ops, depth, i, reached, partial), m, fuel)))
    else match Core(ctx, m.functions[Current(m.tape)], depth + i + 1, reached, m, fuel)
      case Crash(f) => Crash(f)
      case Ok(inner) => Ok(Resume(inner, ops, i, 0, reached, false, partial))
  }

  // ---------------------------------------------------------------------------------------------
  // Turning the working data into a result (lines 518-545)

  /** `StackFrames.First(frame => frame.Any())`. */
  function FirstNonEmpty(frames: seq<seq<Token>>): (r: Option<seq<Token>>)
    ensures r.Some? ==> r.value != [] && exists k :: (0 <= k < |frames| && frames[k] == r.value
                                                     && forall j :: 0 <= j < k ==> frames[j] == [])
    ensures r.None? <==> forall k :: 0 <= k < |frames| ==> frames[k] == []
  {
    if frames == [] then None
    else if frames[0] != [] then Some(frames[0])
    else
      var r := FirstNonEmpty(frames[1..]);
      assert forall k :: 1 <= k < |frames| ==> frames[k] == frames[1..][k - 1];
      r
  }

  /** The failure trace of a call that returned frames: each frame's operators, and the offset of
      the last token of the innermost non-empty frame. */
  function ExceptionInfoOf(data: WorkingData, code: string): (r: Outcome<Option<ExceptionInfo>>)
    ensures r.Ok? && r.value.Some? ==> |r.value.value.trace| == |data.frames|
    ensures r.Ok? <==> data.frames == [] || exists k :: 0 <= k < |data.frames| && data.frames[k] != []
    ensures data.frames != [] && data.frames[0] != [] ==>
              r.Ok? && r.value.Some? && r.value.value.offset == data.frames[0][|data.frames[0]| - 1].offset
  {
    if data.frames == [] then Ok(None)
    else match FirstNonEmpty(data.frames)
      case None => Crash(NoFailingFrame)
      case Some(f) =>
        Ok(Some(ExceptionInfo(seq(|data.frames|, k requires 0 <= k < |data.frames| => OpsOf(data.frames[k])),
                              f[|f| - 1].offset, code)))
  }

  /** The `InterpreterResult` built from the core's working data. The exit code gains `NoOutput`
      or `TextOutput`; the operation count adds this run's count to the carried-in one; the
      breakpoint position is reported exactly when a breakpoint was reached. */
  function Finish(executable: seq<Token>, data: WorkingData, m: Machine, operations: nat): (r: Outcome<InterpreterResult>)
    ensures r.Ok? ==> && r.value.code == data.code + {OutputFlag(m.stdout)}
                      && r.value.operations == operations + data.partial
                      && r.value.tape == m.tape && r.value.stdout == m.stdout
                      && r.value.source == OpsOf(executable)
                      && (r.value.breakpoint.Some? <==> BreakpointReached in data.code)
                      && (r.value.breakpoint.Some? ==> r.value.breakpoint.value == data.position)
                      && (r.value.info.Some? <==> data.frames != [])
                      && (data.frames != [] && data.frames[0] != [] ==>
                            r.value.info.value.offset == data.frames[0][|data.frames[0]| - 1].offset)
  {
    var code := OpsOf(executable);
    match ExceptionInfoOf(data, code)
    case Crash(f) => Crash(f)
    case Ok(info) =>
      match Definitions(m.functions)
      case Crash(f) => Crash(f)
      case Ok(defs) =>
        Ok(InterpreterResult(data.code + {OutputFlag(m.stdout)}, m.tape, m.stdout, code, operations + data.partial, info,
                             if BreakpointReached in data.code then Some(data.position) else None, defs))
  }

  /** What `TryRun` leaves behind: the result, and the input queue the caller keeps. */
  datatype Finished = Finished(result: InterpreterResult, stdin: seq<char>)

  /** The argument checks of lines 264-271. */
  predicate ValidArguments(executable: seq<Token>, threshold: Option<int>, jump: Option<nat>, breakpoints: Option<seq<nat>>) {
    && |executable| > 0
    && (threshold.Some? ==> threshold.value > 0)
    && (jump.Some? ==> jump.value <= |executable| - 1 && (breakpoints.Some? ==> jump.value in breakpoints.value))
    && (breakpoints.Some? ==> |breakpoints.value| > 0)
  }

  /** `TryRun` on a token stream (lines 255-545), with `ticks` in place of the stopwatch. */
  function TryRunSpec(executable: seq<Token>, stdin: seq<char>, stdout: string, tape: Tape, mode: OverflowMode,
                      limit: Cell, threshold: Option<int>, ticks: nat, operations: nat, jump: Option<nat>,
                      breakpoints: Option<seq<nat>>, functions: map<Cell, seq<Token>>): (r: Outcome<Finished>)
    requires ValidArguments(executable, threshold, jump, breakpoints)
    ensures r.Ok? ==> && r.value.result.source == OpsOf(executable)
                      && r.value.result.operations >= operations
                      && OutputFlag(r.value.result.stdout) in r.value.result.code
                      && (r.value.result.breakpoint.Some? <==> BreakpointReached in r.value.result.code)
  {
    var ctx := Ctx(jump, breakpoints, mode, limit, threshold.Some?);
    match Core(ctx, executable, 0, false, Machine(tape, stdin, stdout, functions), ticks)
    case Crash(f) => Crash(f)
    case Ok(run) =>
      match Finish(executable, run.data, run.m, operations)
      case Crash(f) => Crash(f)
      case Ok(result) => Ok(Finished(result, run.m.stdin))
  }
}
