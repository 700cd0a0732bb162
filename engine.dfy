/** The interpreter core as the source runs it: one object holding the memory, the stdin queue, the
    stdout buffer and the function table, updated in place by `TryRunCore` and the operator steps
    (Brainf_ckInterpreter.cs:255-545). Each method is proved to do what the functions of
    `EngineSpec` describe. */
module Engine {
  import opened Common
  import opened Tapes
  import opened Memory
  import opened Tokens
  import opened Results
  import opened EngineSpec

  /** A method's `Stepped` result carries the machine and fuel it left behind. */
  ghost predicate Leaves(s: Stepped, m: Machine, fuel: nat) {
    match s
    case Go(_, _, _, _, m', fuel') => m' == m && fuel' == fuel
    case Stop(run) => run.m == m && run.fuel == fuel
  }

  /** `TryRunCore`'s working data agrees with the spec's run, and so does the state it left. */
  ghost predicate Agrees(spec: Outcome<Run>, r: Outcome<WorkingData>, m: Machine, fuel: nat) {
    match spec
    case Crash(f) => r == Crash(f)
    case Ok(run) => r == Ok(run.data) && run.m == m && run.fuel == fuel
  }

  /** The state one `TryRun` call works on. `fuel` stands in for the stopwatch. */
  class Interpreter {
    const ctx: Ctx
    const tape: MachineState
    var stdin: seq<char>
    var stdout: string
    var functions: map<Cell, seq<Token>>
    var fuel: nat

    ghost predicate Valid()
      reads this, tape
    {
      tape.Valid() && tape.limit == ctx.limit
    }

    function State(): Machine
      requires Valid()
      reads this, tape, tape.cells
    {
      Machine(tape.Value(), stdin, stdout, functions)
    }

    constructor(ctx: Ctx, tape: MachineState, stdin: seq<char>, stdout: string,
                functions: map<Cell, seq<Token>>, fuel: nat)
      requires tape.Valid() && tape.limit == ctx.limit
      ensures Valid() && this.ctx == ctx && this.tape == tape && this.fuel == fuel
      ensures State() == Machine(tape.Value(), stdin, stdout, functions)
    {
      this.ctx := ctx;
      this.tape := tape;
      this.stdin := stdin;
      this.stdout := stdout;
      this.functions := functions;
      this.fuel := fuel;
    }

    /** The operators that do not recurse (lines 320-363, 420-483). */
    method SimpleStep(ops: seq<Token>, i: nat, replay: bool, partial: nat) returns (e: Effect)
      requires Valid() && i < |ops|
      modifies this, tape, tape.cells
      ensures Valid() && fuel == old(fuel)
      ensures e == Simple(ctx, ops, i, replay, partial, old(State()))
      ensures !e.Broken? ==> e.m == State()
    {
      var op := ops[i].op;
      if op !in {'>', '<', '+', '-', '.', ',', '(', ')'} {
        return Broken(InvalidOperator);
      }
      if replay || op == ')' {
        return Next(partial, State(), 0);
      }
      if op == '>' {
        if !tape.CanMoveNext() { return Fail(UpperBoundExceeded, State()); }
        tape.MoveNext();
        return Next(partial + 1, State(), 0);
      } else if op == '<' {
        if !tape.CanMoveBack() { return Fail(LowerBoundExceeded, State()); }
        tape.MoveBack();
        return Next(partial + 1, State(), 0);
      } else if op == '+' {
        if ctx.mode == ByteOverflow && tape.IsAtByteMax() {
          tape.Input(0);
        } else if tape.CanIncrement() {
          tape.Plus();
        } else {
          return Fail(MaxValueExceeded, State());
        }
        return Next(partial + 1, State(), 0);
      } else if op == '-' {
        if tape.CanDecrement() {
          tape.Minus();
        } else if ctx.mode == ByteOverflow {
          tape.Input(ByteMax);
        } else {
          return Fail(NegativeValue, State());
        }
        return Next(partial + 1, State(), 0);
      } else if op == '.' {
        if |stdout| >= StdoutBufferSizeLimit { return Fail(StdoutBufferLimitExceeded, State()); }
        stdout := stdout + [CellChar(tape.Current())];
        return Next(partial + 1, State(), 0);
      } else if op == ',' {
        if |stdin| == 0 { return Fail(StdinBufferExhausted, State()); }
        var c := stdin[0];
        stdin := stdin[1..];
        if ctx.mode == ShortNoOverflow {
          if c as int > ShortMax { return Fail(NegativeValue, State()); }
          tape.Input(c as int);
        } else {
          tape.Input((c as int) % ByteMax);
        }
        return Next(partial + 1, State(), 0);
      } else {
        var key := tape.Current();
        if key in functions { return Fail(DuplicateFunctionDefinition, State()); }
        if |functions| == FunctionDefinitionsLimit { return Fail(FunctionsLimitExceeded, State()); }
        var body := ExtractFunction(ops, i);
        if body.None? { return Broken(MalformedFunction); }
        functions := functions[key := body.value];
        return Next(partial, State(), |body.value| + 1);
      }
    }

    /** `[` without the shortcut (lines 383-403). */
    method RunLoop(ops: seq<Token>, depth: nat, i: nat, reached: bool, partial: nat) returns (r: Outcome<Stepped>)
      requires Valid() && i < |ops| && ops[i].op == '['
      modifies this, tape, tape.cells
      ensures Valid()
      ensures r == Loop(ctx, ops, depth, i, reached, partial, old(State()), old(fuel))
      ensures r.Ok? ==> Leaves(r.value, State(), fuel)
      decreases fuel, 2
    {
      var loop := ExtractInnerLoop(ops, i);
      if loop.None? { return Crash(MalformedLoop); }
      var replay := Replaying(ctx, reached);
      if tape.Current() > 0 || replay {
        var inner := TryRunCore(loop.value, depth + i + 1, reached);
        if inner.Crash? { return Crash(inner.fault); }
        return Ok(Resume(Run(inner.value, State(), fuel), ops, i, |loop.value|, reached, replay, partial));
      }
      return Ok(Go(|loop.value|, reached, false, partial + 1, State(), fuel));
    }

    /** `:` (lines 486-506). */
    method RunCall(ops: seq<Token>, depth: nat, i: nat, reached: bool, partial: nat) returns (r: Outcome<Stepped>)
      requires Valid() && i < |ops|
      modifies this, tape, tape.cells
      ensures Valid()
      ensures r == Call(ctx, ops, depth, i, reached, partial, old(State()), old(fuel))
      ensures r.Ok? ==> Leaves(r.value, State(), fuel)
      decreases fuel, 2
    {
      if Replaying(ctx, reached) { return Ok(Go(0, reached, false, partial, State(), fuel)); }
      var key := tape.Current();
      if key !in functions {
        return Ok(Stop(Run(Failed(UndefinedFunctionCalled, ops, depth, i, reached, partial), State(), fuel)));
      }
      var inner := TryRunCore(functions[key], depth + i + 1, reached);
      if inner.Crash? { return Crash(inner.fault); }
      return Ok(Resume(Run(inner.value, State(), fuel), ops, i, 0, reached, false, partial));
    }

    /** The operator switch for token `i`. */
    method Execute(ops: seq<Token>, depth: nat, i: nat, reached: bool, partial: nat) returns (r: Outcome<Stepped>)
      requires Valid() && i < |ops|
      modifies this, tape, tape.cells
      ensures Valid()
      ensures r == StepOp(ctx, ops, depth, i, reached, partial, old(State()), old(fuel))
      ensures r.Ok? ==> Leaves(r.value, State(), fuel)
      decreases fuel, 3
    {
      var op := ops[i].op;
      if op == '[' {
        if PeepholeApplies(ctx, ops, i, reached, State()) {
          var v: nat := tape.Current();
          tape.ResetCell();
          return Ok(Go(2, reached, false, partial + 2 * v + 1, State(), fuel));
        }
        r := RunLoop(ops, depth, i, reached, partial);
      } else if op == ']' {
        r := Ok(Close(ctx, ops, depth, i, reached, partial, State(), fuel));
      } else if op == ':' {
        r := RunCall(ops, depth, i, reached, partial);
      } else {
        var e := SimpleStep(ops, i, Replaying(ctx, reached), partial);
        match e
        case Broken(f) => r := Crash(f);
        case Fail(flag, _) => r := Ok(Stop(Run(Failed(flag, ops, depth, i, reached, partial), State(), fuel)));
        case Next(p, _, s) => r := Ok(Go(s, reached, false, p, State(), fuel));
      }
    }

    /** `TryRunCore` (lines 277-515): the do-while loop whose passes each start with the time check,
        around the `for` loop over the tokens. */
    method TryRunCore(ops: seq<Token>, depth: nat, reached0: bool) returns (r: Outcome<WorkingData>)
      requires Valid()
      modifies this, tape, tape.cells
      ensures Valid()
      ensures Agrees(Core(ctx, ops, depth, reached0, old(State()), old(fuel)), r, State(), fuel)
      decreases fuel, 1
    {
      var reached := reached0;
      var repeat := false;
      var partial: nat := 0;
      while true
        invariant Valid() && fuel <= old(fuel)
        invariant Iter(ctx, ops, depth, reached, repeat, partial, State(), fuel)
                  == Core(ctx, ops, depth, reached0, old(State()), old(fuel))
        decreases fuel
      {
        if fuel == 0 {
          if ctx.timed {
            return Ok(WorkingData({Failure, ThresholdExceeded}, [[]], depth, false, partial));
          }
          return Crash(StepBoundReached);
        }
        ghost var start := fuel;
        fuel := fuel - 1;
        var i := 0;
        var skip := 0;
        while i < |ops|
          invariant Valid() && fuel < start <= old(fuel)
          invariant i + skip <= |ops|
          invariant Sweep(ctx, ops, depth, i, skip, reached, repeat, partial, State(), fuel)
                    == Core(ctx, ops, depth, reached0, old(State()), old(fuel))
          decreases |ops| - i
        {
          if skip > 0 {
            i := i + skip;
            skip := 0;
            continue;
          }
          if IsBreak(ctx, ops[i].offset, reached) {
            return Ok(WorkingData({Success, BreakpointReached}, [ops[..i + 1]], depth + i, true, partial));
          }
          reached := reached || ctx.jump == Some(ops[i].offset);
          var step := Execute(ops, depth, i, reached, partial);
          if step.Crash? { return Crash(step.fault); }
          if step.value.Stop? { return Ok(step.value.run.data); }
          skip := step.value.skip;
          reached := step.value.reached;
          repeat := repeat || step.value.repeat;
          partial := step.value.partial;
          i := i + 1;
        }
        if !repeat {
          return Ok(WorkingData({Success}, [], depth + |ops|, reached, partial));
        }
      }
    }
  }

  /** `TryRun` on a token stream (lines 255-545). The memory object is the caller's and is updated
      in place; the queue left behind is returned with the result. */
  method TryRun(executable: seq<Token>, stdin: seq<char>, stdout: string, tape: MachineState, mode: OverflowMode,
                threshold: Option<int>, ticks: nat, operations: nat, jump: Option<nat>,
                breakpoints: Option<seq<nat>>, functions: map<Cell, seq<Token>>) returns (r: Outcome<Finished>)
    requires ValidArguments(executable, threshold, jump, breakpoints)
    requires tape.Valid()
    modifies tape, tape.cells
    ensures tape.Valid()
    ensures r == TryRunSpec(executable, stdin, stdout, old(tape.Value()), mode, tape.limit, threshold, ticks,
                            operations, jump, breakpoints, functions)
    ensures r.Ok? ==> tape.Value() == r.value.result.tape
  {
    var ctx := Ctx(jump, breakpoints, mode, tape.limit, threshold.Some?);
    var engine := new Interpreter(ctx, tape, stdin, stdout, functions, ticks);
    var data := engine.TryRunCore(executable, 0, false);
    if data.Crash? { return Crash(data.fault); }
    var result := Finish(executable, data.value, engine.State(), operations);
    if result.Crash? { return Crash(result.fault); }
    return Ok(Finished(result.value, engine.stdin));
  }
}
