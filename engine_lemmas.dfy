/** What the interpreter core promises, proved about the functions of `EngineSpec`: the failure
    table of the operators, the overflow rules, the counting rules, the `[-]` shortcut agreeing
    with running the loop, and where a breakpoint stop can be reported. */
module EngineLemmas {
  import opened Common
  import opened Tapes
  import opened Tokens
  import opened Results
  import opened EngineSpec

  // ---------------------------------------------------------------------------------------------
  // Failures (lines 320-498)

  /** The failure table, read off the operator switch: which flag an operator raises on a machine,
      if any (`:` is left to `UndefinedCall`, since a defined call can fail inside its body). */
  function FailureFlag(ctx: Ctx, op: char, m: Machine): Option<ExitFlag> {
    match op
    case '>' => if m.tape.ptr == |m.tape.cells| - 1 then Some(UpperBoundExceeded) else None
    case '<' => if m.tape.ptr == 0 then Some(LowerBoundExceeded) else None
    case '+' =>
      if ctx.mode == ByteOverflow && Current(m.tape) == ByteMax then None
      else if Current(m.tape) >= ctx.limit then Some(MaxValueExceeded) else None
    case '-' => if ctx.mode == ShortNoOverflow && Current(m.tape) == 0 then Some(NegativeValue) else None
    case '.' => if |m.stdout| >= StdoutBufferSizeLimit then Some(StdoutBufferLimitExceeded) else None
    case ',' =>
      if m.stdin == [] then Some(StdinBufferExhausted)
      else if ctx.mode == ShortNoOverflow && m.stdin[0] as int > ShortMax then Some(NegativeValue) else None
    case '(' =>
      if Current(m.tape) in m.functions then Some(DuplicateFunctionDefinition)
      else if |m.functions| == FunctionDefinitionsLimit then Some(FunctionsLimitExceeded) else None
    case _ => None
  }

  /** The operators whose step either fails at once or carries on with the next token. */
  predicate Plain(op: char) {
    op in {'>', '<', '+', '-', '.', ',', '('}
  }

  /** Outside replay, a plain operator stops its call exactly when the table says it fails; it then
      reports `Failure | ExceptionThrown` and the flag, with the frame of the operators up to and
      including it, its own position, and the memory as it was. */
  lemma OperatorFailure(ctx: Ctx, ops: seq<Token>, depth: nat, i: nat, reached: bool, partial: nat, m: Machine, fuel: nat)
    requires i < |ops| && Plain(ops[i].op) && !Replaying(ctx, reached)
    ensures var r := StepOp(ctx, ops, depth, i, reached, partial, m, fuel);
            (r.Ok? && r.value.Stop?) <==> FailureFlag(ctx, ops[i].op, m).Some?
    ensures var r := StepOp(ctx, ops, depth, i, reached, partial, m, fuel);
            FailureFlag(ctx, ops[i].op, m).Some? ==>
              && r.Ok? && r.value.Stop?
              && r.value.run.data == WorkingData({Failure, ExceptionThrown, FailureFlag(ctx, ops[i].op, m).value},
                                                 [ops[..i + 1]], depth + i, reached, partial)
              && r.value.run.m.tape == m.tape && r.value.run.fuel == fuel
  {
    var op := ops[i].op;
    var e := Simple(ctx, ops, i, false, partial, m);
    if op == '>' {
      assert e == Right(partial, m);
    } else if op == '<' {
      assert e == Left(partial, m);
    } else if op == '+' {
      assert e == Increment(ctx.mode, ctx.limit, partial, m);
    } else if op == '-' {
      assert e == Decrement(ctx.mode, partial, m);
    } else if op == '.' {
      assert e == Output(partial, m);
    } else if op == ',' {
      assert e == Read(ctx.mode, partial, m);
    } else {
      assert e == Define(ops, i, partial, m);
    }
  }

  /** Outside replay, `:` on a cell with no function bound to it fails with
      `UndefinedFunctionCalled`. */
  lemma UndefinedCall(ctx: Ctx, ops: seq<Token>, depth: nat, i: nat, reached: bool, partial: nat, m: Machine, fuel: nat)
    requires i < |ops| && ops[i].op == ':' && !Replaying(ctx, reached) && Current(m.tape) !in m.functions
    ensures StepOp(ctx, ops, depth, i, reached, partial, m, fuel)
            == Ok(Stop(Run(WorkingData({Failure, ExceptionThrown, UndefinedFunctionCalled}, [ops[..i + 1]], depth + i,
                                       reached, partial), m, fuel)))
  {
  }

  // ---------------------------------------------------------------------------------------------
  // Overflow (lines 344, 356-357, 442-451)

  /** Under `ByteOverflow`, `+` at 255 stores 0, `-` at 0 stores 255 and `,` stores the character
      code modulo 255; none of them fails. */
  lemma ByteOverflowWraps(ctx: Ctx, ops: seq<Token>, depth: nat, i: nat, reached: bool, partial: nat, m: Machine, fuel: nat)
    requires i < |ops| && ctx.mode == ByteOverflow && !Replaying(ctx, reached)
    ensures ops[i].op == '+' && Current(m.tape) == ByteMax ==>
              StepOp(ctx, ops, depth, i, reached, partial, m, fuel)
              == Ok(Go(0, reached, false, partial + 1, m.(tape := Store(m.tape, 0)), fuel))
    ensures ops[i].op == '-' && Current(m.tape) == 0 ==>
              StepOp(ctx, ops, depth, i, reached, partial, m, fuel)
              == Ok(Go(0, reached, false, partial + 1, m.(tape := Store(m.tape, ByteMax)), fuel))
    ensures ops[i].op == ',' && m.stdin != [] ==>
              StepOp(ctx, ops, depth, i, reached, partial, m, fuel)
              == Ok(Go(0, reached, false, partial + 1,
                       m.(stdin := m.stdin[1..], tape := Store(m.tape, (m.stdin[0] as int) % ByteMax)), fuel))
  {
  }

  /** Under `ShortNoOverflow`, `,` rejects a character above `short.MaxValue` with `NegativeValue`,
      after taking it from the input. */
  lemma WideInputRejected(ctx: Ctx, ops: seq<Token>, depth: nat, i: nat, reached: bool, partial: nat, m: Machine, fuel: nat)
    requires i < |ops| && ops[i].op == ',' && ctx.mode == ShortNoOverflow && !Replaying(ctx, reached)
    requires m.stdin != [] && m.stdin[0] as int > ShortMax
    ensures StepOp(ctx, ops, depth, i, reached, partial, m, fuel)
            == Ok(Stop(Run(WorkingData({Failure, ExceptionThrown, NegativeValue}, [ops[..i + 1]], depth + i, reached, partial),
                           m.(stdin := m.stdin[1..]), fuel)))
  {
  }

  // ---------------------------------------------------------------------------------------------
  // Counting (lines 369-418, 483)

  /** Defining a function counts no operation and skips its body and the `)`. */
  lemma DefineCountsNothing(ctx: Ctx, ops: seq<Token>, depth: nat, i: nat, reached: bool, partial: nat, m: Machine, fuel: nat)
    requires i < |ops| && ops[i].op == '(' && !Replaying(ctx, reached)
    requires FailureFlag(ctx, '(', m).None? && FunctionBody(ops, i).Some?
    ensures StepOp(ctx, ops, depth, i, reached, partial, m, fuel)
            == Ok(Go(|FunctionBody(ops, i).value| + 1, reached, false, partial,
                     m.(functions := m.functions[Current(m.tape) := FunctionBody(ops, i).value]), fuel))
  {
  }

  /** `[` on a zero cell counts one operation and skips its body, up to and including the `]`. */
  lemma ZeroLoopSkipped(ctx: Ctx, ops: seq<Token>, depth: nat, i: nat, reached: bool, partial: nat, m: Machine, fuel: nat)
    requires i < |ops| && ops[i].op == '[' && Current(m.tape) == 0 && !Replaying(ctx, reached)
    requires InnerLoop(ops, i).Some?
    ensures StepOp(ctx, ops, depth, i, reached, partial, m, fuel)
            == Ok(Go(|InnerLoop(ops, i).value|, reached, false, partial + 1, m, fuel))
  {
  }

  lemma StoreSame(t: Tape, v: Cell)
    requires Current(t) == v
    ensures Store(t, v) == t
  {
    assert Store(t, v).cells == t.cells;
  }

  lemma StoreTwice(t: Tape, a: Cell, b: Cell)
    ensures Store(Store(t, a), b) == Store(t, b)
  {
    assert Store(Store(t, a), b).cells == Store(t, b).cells;
  }

  /** Running the body `-]` on a cell holding `v > 0` takes `v` passes, counts `2v` and leaves
      the cell at 0. */
  lemma {:induction false} DrainLoop(ctx: Ctx, body: seq<Token>, depth: nat, reached: bool, repeat: bool, partial: nat,
                                     m: Machine, fuel: nat)
    requires |body| == 2 && body[0].op == '-' && body[1].op == ']'
    requires !Replaying(ctx, reached) && !IsBreak(ctx, body[0].offset, reached) && !IsBreak(ctx, body[1].offset, reached)
    requires Current(m.tape) > 0 && fuel >= Current(m.tape)
    ensures Iter(ctx, body, depth, reached, repeat, partial, m, fuel)
            == Ok(Run(WorkingData({Success}, [], depth + 1, reached, partial + 2 * Current(m.tape)),
                      m.(tape := Store(m.tape, 0)), fuel - Current(m.tape)))
    decreases Current(m.tape)
  {
    var v := Current(m.tape);
    var m1 := m.(tape := Minus(m.tape));
    assert (reached || ctx.jump == Some(body[0].offset)) == reached;
    assert (reached || ctx.jump == Some(body[1].offset)) == reached;
    assert StepOp(ctx, body, depth, 0, reached, partial, m, fuel - 1) == Ok(Go(0, reached, false, partial + 1, m1, fuel - 1));
    assert Sweep(ctx, body, depth, 0, 0, reached, repeat, partial, m, fuel - 1)
           == Sweep(ctx, body, depth, 1, 0, reached, repeat, partial + 1, m1, fuel - 1);
    if v == 1 {
      assert StepOp(ctx, body, depth, 1, reached, partial + 1, m1, fuel - 1)
             == Ok(Stop(Run(WorkingData({Success}, [], depth + 1, reached, partial + 2), m1, fuel - 1)));
      assert m1.tape == Store(m.tape, 0);
    } else {
      assert StepOp(ctx, body, depth, 1, reached, partial + 1, m1, fuel - 1)
             == Ok(Go(0, reached, true, partial + 2, m1, fuel - 1));
      assert Sweep(ctx, body, depth, 1, 0, reached, repeat, partial + 1, m1, fuel - 1)
             == Sweep(ctx, body, depth, 2, 0, reached, true, partial + 2, m1, fuel - 1)
             == Iter(ctx, body, depth, reached, true, partial + 2, m1, fuel - 1);
      DrainLoop(ctx, body, depth, reached, true, partial + 2, m1, fuel - 1);
      StoreTwice(m.tape, v - 1, 0);
    }
  }

  /** The `[-]` shortcut does what running the loop does (count `2v + 1`, zero the cell, pass over
      the `-]`), only without spending the `v` passes. */
  lemma PeepholeMatchesLoop(ctx: Ctx, ops: seq<Token>, depth: nat, i: nat, reached: bool, partial: nat, m: Machine, fuel: nat)
    requires i + 2 < |ops| && ops[i].op == '[' && PeepholeApplies(ctx, ops, i, reached, m)
    requires ops[i + 1].offset == ops[i].offset + 1 && ops[i + 2].offset == ops[i].offset + 2
    requires fuel >= Current(m.tape)
    ensures StepOp(ctx, ops, depth, i, reached, partial, m, fuel) == Ok(Peephole(ops, i, reached, partial, m, fuel))
    ensures Loop(ctx, ops, depth, i, reached, partial, m, fuel)
            == Ok(Peephole(ops, i, reached, partial, m, fuel - Current(m.tape)))
    ensures Peephole(ops, i, reached, partial, m, fuel)
            == Go(2, reached, false, partial + 2 * Current(m.tape) + 1, m.(tape := Store(m.tape, 0)), fuel)
  {
    var code := OpsOf(ops[i + 1..]);
    assert code[0] == '-' && code[1] == ']';
    assert LoopEnd(code, 1, 0) == Some(1);
    assert LoopEnd(code, 0, 0) == Some(1);
    assert InnerLoop(ops, i) == Some(ops[i + 1..i + 3]);
    var body := ops[i + 1..i + 3];
    assert !IsBreak(ctx, body[0].offset, reached) && !IsBreak(ctx, body[1].offset, reached);
    DrainLoop(ctx, body, depth + i + 1, reached, false, 0, m, fuel);
  }

  // ---------------------------------------------------------------------------------------------
  // Breakpoints and the flags a run can carry (lines 304-311, 391)

  /** No `:` among the operators. */
  predicate CallFree(ops: seq<Token>) {
    forall k :: 0 <= k < |ops| ==> ops[k].op != ':'
  }

  /** What every run the core returns satisfies: its exit code never carries the two flags only
      the entry points set; a breakpoint stop needs breakpoints, and the innermost frame it
      returns ends at the breakpoint's token; and in call-free code numbered from `depth` on, the
      reported position is that breakpoint offset within the code itself. */
  ghost predicate Sound(ctx: Ctx, ops: seq<Token>, depth: nat, r: Outcome<Run>) {
    r.Ok? ==>
      && NoCodeInterpreted !in r.value.data.code && MismatchedParentheses !in r.value.data.code
      && (BreakpointReached in r.value.data.code ==>
            && ctx.breakpoints.Some?
            && r.value.data.frames != [] && r.value.data.frames[0] != []
            && r.value.data.frames[0][|r.value.data.frames[0]| - 1].offset in ctx.breakpoints.value
            && (CallFree(ops) && Aligned(ops, depth) ==>
                  && r.value.data.position in ctx.breakpoints.value
                  && depth <= r.value.data.position < depth + |ops|))
  }

  ghost predicate SoundStep(ctx: Ctx, ops: seq<Token>, depth: nat, r: Outcome<Stepped>) {
    r.Ok? && r.value.Stop? ==> Sound(ctx, ops, depth, Ok(r.value.run))
  }

  lemma {:induction false} CoreSound(ctx: Ctx, ops: seq<Token>, depth: nat, reached: bool, m: Machine, fuel: nat)
    ensures Sound(ctx, ops, depth, Core(ctx, ops, depth, reached, m, fuel))
    decreases fuel, 1, 0, 0
  {
    IterSound(ctx, ops, depth, reached, false, 0, m, fuel);
  }

  lemma {:induction false} IterSound(ctx: Ctx, ops: seq<Token>, depth: nat, reached: bool, repeat: bool, partial: nat,
                                     m: Machine, fuel: nat)
    ensures Sound(ctx, ops, depth, Iter(ctx, ops, depth, reached, repeat, partial, m, fuel))
    decreases fuel, 0, 0, 0
  {
    if fuel > 0 {
      SweepSound(ctx, ops, depth, 0, 0, reached, repeat, partial, m, fuel - 1);
    }
  }

  lemma {:induction false} SweepSound(ctx: Ctx, ops: seq<Token>, depth: nat, i: nat, skip: nat, reached: bool, repeat: bool,
                                      partial: nat, m: Machine, fuel: nat)
    requires i + skip <= |ops|
    ensures Sound(ctx, ops, depth, Sweep(ctx, ops, depth, i, skip, reached, repeat, partial, m, fuel))
    decreases fuel, 2, |ops| - i, 2
  {
    if i == |ops| {
      if repeat {
        IterSound(ctx, ops, depth, reached, repeat, partial, m, fuel);
      }
    } else if skip > 0 {
      SweepSound(ctx, ops, depth, i + skip, 0, reached, repeat, partial, m, fuel);
    } else if !IsBreak(ctx, ops[i].offset, reached) {
      var reached' := reached || ctx.jump == Some(ops[i].offset);
      var r := StepOp(ctx, ops, depth, i, reached', partial, m, fuel);
      StepSound(ctx, ops, depth, i, reached', partial, m, fuel);
      if r.Ok? && r.value.Go? {
        var g := r.value;
        SweepSound(ctx, ops, depth, i + 1, g.skip, g.reached, repeat || g.repeat, g.partial, g.m, g.fuel);
      }
    }
  }

  lemma {:induction false} StepSound(ctx: Ctx, ops: seq<Token>, depth: nat, i: nat, reached: bool, partial: nat,
                                     m: Machine, fuel: nat)
    requires i < |ops|
    ensures SoundStep(ctx, ops, depth, StepOp(ctx, ops, depth, i, reached, partial, m, fuel))
    decreases fuel, 2, |ops| - i, 1
  {
    var op := ops[i].op;
    if op == '[' {
      if !PeepholeApplies(ctx, ops, i, reached, m) {
        LoopSound(ctx, ops, depth, i, reached, partial, m, fuel);
      }
    } else if op == ':' {
      CallSound(ctx, ops, depth, i, reached, partial, m, fuel);
    }
  }

  lemma {:induction false} LoopSound(ctx: Ctx, ops: seq<Token>, depth: nat, i: nat, reached: bool, partial: nat,
                                     m: Machine, fuel: nat)
    requires i < |ops|
    ensures SoundStep(ctx, ops, depth, Loop(ctx, ops, depth, i, reached, partial, m, fuel))
    decreases fuel, 2, |ops| - i, 0
  {
    match InnerLoop(ops, i)
    case None =>
    case Some(loop) =>
      var replay := Replaying(ctx, reached);
      if Current(m.tape) > 0 || replay {
        CoreSound(ctx, loop, depth + i + 1, reached, m, fuel);
        if CallFree(ops) && Aligned(ops, depth) {
          AlignedSlice(ops, depth, i + 1, i + 1 + |loop|);
          assert CallFree(loop) by {
            forall k | 0 <= k < |loop| ensures loop[k].op != ':' {
              assert loop[k] == ops[i + 1 + k];
            }
          }
        }
      }
  }

  lemma {:induction false} CallSound(ctx: Ctx, ops: seq<Token>, depth: nat, i: nat, reached: bool, partial: nat,
                                     m: Machine, fuel: nat)
    requires i < |ops| && ops[i].op == ':'
    ensures SoundStep(ctx, ops, depth, Call(ctx, ops, depth, i, reached, partial, m, fuel))
    decreases fuel, 2, |ops| - i, 0
  {
    if !Replaying(ctx, reached) && Current(m.tape) in m.functions {
      CoreSound(ctx, m.functions[Current(m.tape)], depth + i + 1, reached, m, fuel);
    }
  }
}
