/** Resuming a debugging session replays the token stream up to the breakpoint it stopped at and
    carries on from there (Brainf_ckInterpreter.cs:286-311, 366-418, 605-632). For code made of
    the eight Brainf_ck operators alone, with no time threshold, this module proves that the
    stop and the replay together do what one uninterrupted run does: the same memory, output and
    exit code, and operation counts that add up. */
module Resumption {
  import opened Common
  import opened Tapes
  import opened Tokens
  import opened Brackets
  import opened Results
  import opened EngineSpec
  import opened EngineLemmas

  // ---------------------------------------------------------------------------------------------
  // Fuel: without a threshold, more passes change nothing but the passes left

  function BumpRun(r: Run, e: nat): Run {
    r.(fuel := r.fuel + e)
  }

  function BumpStep(s: Stepped, e: nat): Stepped {
    match s
    case Go(skip, reached, repeat, partial, m, fuel) => Go(skip, reached, repeat, partial, m, fuel + e)
    case Stop(run) => Stop(BumpRun(run, e))
  }

  /** `b` is what `a` becomes with `e` more passes to spend. */
  ghost predicate MoreFuel(a: Outcome<Run>, b: Outcome<Run>, e: nat) {
    a.Ok? ==> b == Ok(BumpRun(a.value, e))
  }

  ghost predicate MoreFuelStep(a: Outcome<Stepped>, b: Outcome<Stepped>, e: nat) {
    a.Ok? ==> b == Ok(BumpStep(a.value, e))
  }

  lemma {:induction false} FuelCore(ctx: Ctx, ops: seq<Token>, depth: nat, reached: bool, m: Machine, fuel: nat, e: nat)
    requires !ctx.timed
    ensures MoreFuel(Core(ctx, ops, depth, reached, m, fuel), Core(ctx, ops, depth, reached, m, fuel + e), e)
    decreases fuel, 1, 0, 0
  {
    FuelIter(ctx, ops, depth, reached, false, 0, m, fuel, e);
  }

  lemma {:induction false} FuelIter(ctx: Ctx, ops: seq<Token>, depth: nat, reached: bool, repeat: bool, partial: nat,
                                    m: Machine, fuel: nat, e: nat)
    requires !ctx.timed
    ensures MoreFuel(Iter(ctx, ops, depth, reached, repeat, partial, m, fuel),
                     Iter(ctx, ops, depth, reached, repeat, partial, m, fuel + e), e)
    decreases fuel, 0, 0, 0
  {
    if fuel > 0 {
      FuelSweep(ctx, ops, depth, 0, 0, reached, repeat, partial, m, fuel - 1, e);
    }
  }

  lemma {:induction false} FuelSweep(ctx: Ctx, ops: seq<Token>, depth: nat, i: nat, skip: nat, reached: bool,
                                     repeat: bool, partial: nat, m: Machine, fuel: nat, e: nat)
    requires !ctx.timed && i + skip <= |ops|
    ensures MoreFuel(Sweep(ctx, ops, depth, i, skip, reached, repeat, partial, m, fuel),
                     Sweep(ctx, ops, depth, i, skip, reached, repeat, partial, m, fuel + e), e)
    decreases fuel, 2, |ops| - i, 2
  {
    if i == |ops| {
      if repeat {
        FuelIter(ctx, ops, depth, reached, repeat, partial, m, fuel, e);
      }
    } else if skip > 0 {
      FuelSweep(ctx, ops, depth, i + skip, 0, reached, repeat, partial, m, fuel, e);
    } else if !IsBreak(ctx, ops[i].offset, reached) {
      var reached' := reached || ctx.jump == Some(ops[i].offset);
      FuelStep(ctx, ops, depth, i, reached', partial, m, fuel, e);
      var r := StepOp(ctx, ops, depth, i, reached', partial, m, fuel);
      if r.Ok? && r.value.Go? {
        var g := r.value;
        FuelSweep(ctx, ops, depth, i + 1, g.skip, g.reached, repeat || g.repeat, g.partial, g.m, g.fuel, e);
      }
    }
  }

  lemma {:induction false} FuelStep(ctx: Ctx, ops: seq<Token>, depth: nat, i: nat, reached: bool, partial: nat,
                                    m: Machine, fuel: nat, e: nat)
    requires !ctx.timed && i < |ops|
    ensures MoreFuelStep(StepOp(ctx, ops, depth, i, reached, partial, m, fuel),
                         StepOp(ctx, ops, depth, i, reached, partial, m, fuel + e), e)
    decreases fuel, 2, |ops| - i, 1
  {
    var op := ops[i].op;
    if op == '[' {
      if !PeepholeApplies(ctx, ops, i, reached, m) {
        FuelLoop(ctx, ops, depth, i, reached, partial, m, fuel, e);
      }
    } else if op == ':' {
      FuelCall(ctx, ops, depth, i, reached, partial, m, fuel, e);
    }
  }

  lemma {:induction false} FuelLoop(ctx: Ctx, ops: seq<Token>, depth: nat, i: nat, reached: bool, partial: nat,
                                    m: Machine, fuel: nat, e: nat)
    requires !ctx.timed && i < |ops|
    ensures MoreFuelStep(Loop(ctx, ops, depth, i, reached, partial, m, fuel),
                         Loop(ctx, ops, depth, i, reached, partial, m, fuel + e), e)
    decreases fuel, 2, |ops| - i, 0
  {
    match InnerLoop(ops, i)
    case None =>
    case Some(loop) =>
      if Current(m.tape) > 0 || Replaying(ctx, reached) {
        FuelCore(ctx, loop, depth + i + 1, reached, m, fuel, e);
      }
  }

  lemma {:induction false} FuelCall(ctx: Ctx, ops: seq<Token>, depth: nat, i: nat, reached: bool, partial: nat,
                                    m: Machine, fuel: nat, e: nat)
    requires !ctx.timed && i < |ops|
    ensures MoreFuelStep(Call(ctx, ops, depth, i, reached, partial, m, fuel),
                         Call(ctx, ops, depth, i, reached, partial, m, fuel + e), e)
    decreases fuel, 2, |ops| - i, 0
  {
    if !Replaying(ctx, reached) && Current(m.tape) in m.functions {
      FuelCore(ctx, m.functions[Current(m.tape)], depth + i + 1, reached, m, fuel, e);
    }
  }

  /** Two budgets that both finish an untimed run finish it the same way. */
  lemma Deterministic(ctx: Ctx, ops: seq<Token>, depth: nat, reached: bool, m: Machine, f1: nat, f2: nat)
    requires !ctx.timed && Core(ctx, ops, depth, reached, m, f1).Ok? && Core(ctx, ops, depth, reached, m, f2).Ok?
    ensures Core(ctx, ops, depth, reached, m, f1).value.data == Core(ctx, ops, depth, reached, m, f2).value.data
    ensures Core(ctx, ops, depth, reached, m, f1).value.m == Core(ctx, ops, depth, reached, m, f2).value.m
  {
    if f1 <= f2 {
      FuelCore(ctx, ops, depth, reached, m, f1, f2 - f1);
    } else {
      FuelCore(ctx, ops, depth, reached, m, f2, f1 - f2);
    }
  }

  // ---------------------------------------------------------------------------------------------
  // A run that stops at no breakpoint runs as if there were none

  /** Only the eight Brainf_ck operators: no function definitions or calls. */
  predicate BrainCode(ops: seq<Token>) {
    forall k :: 0 <= k < |ops| ==> ops[k].op in {'>', '<', '+', '-', '.', ',', '[', ']'}
  }

  /** A finished call that did not stop at a breakpoint. */
  ghost predicate Quiet(r: Outcome<Run>) {
    r.Ok? && BreakpointReached !in r.value.data.code
  }

  ghost predicate QuietStep(r: Outcome<Stepped>) {
    r.Ok? && (r.value.Stop? ==> BreakpointReached !in r.value.run.data.code)
  }

  function Unbroken(ctx: Ctx): Ctx {
    ctx.(breakpoints := None)
  }

  lemma BrainSlice(ops: seq<Token>, depth: nat, i: nat, j: nat)
    requires BrainCode(ops) && Aligned(ops, depth) && i <= j <= |ops|
    ensures BrainCode(ops[i..j]) && Aligned(ops[i..j], depth + i)
  {
    AlignedSlice(ops, depth, i, j);
    assert forall k :: 0 <= k < j - i ==> ops[i..j][k] == ops[i + k];
  }

  lemma BrainSub(ops: seq<Token>, i: nat, j: nat)
    requires BrainCode(ops) && i <= j <= |ops|
    ensures BrainCode(ops[i..j])
  {
    assert forall k :: 0 <= k < j - i ==> ops[i..j][k] == ops[i + k];
  }

  /** `[-]` with a breakpoint on its `-` or `]`: the shortcut is off and the loop stops there. */
  lemma SplitDrainStops(ctx: Ctx, ops: seq<Token>, depth: nat, i: nat, reached: bool, partial: nat, m: Machine, fuel: nat)
    requires i + 2 < |ops| && ops[i].op == '[' && Aligned(ops, depth) && !ctx.timed
    requires PeepholeApplies(Unbroken(ctx), ops, i, reached, m) && !PeepholeApplies(ctx, ops, i, reached, m)
    ensures !QuietStep(Loop(ctx, ops, depth, i, reached, partial, m, fuel))
    ensures fuel > 0 ==> Loop(ctx, ops, depth, i, reached, partial, m, fuel).Ok?
  {
    PeepholeBody(ops, i);
    var body := ops[i + 1..i + 3];
    var off := ops[i].offset;
    assert body[0].offset == off + 1 && body[1].offset == off + 2;
    var bps := ctx.breakpoints.value;
    var k :| 0 <= k < |bps| && off < bps[k] <= off + 2;
    if fuel > 0 {
      assert Core(ctx, body, depth + i + 1, reached, m, fuel)
             == Sweep(ctx, body, depth + i + 1, 0, 0, reached, false, 0, m, fuel - 1);
      if IsBreak(ctx, off + 1, reached) {
        assert Sweep(ctx, body, depth + i + 1, 0, 0, reached, false, 0, m, fuel - 1).value.data.code
               == {Success, BreakpointReached};
      } else {
        assert bps[k] == off + 2;
        var reached' := reached || ctx.jump == Some(off + 1);
        var m1 := m.(tape := Minus(m.tape));
        assert StepOp(ctx, body, depth + i + 1, 0, reached', 0, m, fuel - 1) == Ok(Go(0, reached', false, 1, m1, fuel - 1));
        assert IsBreak(ctx, off + 2, reached');
        assert Sweep(ctx, body, depth + i + 1, 0, 0, reached, false, 0, m, fuel - 1)
               == Sweep(ctx, body, depth + i + 1, 1, 0, reached', false, 1, m1, fuel - 1);
        assert Sweep(ctx, body, depth + i + 1, 1, 0, reached', false, 1, m1, fuel - 1).value.data.code
               == {Success, BreakpointReached};
      }
    }
  }

  lemma {:induction false} QuietCore(ctx: Ctx, ops: seq<Token>, depth: nat, reached: bool, m: Machine, fuel: nat)
    requires !ctx.timed && BrainCode(ops) && Aligned(ops, depth)
    requires Quiet(Core(ctx, ops, depth, reached, m, fuel))
    ensures Core(Unbroken(ctx), ops, depth, reached, m, fuel) == Core(ctx, ops, depth, reached, m, fuel)
    decreases fuel, 1, 0, 0
  {
    QuietIter(ctx, ops, depth, reached, false, 0, m, fuel);
  }

  lemma {:induction false} QuietIter(ctx: Ctx, ops: seq<Token>, depth: nat, reached: bool, repeat: bool, partial: nat,
                                     m: Machine, fuel: nat)
    requires !ctx.timed && BrainCode(ops) && Aligned(ops, depth)
    requires Quiet(Iter(ctx, ops, depth, reached, repeat, partial, m, fuel))
    ensures Iter(Unbroken(ctx), ops, depth, reached, repeat, partial, m, fuel) == Iter(ctx, ops, depth, reached, repeat, partial, m, fuel)
    decreases fuel, 0, 0, 0
  {
    QuietSweep(ctx, ops, depth, 0, 0, reached, repeat, partial, m, fuel - 1);
  }

  lemma {:induction false} QuietSweep(ctx: Ctx, ops: seq<Token>, depth: nat, i: nat, skip: nat, reached: bool,
                                      repeat: bool, partial: nat, m: Machine, fuel: nat)
    requires !ctx.timed && BrainCode(ops) && Aligned(ops, depth) && i + skip <= |ops|
    requires Quiet(Sweep(ctx, ops, depth, i, skip, reached, repeat, partial, m, fuel))
    ensures Sweep(Unbroken(ctx), ops, depth, i, skip, reached, repeat, partial, m, fuel)
            == Sweep(ctx, ops, depth, i, skip, reached, repeat, partial, m, fuel)
    decreases fuel, 2, |ops| - i, 2
  {
    if i == |ops| {
      if repeat {
        QuietIter(ctx, ops, depth, reached, repeat, partial, m, fuel);
      }
    } else if skip > 0 {
      QuietSweep(ctx, ops, depth, i + skip, 0, reached, repeat, partial, m, fuel);
    } else {
      assert !IsBreak(ctx, ops[i].offset, reached);
      var reached' := reached || ctx.jump == Some(ops[i].offset);
      var r := StepOp(ctx, ops, depth, i, reached', partial, m, fuel);
      QuietStepOp(ctx, ops, depth, i, reached', partial, m, fuel);
      if r.value.Go? {
        var g := r.value;
        QuietSweep(ctx, ops, depth, i + 1, g.skip, g.reached, repeat || g.repeat, g.partial, g.m, g.fuel);
      }
    }
  }

  lemma {:induction false} QuietStepOp(ctx: Ctx, ops: seq<Token>, depth: nat, i: nat, reached: bool, partial: nat,
                                       m: Machine, fuel: nat)
    requires !ctx.timed && BrainCode(ops) && Aligned(ops, depth) && i < |ops|
    requires QuietStep(StepOp(ctx, ops, depth, i, reached, partial, m, fuel))
    ensures StepOp(Unbroken(ctx), ops, depth, i, reached, partial, m, fuel) == StepOp(ctx, ops, depth, i, reached, partial, m, fuel)
    decreases fuel, 2, |ops| - i, 1
  {
    if ops[i].op == '[' && !PeepholeApplies(ctx, ops, i, reached, m) {
      if PeepholeApplies(Unbroken(ctx), ops, i, reached, m) {
        SplitDrainStops(ctx, ops, depth, i, reached, partial, m, fuel);
      } else {
        QuietLoop(ctx, ops, depth, i, reached, partial, m, fuel);
      }
    }
  }

  lemma {:induction false} QuietLoop(ctx: Ctx, ops: seq<Token>, depth: nat, i: nat, reached: bool, partial: nat,
                                     m: Machine, fuel: nat)
    requires !ctx.timed && BrainCode(ops) && Aligned(ops, depth) && i < |ops|
    requires QuietStep(Loop(ctx, ops, depth, i, reached, partial, m, fuel))
    ensures Loop(Unbroken(ctx), ops, depth, i, reached, partial, m, fuel) == Loop(ctx, ops, depth, i, reached, partial, m, fuel)
    decreases fuel, 2, |ops| - i, 0
  {
    var loop := InnerLoop(ops, i).value;
    if Current(m.tape) > 0 || Replaying(ctx, reached) {
      BrainSlice(ops, depth, i + 1, i + 1 + |loop|);
      QuietCore(ctx, loop, depth + i + 1, reached, m, fuel);
    }
  }

  // ---------------------------------------------------------------------------------------------
  // The nesting of balanced code, and the replay walk over code before the resume point

  /** From `i` on, every `[` has a body shaped the same way and nothing else closes a loop; when
      `seg` is itself a loop body its only `]` at this level is its last token. */
  ghost predicate Shape(seg: seq<Token>, i: nat, body: bool)
    decreases |seg|, |seg| - i
  {
    if i >= |seg| then true
    else if seg[i].op == ']' then body && i == |seg| - 1
    else if seg[i].op == '[' then
      && InnerLoop(seg, i).Some?
      && var loop := InnerLoop(seg, i).value;
         && Shape(loop, 0, true)
         && (body ==> i + 1 + |loop| < |seg|)
         && Shape(seg, i + 1 + |loop|, body)
    else (body ==> i + 1 < |seg|) && Shape(seg, i + 1, body)
  }

  /** The position after token `i` at its own level: past the body of a `[`. */
  function After(seg: seq<Token>, i: nat): (r: nat)
    requires i < |seg|
    ensures i < r <= |seg|
  {
    if seg[i].op == '[' && InnerLoop(seg, i).Some? then i + 1 + |InnerLoop(seg, i).value| else i + 1
  }

  /** `i` is reached from `j` by passing over whole tokens and loops of this level. */
  ghost predicate Reach(seg: seq<Token>, j: nat, i: nat)
    decreases i - j
  {
    j == i || (j < i && j < |seg| && After(seg, j) <= i && Reach(seg, After(seg, j), i))
  }

  lemma {:induction false} ReachExtend(seg: seq<Token>, j: nat, i: nat, k: nat)
    requires Reach(seg, j, i) && i < |seg| && k == After(seg, i)
    ensures Reach(seg, j, k)
    decreases i - j
  {
    if j < i {
      ReachExtend(seg, After(seg, j), i, k);
    }
  }

  lemma {:induction false} ShapeAlong(seg: seq<Token>, j: nat, i: nat, body: bool)
    requires Shape(seg, j, body) && Reach(seg, j, i)
    ensures Shape(seg, i, body)
    decreases i - j
  {
    if j < i {
      ShapeAlong(seg, After(seg, j), i, body);
    }
  }

  /** Past the body of a `[` the shape goes on. */
  lemma ShapePastLoop(seg: seq<Token>, i: nat, body: bool)
    requires Shape(seg, i, body) && i < |seg| && seg[i].op == '['
    ensures InnerLoop(seg, i).Some? && Shape(seg, i + 1 + |InnerLoop(seg, i).value|, body)
    ensures body ==> i + 1 + |InnerLoop(seg, i).value| < |seg|
  {
  }

  /** The last token of a loop body is reached from its first. */
  lemma {:induction false} ReachBodyEnd(seg: seq<Token>, j: nat)
    requires Shape(seg, j, true) && j < |seg|
    ensures Reach(seg, j, |seg| - 1)
    decreases |seg| - j
  {
    if seg[j].op != ']' {
      ReachBodyEnd(seg, After(seg, j));
    }
  }

  /** The passes a replay spends entering the loop at `j`, if there is one. */
  ghost function EnterCost(seg: seq<Token>, j: nat): nat
    requires j < |seg|
    decreases |seg|, 1
  {
    if seg[j].op == '[' && InnerLoop(seg, j).Some?
    then 1 + WalkCost(InnerLoop(seg, j).value, 0, |InnerLoop(seg, j).value| - 1) else 0
  }

  /** The passes a replay spends walking over the tokens from `j` to `i`: one per loop entered. */
  ghost function WalkCost(seg: seq<Token>, j: nat, i: nat): nat
    decreases |seg|, 2, i - j
  {
    if j >= i || j >= |seg| || After(seg, j) > i then 0
    else EnterCost(seg, j) + WalkCost(seg, After(seg, j), i)
  }

  /** One token of the current level: the sweep moves on past it (and its loop body). */
  lemma SweepGo(ctx: Ctx, ops: seq<Token>, depth: nat, i: nat, reached: bool, repeat: bool, partial: nat, m: Machine,
                fuel: nat, s: Stepped)
    requires i < |ops| && !IsBreak(ctx, ops[i].offset, reached)
    requires StepOp(ctx, ops, depth, i, reached || ctx.jump == Some(ops[i].offset), partial, m, fuel) == Ok(s) && s.Go?
    ensures i + 1 + s.skip <= |ops|
    ensures Sweep(ctx, ops, depth, i, 0, reached, repeat, partial, m, fuel)
            == Sweep(ctx, ops, depth, i + 1 + s.skip, 0, s.reached, repeat || s.repeat, s.partial, s.m, s.fuel)
  {
  }

  lemma SweepStop(ctx: Ctx, ops: seq<Token>, depth: nat, i: nat, reached: bool, repeat: bool, partial: nat, m: Machine,
                  fuel: nat, run: Run)
    requires i < |ops| && !IsBreak(ctx, ops[i].offset, reached)
    requires StepOp(ctx, ops, depth, i, reached || ctx.jump == Some(ops[i].offset), partial, m, fuel) == Ok(Stop(run))
    ensures Sweep(ctx, ops, depth, i, 0, reached, repeat, partial, m, fuel) == Ok(run)
  {
  }

  /** Replaying a loop that lies wholly before the resume point passes over it and returns. */
  lemma {:induction false} WalkCore(z: Ctx, loop: seq<Token>, d: nat, m: Machine, g: nat)
    requires z.jump.Some? && z.breakpoints.None?
    requires BrainCode(loop) && Aligned(loop, d) && |loop| >= 1 && Shape(loop, 0, true) && d + |loop| <= z.jump.value
    ensures Core(z, loop, d, false, m, g + 1 + WalkCost(loop, 0, |loop| - 1))
            == Ok(Run(WorkingData({Success}, [], d + |loop| - 1, false, 0), m, g))
    decreases |loop|, 3
  {
    var e := |loop| - 1;
    ReachBodyEnd(loop, 0);
    WalkSweep(z, loop, d, 0, e, true, false, 0, m, g);
    assert loop[e].op == ']' by { ShapeAlong(loop, 0, e, true); }
    assert loop[e].offset == d + e;
    SweepStop(z, loop, d, e, false, false, 0, m, g, Run(WorkingData({Success}, [], d + e, false, 0), m, g));
  }

  /** Replay walks over the tokens from `j` to `i`, all before the resume point, changing nothing. */
  lemma {:induction false} WalkSweep(z: Ctx, seg: seq<Token>, d: nat, j: nat, i: nat, body: bool, repeat: bool,
                                     partial: nat, m: Machine, g: nat)
    requires z.jump.Some? && z.breakpoints.None?
    requires BrainCode(seg) && Aligned(seg, d) && Shape(seg, j, body) && Reach(seg, j, i) && i <= |seg|
    requires (body ==> i < |seg|) && d + i <= z.jump.value
    ensures Sweep(z, seg, d, j, 0, false, repeat, partial, m, g + WalkCost(seg, j, i))
            == Sweep(z, seg, d, i, 0, false, repeat, partial, m, g)
    decreases |seg|, 2, i - j
  {
    if j < i {
      var n := After(seg, j);
      WalkCostSplit(seg, j, i, body);
      WalkSweepStep(z, seg, d, j, body, repeat, partial, m, g + WalkCost(seg, j, i), g + WalkCost(seg, n, i));
      WalkSweep(z, seg, d, n, i, body, repeat, partial, m, g);
    } else {
      assert j == i;
      WalkCostNil(seg, j);
    }
  }

  lemma WalkCostNil(seg: seq<Token>, j: nat)
    ensures WalkCost(seg, j, j) == 0
  {
  }

  lemma WalkCostSplit(seg: seq<Token>, j: nat, i: nat, body: bool)
    requires Shape(seg, j, body) && Reach(seg, j, i) && j < i <= |seg| && (body ==> i < |seg|)
    ensures After(seg, j) <= i && Reach(seg, After(seg, j), i)
    ensures WalkCost(seg, j, i) == EnterCost(seg, j) + WalkCost(seg, After(seg, j), i)
    ensures body ==> After(seg, j) < |seg|
  {
  }

  lemma WalkSweepStep(z: Ctx, seg: seq<Token>, d: nat, j: nat, body: bool, repeat: bool, partial: nat, m: Machine,
                      G: nat, g: nat)
    requires z.jump.Some? && z.breakpoints.None?
    requires BrainCode(seg) && Aligned(seg, d) && Shape(seg, j, body) && j < |seg| && (body ==> After(seg, j) < |seg|)
    requires d + After(seg, j) <= z.jump.value && G == g + EnterCost(seg, j)
    ensures Sweep(z, seg, d, j, 0, false, repeat, partial, m, G)
            == Sweep(z, seg, d, After(seg, j), 0, false, repeat, partial, m, g)
    ensures Shape(seg, After(seg, j), body)
    decreases |seg|, 2, 0
  {
    assert seg[j].offset == d + j;
    WalkToken(z, seg, d, j, body, partial, m, g);
    var s := StepOp(z, seg, d, j, false, partial, m, g + EnterCost(seg, j)).value;
    SweepGo(z, seg, d, j, false, repeat, partial, m, g + EnterCost(seg, j), s);
  }

  /** Replay passes over one token before the resume point (a loop as a whole). */
  lemma {:induction false} WalkToken(z: Ctx, seg: seq<Token>, d: nat, j: nat, body: bool, partial: nat, m: Machine, g: nat)
    requires z.jump.Some? && z.breakpoints.None?
    requires BrainCode(seg) && Aligned(seg, d) && Shape(seg, j, body) && j < |seg| && (body ==> After(seg, j) < |seg|)
    requires d + After(seg, j) <= z.jump.value
    ensures StepOp(z, seg, d, j, false, partial, m, g + EnterCost(seg, j))
            == Ok(Go(After(seg, j) - j - 1, false, false, partial, m, g))
    ensures Shape(seg, After(seg, j), body)
    decreases |seg|, 1
  {
    if seg[j].op == '[' {
      var loop := InnerLoop(seg, j).value;
      BrainSlice(seg, d, j + 1, j + 1 + |loop|);
      WalkCore(z, loop, d + j + 1, m, g);
    }
  }

  // ---------------------------------------------------------------------------------------------
  // Two runs past their resume points, with no breakpoints, go in lockstep

  /** The body of a `[-]` is its `-` and its `]`. */
  lemma PeepholeBody(ops: seq<Token>, i: nat)
    requires i + 2 < |ops| && ops[i + 1].op == '-' && ops[i + 2].op == ']'
    ensures InnerLoop(ops, i) == Some(ops[i + 1..i + 3])
  {
    var code := OpsOf(ops[i + 1..]);
    assert code[0] == '-' && code[1] == ']';
    assert LoopEnd(code, 1, 0) == Some(1);
    assert LoopEnd(code, 0, 0) == Some(1);
  }

  /** No replay under way: either there is no resume point or it has been passed. */
  predicate Active(ctx: Ctx, reached: bool) {
    ctx.jump.None? || reached
  }

  /** Two contexts that differ at most in their resume points, with no breakpoints or threshold. */
  predicate Twin(a: Ctx, b: Ctx) {
    a.breakpoints.None? && b.breakpoints.None? && a.mode == b.mode && a.limit == b.limit && !a.timed && !b.timed
  }

  /** Whether a sweep of a loop body may still differ in its repeat flag at position `n`: only
      before the body's last `]`, which sets both. */
  predicate RepeatOk(seg: seq<Token>, n: nat, body: bool, rep1: bool, rep2: bool) {
    if body then (n == |seg| ==> rep1 && rep2) else !rep1 && !rep2
  }

  /** Two calls that end the same way, with counts `p1` and `p2` apart, both still active. */
  ghost predicate SameRun(a: Ctx, b: Ctx, x: Run, y: Run, p1: nat, p2: nat) {
    && x.m == y.m && x.fuel == y.fuel && x.data.code == y.data.code && x.data.frames == y.data.frames
    && x.data.position == y.data.position && x.data.partial + p2 == y.data.partial + p1
    && Active(a, x.data.reached) && Active(b, y.data.reached)
  }

  ghost predicate Lockstep(a: Ctx, b: Ctx, x: Outcome<Run>, y: Outcome<Run>, p1: nat, p2: nat) {
    x.Ok? ==> y.Ok? && SameRun(a, b, x.value, y.value, p1, p2)
  }

  ghost predicate LockstepStep(a: Ctx, b: Ctx, x: Outcome<Stepped>, y: Outcome<Stepped>, p1: nat, p2: nat) {
    x.Ok? ==>
      && y.Ok? && (x.value.Go? <==> y.value.Go?)
      && (x.value.Stop? ==> SameRun(a, b, x.value.run, y.value.run, p1, p2))
      && (x.value.Go? ==>
            && x.value.skip == y.value.skip && x.value.repeat == y.value.repeat && x.value.m == y.value.m
            && x.value.fuel == y.value.fuel && x.value.partial + p2 == y.value.partial + p1
            && Active(a, x.value.reached) && Active(b, y.value.reached))
  }

  /** A token that lets the sweep go on is passed over as a whole, and only a body's final `]`
      asks for another pass. */
  lemma StepGoShape(ctx: Ctx, ops: seq<Token>, depth: nat, i: nat, reached: bool, partial: nat, m: Machine, fuel: nat,
                    body: bool)
    requires BrainCode(ops) && i < |ops| && Shape(ops, i, body)
    requires StepOp(ctx, ops, depth, i, reached, partial, m, fuel).Ok?
    requires StepOp(ctx, ops, depth, i, reached, partial, m, fuel).value.Go?
    ensures var g := StepOp(ctx, ops, depth, i, reached, partial, m, fuel).value;
            && i + 1 + g.skip == After(ops, i) && Shape(ops, After(ops, i), body)
            && (g.repeat <==> ops[i].op == ']')
            && RepeatOk(ops, After(ops, i), body, ops[i].op == ']', ops[i].op == ']')
  {
    if ops[i].op == '[' && PeepholeApplies(ctx, ops, i, reached, m) {
      PeepholeBody(ops, i);
    }
  }

  /** The non-recursive operators do the same on the same machine, whatever the count so far. */
  lemma SimpleTwin(a: Ctx, b: Ctx, ops: seq<Token>, i: nat, p1: nat, p2: nat, m: Machine)
    requires Twin(a, b) && BrainCode(ops) && i < |ops| && ops[i].op !in {'[', ']'}
    ensures var x := Simple(a, ops, i, false, p1, m);
            var y := Simple(b, ops, i, false, p2, m);
            && x.Next? == y.Next? && x.Fail? == y.Fail? && !x.Broken? && !y.Broken?
            && (x.Next? ==> x.m == y.m && x.skip == y.skip && x.partial + p2 == y.partial + p1)
            && (x.Fail? ==> x.m == y.m && x.flag == y.flag)
  {
  }

  lemma {:induction false} TwinCore(a: Ctx, b: Ctx, ops: seq<Token>, depth: nat, r1: bool, r2: bool, m: Machine,
                                    fuel: nat, body: bool)
    requires Twin(a, b) && Active(a, r1) && Active(b, r2) && BrainCode(ops) && Shape(ops, 0, body)
    requires body ==> |ops| > 0
    ensures Lockstep(a, b, Core(a, ops, depth, r1, m, fuel), Core(b, ops, depth, r2, m, fuel), 0, 0)
    decreases fuel, 1, 0, 0
  {
    TwinIter(a, b, ops, depth, r1, r2, false, false, 0, 0, m, fuel, body);
  }

  lemma {:induction false} TwinIter(a: Ctx, b: Ctx, ops: seq<Token>, depth: nat, r1: bool, r2: bool, rep1: bool,
                                    rep2: bool, p1: nat, p2: nat, m: Machine, fuel: nat, body: bool)
    requires Twin(a, b) && Active(a, r1) && Active(b, r2) && BrainCode(ops) && Shape(ops, 0, body)
    requires (body ==> |ops| > 0) && RepeatOk(ops, 0, body, rep1, rep2)
    ensures Lockstep(a, b, Iter(a, ops, depth, r1, rep1, p1, m, fuel), Iter(b, ops, depth, r2, rep2, p2, m, fuel), p1, p2)
    decreases fuel, 0, 0, 0
  {
    if fuel > 0 {
      TwinSweep(a, b, ops, depth, 0, 0, r1, r2, rep1, rep2, p1, p2, m, fuel - 1, body);
    }
  }

  lemma {:induction false} TwinSweep(a: Ctx, b: Ctx, ops: seq<Token>, depth: nat, i: nat, skip: nat, r1: bool, r2: bool,
                                     rep1: bool, rep2: bool, p1: nat, p2: nat, m: Machine, fuel: nat, body: bool)
    requires Twin(a, b) && Active(a, r1) && Active(b, r2) && BrainCode(ops) && i + skip <= |ops| && Shape(ops, 0, body)
    requires Shape(ops, i + skip, body) && (body ==> |ops| > 0) && RepeatOk(ops, i + skip, body, rep1, rep2)
    ensures Lockstep(a, b, Sweep(a, ops, depth, i, skip, r1, rep1, p1, m, fuel),
                     Sweep(b, ops, depth, i, skip, r2, rep2, p2, m, fuel), p1, p2)
    decreases fuel, 2, |ops| - i, 3
  {
    if i == |ops| {
      if rep1 {
        TwinIter(a, b, ops, depth, r1, r2, rep1, rep2, p1, p2, m, fuel, body);
      }
    } else if skip > 0 {
      TwinSweep(a, b, ops, depth, i + skip, 0, r1, r2, rep1, rep2, p1, p2, m, fuel, body);
    } else {
      TwinToken(a, b, ops, depth, i, r1, r2, rep1, rep2, p1, p2, m, fuel, body);
    }
  }

  lemma {:induction false} TwinToken(a: Ctx, b: Ctx, ops: seq<Token>, depth: nat, i: nat, r1: bool, r2: bool,
                                     rep1: bool, rep2: bool, p1: nat, p2: nat, m: Machine, fuel: nat, body: bool)
    requires Twin(a, b) && BrainCode(ops) && i < |ops| && Shape(ops, 0, body)
    requires Active(a, r1 || a.jump == Some(ops[i].offset)) && Active(b, r2 || b.jump == Some(ops[i].offset))
    requires Shape(ops, i, body) && (body ==> |ops| > 0) && RepeatOk(ops, i, body, rep1, rep2)
    ensures Lockstep(a, b, Sweep(a, ops, depth, i, 0, r1, rep1, p1, m, fuel),
                     Sweep(b, ops, depth, i, 0, r2, rep2, p2, m, fuel), p1, p2)
    decreases fuel, 2, |ops| - i, 2
  {
    var r1' := r1 || a.jump == Some(ops[i].offset);
    var r2' := r2 || b.jump == Some(ops[i].offset);
    TwinStep(a, b, ops, depth, i, r1', r2', p1, p2, m, fuel, body);
    var x := StepOp(a, ops, depth, i, r1', p1, m, fuel);
    var y := StepOp(b, ops, depth, i, r2', p2, m, fuel);
    if x.Ok? {
      if x.value.Go? {
        var g, h := x.value, y.value;
        SweepPass(a, ops, depth, i, r1, rep1, p1, m, fuel, g, body);
        SweepPass(b, ops, depth, i, r2, rep2, p2, m, fuel, h, body);
        TwinGo(a, b, ops, depth, i, r1, r2, rep1, rep2, p1, p2, m, fuel, body, g, h);
      } else {
        SweepStop(a, ops, depth, i, r1, rep1, p1, m, fuel, x.value.run);
        SweepStop(b, ops, depth, i, r2, rep2, p2, m, fuel, y.value.run);
      }
    }
  }

  /** The sweep passes over a token whose operator lets it go on. */
  lemma SweepPass(ctx: Ctx, ops: seq<Token>, depth: nat, i: nat, reached: bool, repeat: bool, partial: nat, m: Machine,
                  fuel: nat, g: Stepped, body: bool)
    requires BrainCode(ops) && i < |ops| && Shape(ops, i, body) && ctx.breakpoints.None?
    requires StepOp(ctx, ops, depth, i, reached || ctx.jump == Some(ops[i].offset), partial, m, fuel) == Ok(g) && g.Go?
    ensures i + 1 + g.skip == After(ops, i) && g.fuel <= fuel && Shape(ops, After(ops, i), body)
    ensures g.repeat <==> ops[i].op == ']'
    ensures RepeatOk(ops, After(ops, i), body, ops[i].op == ']', ops[i].op == ']')
    ensures Sweep(ctx, ops, depth, i, 0, reached, repeat, partial, m, fuel)
            == Sweep(ctx, ops, depth, After(ops, i), 0, g.reached, repeat || g.repeat, g.partial, g.m, g.fuel)
  {
    StepGoShape(ctx, ops, depth, i, reached || ctx.jump == Some(ops[i].offset), partial, m, fuel, body);
    SweepGo(ctx, ops, depth, i, reached, repeat, partial, m, fuel, g);
  }

  lemma {:induction false} TwinGo(a: Ctx, b: Ctx, ops: seq<Token>, depth: nat, i: nat, r1: bool, r2: bool,
                                  rep1: bool, rep2: bool, p1: nat, p2: nat, m: Machine, fuel: nat, body: bool,
                                  g: Stepped, h: Stepped)
    requires Twin(a, b) && BrainCode(ops) && i < |ops| && Shape(ops, 0, body) && (body ==> |ops| > 0)
    requires g.Go? && h.Go? && g.fuel <= fuel && i + 1 + g.skip == After(ops, i) && Shape(ops, After(ops, i), body)
    requires RepeatOk(ops, i, body, rep1, rep2) && (g.repeat <==> ops[i].op == ']')
    requires RepeatOk(ops, After(ops, i), body, ops[i].op == ']', ops[i].op == ']')
    requires g.skip == h.skip && g.repeat == h.repeat && g.m == h.m && g.fuel == h.fuel
    requires g.partial + p2 == h.partial + p1 && Active(a, g.reached) && Active(b, h.reached)
    requires Sweep(a, ops, depth, i, 0, r1, rep1, p1, m, fuel)
             == Sweep(a, ops, depth, After(ops, i), 0, g.reached, rep1 || g.repeat, g.partial, g.m, g.fuel)
    requires Sweep(b, ops, depth, i, 0, r2, rep2, p2, m, fuel)
             == Sweep(b, ops, depth, After(ops, i), 0, h.reached, rep2 || h.repeat, h.partial, h.m, h.fuel)
    ensures Lockstep(a, b, Sweep(a, ops, depth, i, 0, r1, rep1, p1, m, fuel),
                     Sweep(b, ops, depth, i, 0, r2, rep2, p2, m, fuel), p1, p2)
    decreases fuel, 2, |ops| - i, 1
  {
    TwinSweep(a, b, ops, depth, After(ops, i), 0, g.reached, h.reached, rep1 || g.repeat, rep2 || h.repeat,
              g.partial, h.partial, g.m, g.fuel, body);
  }

  lemma {:induction false} TwinStep(a: Ctx, b: Ctx, ops: seq<Token>, depth: nat, i: nat, r1: bool, r2: bool,
                                    p1: nat, p2: nat, m: Machine, fuel: nat, body: bool)
    requires Twin(a, b) && Active(a, r1) && Active(b, r2) && BrainCode(ops) && i < |ops| && Shape(ops, i, body)
    ensures LockstepStep(a, b, StepOp(a, ops, depth, i, r1, p1, m, fuel), StepOp(b, ops, depth, i, r2, p2, m, fuel), p1, p2)
    decreases fuel, 2, |ops| - i, 1
  {
    if ops[i].op == '[' {
      assert PeepholeApplies(a, ops, i, r1, m) == PeepholeApplies(b, ops, i, r2, m);
      if !PeepholeApplies(a, ops, i, r1, m) {
        TwinLoop(a, b, ops, depth, i, r1, r2, p1, p2, m, fuel, body);
      }
    } else if ops[i].op != ']' {
      SimpleTwin(a, b, ops, i, p1, p2, m);
    }
  }

  lemma {:induction false} TwinLoop(a: Ctx, b: Ctx, ops: seq<Token>, depth: nat, i: nat, r1: bool, r2: bool,
                                    p1: nat, p2: nat, m: Machine, fuel: nat, body: bool)
    requires Twin(a, b) && Active(a, r1) && Active(b, r2) && BrainCode(ops) && i < |ops| && Shape(ops, i, body)
    requires ops[i].op == '['
    ensures LockstepStep(a, b, Loop(a, ops, depth, i, r1, p1, m, fuel), Loop(b, ops, depth, i, r2, p2, m, fuel), p1, p2)
    decreases fuel, 2, |ops| - i, 0
  {
    var loop := InnerLoop(ops, i).value;
    if Current(m.tape) > 0 {
      BrainSub(ops, i + 1, i + 1 + |loop|);
      TwinCore(a, b, loop, depth + i + 1, r1, r2, m, fuel, true);
    }
  }
}
