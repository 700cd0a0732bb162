/** A breakpoint stop followed by a replay to it rejoins the uninterrupted run
    (Brainf_ckInterpreter.cs:286-311, 366-418): for code made of the eight Brainf_ck operators and
    no time threshold, the run that stops at `q` and the run resumed from `q` on the memory it left
    end as the run without breakpoints does, and their counts add up to its count. */
module Replay {
  import opened Common
  import opened Tapes
  import opened Tokens
  import opened Results
  import opened EngineSpec
  import opened EngineLemmas
  import opened Resumption

  /** The three runs of one resumption: `x` runs with breakpoints from some resume point, `y`
      runs from the same point without them, and `z` replays to `q`, where `x` stopped, and runs
      on without breakpoints. */
  predicate Glue(x: Ctx, y: Ctx, z: Ctx, q: nat) {
    x.breakpoints.Some? && !x.timed && y == Unbroken(x) && z == Ctx(Some(q), None, x.mode, x.limit, false)
  }

  /** A call that stopped at the breakpoint `q`. */
  ghost predicate StoppedAt(o: Outcome<Run>, q: nat) {
    o.Ok? && BreakpointReached in o.value.data.code && o.value.data.position == q
  }

  /** `z`'s call ends as `y`'s does, and `y` counts `p` more operations. */
  ghost predicate Rejoins(y: Ctx, z: Ctx, ry: Run, oz: Outcome<Run>, p: nat) {
    oz.Ok? && SameRun(y, z, ry, oz.value, p, 0)
  }

  lemma BrainCallFree(ops: seq<Token>)
    requires BrainCode(ops)
    ensures CallFree(ops)
  {
  }

  /** A call of Brainf_ck code that stops at a breakpoint on resuming from the start of `seg`
      rejoins the call without breakpoints when replayed to that breakpoint. */
  lemma {:induction false} GlueCore(x: Ctx, y: Ctx, z: Ctx, q: nat, seg: seq<Token>, d: nat, body: bool, r: bool,
                                    m: Machine, f: nat) returns (g: nat)
    requires Glue(x, y, z, q) && BrainCode(seg) && Aligned(seg, d) && Shape(seg, 0, body) && (body ==> |seg| > 0)
    requires StoppedAt(Core(x, seg, d, r, m, f), q) && Core(y, seg, d, r, m, f).Ok?
    ensures Rejoins(y, z, Core(y, seg, d, r, m, f).value,
                    Core(z, seg, d, false, Core(x, seg, d, r, m, f).value.m, g),
                    Core(x, seg, d, r, m, f).value.data.partial)
    decreases f, 1, 0, 0
  {
    var run1 := Core(x, seg, d, r, m, f).value;
    assert Core(x, seg, d, r, m, f) == Sweep(x, seg, d, 0, 0, r, false, 0, m, f - 1);
    assert Core(y, seg, d, r, m, f) == Sweep(y, seg, d, 0, 0, r, false, 0, m, f - 1);
    var h := GlueSweep(x, y, z, q, seg, d, body, 0, 0, r, false, 0, m, f - 1, run1);
    g := h + 1;
    assert Core(z, seg, d, false, run1.m, g) == Sweep(z, seg, d, 0, 0, false, false, 0, run1.m, h);
  }

  lemma {:induction false} GlueSweep(x: Ctx, y: Ctx, z: Ctx, q: nat, seg: seq<Token>, d: nat, body: bool, i: nat,
                                     skip: nat, r: bool, rep: bool, p: nat, m: Machine, f: nat, run1: Run)
    returns (g: nat)
    requires Glue(x, y, z, q) && BrainCode(seg) && Aligned(seg, d) && Shape(seg, 0, body) && (body ==> |seg| > 0)
    requires i + skip <= |seg| && Reach(seg, 0, i + skip) && (body || !rep)
    requires Sweep(x, seg, d, i, skip, r, rep, p, m, f) == Ok(run1) && StoppedAt(Ok(run1), q)
    requires Sweep(y, seg, d, i, skip, r, rep, p, m, f).Ok?
    ensures Rejoins(y, z, Sweep(y, seg, d, i, skip, r, rep, p, m, f).value,
                    Sweep(z, seg, d, 0, 0, false, false, 0, run1.m, g), run1.data.partial)
    decreases f, 2, |seg| - i, 3
  {
    if i == |seg| {
      g := GlueEnd(x, y, z, q, seg, d, body, r, rep, p, m, f, run1);
    } else if skip > 0 {
      g := GlueSweep(x, y, z, q, seg, d, body, i + skip, 0, r, rep, p, m, f, run1);
    } else if IsBreak(x, seg[i].offset, r) {
      g := GlueBreakWalk(x, y, z, q, seg, d, body, i, r, rep, p, m, f, run1);
    } else {
      g := GlueToken(x, y, z, q, seg, d, body, i, r, rep, p, m, f, run1);
    }
  }

  /** At the end of a body `x` and `y` start another pass. */
  lemma {:induction false} GlueEnd(x: Ctx, y: Ctx, z: Ctx, q: nat, seg: seq<Token>, d: nat, body: bool, r: bool,
                                   rep: bool, p: nat, m: Machine, f: nat, run1: Run) returns (g: nat)
    requires Glue(x, y, z, q) && BrainCode(seg) && Aligned(seg, d) && Shape(seg, 0, body) && (body ==> |seg| > 0)
    requires body || !rep
    requires Sweep(x, seg, d, |seg|, 0, r, rep, p, m, f) == Ok(run1) && StoppedAt(Ok(run1), q)
    requires Sweep(y, seg, d, |seg|, 0, r, rep, p, m, f).Ok?
    ensures Rejoins(y, z, Sweep(y, seg, d, |seg|, 0, r, rep, p, m, f).value,
                    Sweep(z, seg, d, 0, 0, false, false, 0, run1.m, g), run1.data.partial)
    decreases f, 2, 0, 2
  {
    assert rep && f > 0;
    assert Sweep(x, seg, d, |seg|, 0, r, rep, p, m, f) == Sweep(x, seg, d, 0, 0, r, rep, p, m, f - 1);
    assert Sweep(y, seg, d, |seg|, 0, r, rep, p, m, f) == Sweep(y, seg, d, 0, 0, r, rep, p, m, f - 1);
    g := GlueSweep(x, y, z, q, seg, d, body, 0, 0, r, rep, p, m, f - 1, run1);
  }

  lemma GlueBreakWalk(x: Ctx, y: Ctx, z: Ctx, q: nat, seg: seq<Token>, d: nat, body: bool, i: nat, r: bool, rep: bool,
                      p: nat, m: Machine, f: nat, run1: Run) returns (g: nat)
    requires Glue(x, y, z, q) && BrainCode(seg) && Aligned(seg, d) && Shape(seg, 0, body) && (body ==> |seg| > 0)
    requires i < |seg| && Reach(seg, 0, i) && (body || !rep) && IsBreak(x, seg[i].offset, r)
    requires Sweep(x, seg, d, i, 0, r, rep, p, m, f) == Ok(run1) && StoppedAt(Ok(run1), q)
    requires Sweep(y, seg, d, i, 0, r, rep, p, m, f).Ok?
    ensures Rejoins(y, z, Sweep(y, seg, d, i, 0, r, rep, p, m, f).value,
                    Sweep(z, seg, d, 0, 0, false, false, 0, run1.m, g), run1.data.partial)
  {
    var h := GlueBreak(x, y, z, q, seg, d, body, i, r, rep, p, m, f, run1);
    g := WalkRejoins(y, z, Sweep(y, seg, d, i, 0, r, rep, p, m, f).value, seg, d, body, i, run1.m, h, run1.data.partial);
  }

  /** `z` replays from the start of `seg` to token `i` before it rejoins `y`. */
  lemma WalkRejoins(y: Ctx, z: Ctx, ry: Run, seg: seq<Token>, d: nat, body: bool, i: nat, m: Machine, h: nat, p: nat)
    returns (g: nat)
    requires z.jump.Some? && z.breakpoints.None? && BrainCode(seg) && Aligned(seg, d) && Shape(seg, 0, body)
    requires i < |seg| && Reach(seg, 0, i) && d + i <= z.jump.value
    requires Rejoins(y, z, ry, Sweep(z, seg, d, i, 0, false, false, 0, m, h), p)
    ensures Rejoins(y, z, ry, Sweep(z, seg, d, 0, 0, false, false, 0, m, g), p)
  {
    WalkSweep(z, seg, d, 0, i, body, false, 0, m, h);
    g := h + WalkCost(seg, 0, i);
  }

  /** `x` stops at token `i` itself: from there `z`, just past its resume point, and `y` go in
      lockstep. */
  lemma GlueBreak(x: Ctx, y: Ctx, z: Ctx, q: nat, seg: seq<Token>, d: nat, body: bool, i: nat, r: bool, rep: bool,
                  p: nat, m: Machine, f: nat, run1: Run) returns (g: nat)
    requires Glue(x, y, z, q) && BrainCode(seg) && Aligned(seg, d) && Shape(seg, 0, body) && (body ==> |seg| > 0)
    requires i < |seg| && Reach(seg, 0, i) && (body || !rep) && IsBreak(x, seg[i].offset, r)
    requires Sweep(x, seg, d, i, 0, r, rep, p, m, f) == Ok(run1) && StoppedAt(Ok(run1), q)
    requires Sweep(y, seg, d, i, 0, r, rep, p, m, f).Ok?
    ensures d + i <= q
    ensures Rejoins(y, z, Sweep(y, seg, d, i, 0, r, rep, p, m, f).value,
                    Sweep(z, seg, d, i, 0, false, false, 0, run1.m, g), run1.data.partial)
  {
    assert run1 == Run(WorkingData({Success, BreakpointReached}, [seg[..i + 1]], d + i, true, p), m, f);
    assert seg[i].offset == d + i;
    ShapeAlong(seg, 0, i, body);
    TwinToken(y, z, seg, d, i, r, false, rep, false, p, 0, m, f, body);
    g := f;
  }

  /** `x` does not stop at token `i` itself: either the token is quiet and the three runs move on
      past it, or `x` stops inside the loop it opens. */
  lemma {:induction false} GlueToken(x: Ctx, y: Ctx, z: Ctx, q: nat, seg: seq<Token>, d: nat, body: bool, i: nat,
                                     r: bool, rep: bool, p: nat, m: Machine, f: nat, run1: Run) returns (g: nat)
    requires Glue(x, y, z, q) && BrainCode(seg) && Aligned(seg, d) && Shape(seg, 0, body) && (body ==> |seg| > 0)
    requires i < |seg| && Reach(seg, 0, i) && (body || !rep) && !IsBreak(x, seg[i].offset, r)
    requires Sweep(x, seg, d, i, 0, r, rep, p, m, f) == Ok(run1) && StoppedAt(Ok(run1), q)
    requires Sweep(y, seg, d, i, 0, r, rep, p, m, f).Ok?
    ensures Rejoins(y, z, Sweep(y, seg, d, i, 0, r, rep, p, m, f).value,
                    Sweep(z, seg, d, 0, 0, false, false, 0, run1.m, g), run1.data.partial)
    decreases f, 2, |seg| - i, 2
  {
    var r' := r || x.jump == Some(seg[i].offset);
    ShapeAlong(seg, 0, i, body);
    if QuietStep(StepOp(x, seg, d, i, r', p, m, f)) {
      g := GluePass(x, y, z, q, seg, d, body, i, r, rep, p, m, f, run1);
    } else {
      LoudStep(x, seg, d, i, r', p, m, f);
      g := GlueLoop(x, y, z, q, seg, d, body, i, r, rep, p, m, f, run1);
    }
  }

  /** A quiet token: `x` and `y` take the same step. */
  lemma {:induction false} GluePass(x: Ctx, y: Ctx, z: Ctx, q: nat, seg: seq<Token>, d: nat, body: bool, i: nat,
                                    r: bool, rep: bool, p: nat, m: Machine, f: nat, run1: Run) returns (g: nat)
    requires Glue(x, y, z, q) && BrainCode(seg) && Aligned(seg, d) && Shape(seg, 0, body) && (body ==> |seg| > 0)
    requires i < |seg| && Reach(seg, 0, i) && Shape(seg, i, body) && (body || !rep) && !IsBreak(x, seg[i].offset, r)
    requires QuietStep(StepOp(x, seg, d, i, r || x.jump == Some(seg[i].offset), p, m, f))
    requires Sweep(x, seg, d, i, 0, r, rep, p, m, f) == Ok(run1) && StoppedAt(Ok(run1), q)
    requires Sweep(y, seg, d, i, 0, r, rep, p, m, f).Ok?
    ensures Rejoins(y, z, Sweep(y, seg, d, i, 0, r, rep, p, m, f).value,
                    Sweep(z, seg, d, 0, 0, false, false, 0, run1.m, g), run1.data.partial)
    decreases f, 2, |seg| - i, 1
  {
    var s := QuietGo(x, y, seg, d, body, i, r, rep, p, m, f, run1);
    g := GlueSweep(x, y, z, q, seg, d, body, i + 1, s.skip, s.reached, rep || s.repeat, s.partial, s.m, s.fuel, run1);
  }

  /** A quiet step of a run that stops later goes on; it is the same step for `x` and `y`, and
      passes over a whole token. */
  lemma QuietGo(x: Ctx, y: Ctx, seg: seq<Token>, d: nat, body: bool, i: nat, r: bool, rep: bool, p: nat, m: Machine,
                f: nat, run1: Run) returns (s: Stepped)
    requires x.breakpoints.Some? && !x.timed && y == Unbroken(x) && BrainCode(seg) && Aligned(seg, d)
    requires i < |seg| && Reach(seg, 0, i) && Shape(seg, i, body) && (body || !rep) && !IsBreak(x, seg[i].offset, r)
    requires QuietStep(StepOp(x, seg, d, i, r || x.jump == Some(seg[i].offset), p, m, f))
    requires Sweep(x, seg, d, i, 0, r, rep, p, m, f) == Ok(run1) && BreakpointReached in run1.data.code
    requires Sweep(y, seg, d, i, 0, r, rep, p, m, f).Ok?
    ensures s.Go? && s.fuel <= f
    ensures i + 1 + s.skip <= |seg| && Reach(seg, 0, i + 1 + s.skip) && (body || !(rep || s.repeat))
    ensures Sweep(x, seg, d, i + 1, s.skip, s.reached, rep || s.repeat, s.partial, s.m, s.fuel) == Ok(run1)
    ensures Sweep(y, seg, d, i + 1, s.skip, s.reached, rep || s.repeat, s.partial, s.m, s.fuel).Ok?
    ensures Sweep(y, seg, d, i, 0, r, rep, p, m, f)
            == Sweep(y, seg, d, i + 1, s.skip, s.reached, rep || s.repeat, s.partial, s.m, s.fuel)
  {
    QuietSame(x, y, seg, d, body, i, r, rep, p, m, f, run1);
    s := StepOp(x, seg, d, i, r || x.jump == Some(seg[i].offset), p, m, f).value;
    ReachExtend(seg, 0, i, i + 1 + s.skip);
  }

  /** The step itself: both runs take it, and it passes over a whole token. */
  lemma QuietSame(x: Ctx, y: Ctx, seg: seq<Token>, d: nat, body: bool, i: nat, r: bool, rep: bool, p: nat,
                  m: Machine, f: nat, run1: Run)
    requires x.breakpoints.Some? && !x.timed && y == Unbroken(x) && BrainCode(seg) && Aligned(seg, d)
    requires i < |seg| && Shape(seg, i, body) && (body || !rep) && !IsBreak(x, seg[i].offset, r)
    requires QuietStep(StepOp(x, seg, d, i, r || x.jump == Some(seg[i].offset), p, m, f))
    requires Sweep(x, seg, d, i, 0, r, rep, p, m, f) == Ok(run1) && BreakpointReached in run1.data.code
    ensures var s := StepOp(x, seg, d, i, r || x.jump == Some(seg[i].offset), p, m, f);
            && s.Ok? && s.value.Go?
            && StepOp(y, seg, d, i, r || y.jump == Some(seg[i].offset), p, m, f) == s
            && i + 1 + s.value.skip == After(seg, i) && s.value.fuel <= f && (body || !(rep || s.value.repeat))
            && Sweep(x, seg, d, i, 0, r, rep, p, m, f)
               == Sweep(x, seg, d, i + 1, s.value.skip, s.value.reached, rep || s.value.repeat, s.value.partial,
                        s.value.m, s.value.fuel)
            && Sweep(y, seg, d, i, 0, r, rep, p, m, f)
               == Sweep(y, seg, d, i + 1, s.value.skip, s.value.reached, rep || s.value.repeat, s.value.partial,
                        s.value.m, s.value.fuel)
  {
    var r' := r || x.jump == Some(seg[i].offset);
    QuietStepOp(x, seg, d, i, r', p, m, f);
    StepGoShape(x, seg, d, i, r', p, m, f, body);
  }

  /** In Brainf_ck code only a loop without the shortcut can pass a breakpoint stop up. */
  lemma LoudStep(ctx: Ctx, ops: seq<Token>, depth: nat, i: nat, reached: bool, partial: nat, m: Machine, fuel: nat)
    requires BrainCode(ops) && i < |ops|
    requires StepOp(ctx, ops, depth, i, reached, partial, m, fuel).Ok?
    requires !QuietStep(StepOp(ctx, ops, depth, i, reached, partial, m, fuel))
    ensures ops[i].op == '[' && !PeepholeApplies(ctx, ops, i, reached, m)
    ensures StepOp(ctx, ops, depth, i, reached, partial, m, fuel) == Loop(ctx, ops, depth, i, reached, partial, m, fuel)
  {
  }

  /** `x` stops inside the loop opened at `i`. */
  lemma {:induction false} GlueLoop(x: Ctx, y: Ctx, z: Ctx, q: nat, seg: seq<Token>, d: nat, body: bool, i: nat,
                                    r: bool, rep: bool, p: nat, m: Machine, f: nat, run1: Run) returns (g: nat)
    requires Glue(x, y, z, q) && BrainCode(seg) && Aligned(seg, d) && Shape(seg, 0, body) && (body ==> |seg| > 0)
    requires i < |seg| && Reach(seg, 0, i) && Shape(seg, i, body) && (body || !rep) && !IsBreak(x, seg[i].offset, r)
    requires seg[i].op == '[' && !PeepholeApplies(x, seg, i, r || x.jump == Some(seg[i].offset), m)
    requires StepOp(x, seg, d, i, r || x.jump == Some(seg[i].offset), p, m, f)
             == Loop(x, seg, d, i, r || x.jump == Some(seg[i].offset), p, m, f)
    requires Sweep(x, seg, d, i, 0, r, rep, p, m, f) == Ok(run1) && StoppedAt(Ok(run1), q)
    requires !QuietStep(StepOp(x, seg, d, i, r || x.jump == Some(seg[i].offset), p, m, f))
    requires Sweep(y, seg, d, i, 0, r, rep, p, m, f).Ok?
    ensures Rejoins(y, z, Sweep(y, seg, d, i, 0, r, rep, p, m, f).value,
                    Sweep(z, seg, d, 0, 0, false, false, 0, run1.m, g), run1.data.partial)
    decreases f, 2, |seg| - i, 1
  {
    var r' := r || x.jump == Some(seg[i].offset);
    assert Loop(x, seg, d, i, r', p, m, f) == Ok(Stop(run1));
    var h;
    if PeepholeApplies(y, seg, i, r', m) {
      h := GlueDrain(x, y, z, q, seg, d, body, i, r, rep, p, m, f, run1);
    } else {
      h := GlueEnter(x, y, z, q, seg, d, body, i, r, rep, p, m, f, run1);
    }
    g := WalkRejoins(y, z, Sweep(y, seg, d, i, 0, r, rep, p, m, f).value, seg, d, body, i, run1.m, h, run1.data.partial);
  }

  /** Neither `x` nor `y` takes the shortcut: the inner calls rejoin, and so do the three runs
      after the loop. */
  lemma {:induction false} GlueEnter(x: Ctx, y: Ctx, z: Ctx, q: nat, seg: seq<Token>, d: nat, body: bool, i: nat,
                                     r: bool, rep: bool, p: nat, m: Machine, f: nat, run1: Run) returns (g: nat)
    requires Glue(x, y, z, q) && BrainCode(seg) && Aligned(seg, d) && Shape(seg, 0, body) && (body ==> |seg| > 0)
    requires i < |seg| && Shape(seg, i, body) && (body || !rep) && !IsBreak(x, seg[i].offset, r)
    requires seg[i].op == '[' && !PeepholeApplies(y, seg, i, r || x.jump == Some(seg[i].offset), m)
    requires Loop(x, seg, d, i, r || x.jump == Some(seg[i].offset), p, m, f) == Ok(Stop(run1)) && StoppedAt(Ok(run1), q)
    requires Sweep(y, seg, d, i, 0, r, rep, p, m, f).Ok?
    ensures d + i <= q
    ensures Rejoins(y, z, Sweep(y, seg, d, i, 0, r, rep, p, m, f).value,
                    Sweep(z, seg, d, i, 0, false, false, 0, run1.m, g), run1.data.partial)
    decreases f, 2, |seg| - i, 0
  {
    var r' := r || x.jump == Some(seg[i].offset);
    var loop := InnerLoop(seg, i).value;
    var e := d + i + 1;
    var replay := Replaying(x, r');
    assert Current(m.tape) > 0 || replay;
    var in1 := Core(x, loop, e, r', m, f).value;
    assert run1 == Resume(in1, seg, i, |loop|, r', replay, p).run;
    BrainSlice(seg, d, i + 1, i + 1 + |loop|);
    BrainCallFree(loop);
    CoreSound(x, loop, e, r', m, f);
    assert StepOp(y, seg, d, i, r', p, m, f) == Loop(y, seg, d, i, r', p, m, f);
    var gz := GlueCore(x, y, z, q, loop, e, true, r', m, f);
    var inY := Core(y, loop, e, r', m, f).value;
    var inZ := Core(z, loop, e, false, in1.m, gz).value;
    assert seg[i].offset == d + i;
    assert StepOp(z, seg, d, i, false, 0, in1.m, gz) == Ok(Resume(inZ, seg, i, |loop|, false, true, 0));
    GlueResume(y, z, seg, d, body, i, r, rep, p, m, f, in1.m, gz, inY, inZ, in1.data.partial, replay, run1.data.partial);
    g := gz;
  }

  /** After the inner calls rejoin, so do the calls of the loop's own level. */
  lemma GlueResume(y: Ctx, z: Ctx, seg: seq<Token>, d: nat, body: bool, i: nat, r: bool, rep: bool, p: nat, m: Machine,
                   f: nat, mz: Machine, gz: nat, inY: Run, inZ: Run, pIn: nat, replay: bool, pOut: nat)
    requires Twin(y, z) && z.jump.Some? && BrainCode(seg) && (body ==> |seg| > 0) && Shape(seg, 0, body)
    requires i < |seg| && Shape(seg, i, body) && (body || !rep) && seg[i].op == '[' && InnerLoop(seg, i).Some?
    requires z.jump != Some(seg[i].offset)
    requires var r' := r || y.jump == Some(seg[i].offset);
             && replay == Replaying(y, r')
             && StepOp(y, seg, d, i, r', p, m, f)
                == Ok(Resume(inY, seg, i, |InnerLoop(seg, i).value|, r', replay, p))
    requires StepOp(z, seg, d, i, false, 0, mz, gz) == Ok(Resume(inZ, seg, i, |InnerLoop(seg, i).value|, false, true, 0))
    requires Rejoins(y, z, inY, Ok(inZ), pIn) && pOut == p + pIn + (if replay then 0 else 1)
    requires Sweep(y, seg, d, i, 0, r, rep, p, m, f).Ok?
    ensures Rejoins(y, z, Sweep(y, seg, d, i, 0, r, rep, p, m, f).value, Sweep(z, seg, d, i, 0, false, false, 0, mz, gz), pOut)
  {
    var r' := r || y.jump == Some(seg[i].offset);
    var n := |InnerLoop(seg, i).value|;
    var sy := Resume(inY, seg, i, n, r', replay, p);
    var sz := Resume(inZ, seg, i, n, false, true, 0);
    ResumeTwin(y, z, seg, i, n, r', replay, p, inY, inZ, pIn, pOut);
    if sy.Go? {
      ShapePastLoop(seg, i, body);
      SweepGo(y, seg, d, i, r, rep, p, m, f, sy);
      SweepGo(z, seg, d, i, false, false, 0, mz, gz, sz);
      TwinSweep(y, z, seg, d, i + 1 + n, 0, sy.reached, sz.reached, rep || sy.repeat, false || sz.repeat,
                sy.partial, sz.partial, sy.m, sy.fuel, body);
    } else {
      SweepStop(y, seg, d, i, r, rep, p, m, f, sy.run);
      SweepStop(z, seg, d, i, false, false, 0, mz, gz, sz.run);
    }
  }

  /** A loop's inner calls that rejoin return the same way to the loop's own level. */
  lemma ResumeTwin(y: Ctx, z: Ctx, seg: seq<Token>, i: nat, n: nat, r: bool, replay: bool, p: nat, inY: Run, inZ: Run,
                   pIn: nat, pOut: nat)
    requires i < |seg| && SameRun(y, z, inY, inZ, pIn, 0) && pOut == p + pIn + (if replay then 0 else 1)
    ensures var sy := Resume(inY, seg, i, n, r, replay, p);
            var sz := Resume(inZ, seg, i, n, false, true, 0);
            && sy.Go? == sz.Go?
            && (sy.Go? ==> && sy.skip == n == sz.skip && sy.m == sz.m && sy.fuel == sz.fuel && !sy.repeat && !sz.repeat
                           && Active(y, sy.reached) && Active(z, sz.reached) && sy.partial == sz.partial + pOut)
            && (sy.Stop? ==> SameRun(y, z, sy.run, sz.run, pOut, 0))
  {
  }

  /** `y` takes the `[-]` shortcut but `x`, with a breakpoint on the `-` or the `]`, enters the
      loop and stops there; `z` replays to that breakpoint and drains the cell the long way. */
  lemma GlueDrain(x: Ctx, y: Ctx, z: Ctx, q: nat, seg: seq<Token>, d: nat, body: bool, i: nat,
                  r: bool, rep: bool, p: nat, m: Machine, f: nat, run1: Run) returns (g: nat)
    requires Glue(x, y, z, q) && BrainCode(seg) && Aligned(seg, d) && Shape(seg, 0, body) && (body ==> |seg| > 0)
    requires i < |seg| && Shape(seg, i, body) && (body || !rep) && !IsBreak(x, seg[i].offset, r)
    requires seg[i].op == '[' && PeepholeApplies(y, seg, i, r || x.jump == Some(seg[i].offset), m)
    requires !PeepholeApplies(x, seg, i, r || x.jump == Some(seg[i].offset), m)
    requires Loop(x, seg, d, i, r || x.jump == Some(seg[i].offset), p, m, f) == Ok(Stop(run1)) && StoppedAt(Ok(run1), q)
    requires Sweep(y, seg, d, i, 0, r, rep, p, m, f).Ok?
    ensures d + i <= q
    ensures Rejoins(y, z, Sweep(y, seg, d, i, 0, r, rep, p, m, f).value,
                    Sweep(z, seg, d, i, 0, false, false, 0, run1.m, g), run1.data.partial)
  {
    var r' := r || x.jump == Some(seg[i].offset);
    var v: nat := Current(m.tape);
    var m0 := m.(tape := Store(m.tape, 0));
    PeepholeBody(seg, i);
    assert seg[i].offset == d + i;
    DrainStop(x, seg, d, i, r', p, m, f, run1);
    var pz: nat;
    if q == d + i + 1 {
      DrainReplayDash(z, seg, d, i, q, m, f);
      pz := 2 * v;
    } else {
      DrainReplayClose(z, seg, d, i, q, m, f);
      pz := 2 * v - 1;
    }
    g := f + v;
    var sy := Peephole(seg, i, r', p, m, f);
    var sz := Go(2, true, false, pz, m0, f);
    SweepGo(y, seg, d, i, r, rep, p, m, f, sy);
    SweepGo(z, seg, d, i, false, false, 0, run1.m, g, sz);
    TwinSweep(y, z, seg, d, i + 3, 0, r', true, rep, false, sy.partial, pz, m0, f, body);
  }

  /** Where `x` stops in `[-]` when a breakpoint sits on its `-` or its `]`. */
  lemma DrainStop(x: Ctx, seg: seq<Token>, d: nat, i: nat, r: bool, p: nat, m: Machine, f: nat, run1: Run)
    requires x.breakpoints.Some? && !x.timed && Aligned(seg, d) && i < |seg| && seg[i].op == '['
    requires PeepholeApplies(Unbroken(x), seg, i, r, m) && !PeepholeApplies(x, seg, i, r, m)
    requires Loop(x, seg, d, i, r, p, m, f) == Ok(Stop(run1)) && BreakpointReached in run1.data.code
    ensures || (run1.data.position == d + i + 1 && run1.data.partial == p + 1 && run1.m == m)
            || (run1.data.position == d + i + 2 && run1.data.partial == p + 2 && run1.m == m.(tape := Minus(m.tape)))
  {
    PeepholeBody(seg, i);
    var bd := seg[i + 1..i + 3];
    var off := seg[i].offset;
    assert bd[0].offset == off + 1 && bd[1].offset == off + 2 && off == d + i;
    var bps := x.breakpoints.value;
    var k :| 0 <= k < |bps| && off < bps[k] <= off + 2;
    assert Core(x, bd, d + i + 1, r, m, f) == Sweep(x, bd, d + i + 1, 0, 0, r, false, 0, m, f - 1);
    if !IsBreak(x, off + 1, r) {
      assert bps[k] == off + 2;
      var r1 := r || x.jump == Some(off + 1);
      var m1 := m.(tape := Minus(m.tape));
      assert StepOp(x, bd, d + i + 1, 0, r1, 0, m, f - 1) == Ok(Go(0, r1, false, 1, m1, f - 1));
      assert Sweep(x, bd, d + i + 1, 0, 0, r, false, 0, m, f - 1) == Sweep(x, bd, d + i + 1, 1, 0, r1, false, 1, m1, f - 1);
    }
  }

  /** `z` resumes on the `-` of `[-]`: it replays to it and drains the cell, `v` passes and `2v`
      operations. */
  lemma DrainReplayDash(z: Ctx, seg: seq<Token>, d: nat, i: nat, q: nat, m: Machine, f: nat)
    requires z.breakpoints.None? && !z.timed && z.jump == Some(q) && Aligned(seg, d)
    requires i + 2 < |seg| && seg[i].op == '[' && seg[i + 1].op == '-' && seg[i + 2].op == ']'
    requires q == d + i + 1 && Current(m.tape) > 0
    ensures StepOp(z, seg, d, i, false, 0, m, f + Current(m.tape))
            == Ok(Go(2, true, false, 2 * Current(m.tape), m.(tape := Store(m.tape, 0)), f))
  {
    PeepholeBody(seg, i);
    var bd := seg[i + 1..i + 3];
    var v := Current(m.tape);
    var e := d + i + 1;
    assert bd[0].offset == e && bd[1].offset == e + 1 && seg[i].offset == d + i;
    var m1 := m.(tape := Minus(m.tape));
    var G := f + v;
    assert Core(z, bd, e, false, m, G) == Sweep(z, bd, e, 0, 0, false, false, 0, m, G - 1);
    assert StepOp(z, bd, e, 0, true, 0, m, G - 1) == Ok(Go(0, true, false, 1, m1, G - 1));
    assert Sweep(z, bd, e, 0, 0, false, false, 0, m, G - 1) == Sweep(z, bd, e, 1, 0, true, false, 1, m1, G - 1);
    DrainFrom(z, bd, e, 1, m1, G - 1);
    StoreTwice(m.tape, v - 1, 0);
  }

  /** `z` resumes on the `]` of `[-]`, on the memory after one pass's `-`. */
  lemma DrainReplayClose(z: Ctx, seg: seq<Token>, d: nat, i: nat, q: nat, m: Machine, f: nat)
    requires z.breakpoints.None? && !z.timed && z.jump == Some(q) && Aligned(seg, d)
    requires i + 2 < |seg| && seg[i].op == '[' && seg[i + 1].op == '-' && seg[i + 2].op == ']'
    requires q == d + i + 2 && Current(m.tape) > 0
    ensures StepOp(z, seg, d, i, false, 0, m.(tape := Minus(m.tape)), f + Current(m.tape))
            == Ok(Go(2, true, false, 2 * Current(m.tape) - 1, m.(tape := Store(m.tape, 0)), f))
  {
    PeepholeBody(seg, i);
    var bd := seg[i + 1..i + 3];
    var v := Current(m.tape);
    var e := d + i + 1;
    assert bd[0].offset == e && bd[1].offset == e + 1 && seg[i].offset == d + i;
    var m1 := m.(tape := Minus(m.tape));
    var G := f + v;
    assert Core(z, bd, e, false, m1, G) == Sweep(z, bd, e, 0, 0, false, false, 0, m1, G - 1);
    assert StepOp(z, bd, e, 0, false, 0, m1, G - 1) == Ok(Go(0, false, false, 0, m1, G - 1));
    assert Sweep(z, bd, e, 0, 0, false, false, 0, m1, G - 1) == Sweep(z, bd, e, 1, 0, false, false, 0, m1, G - 1);
    DrainFrom(z, bd, e, 0, m1, G - 1);
    StoreTwice(m.tape, v - 1, 0);
  }

  /** Past its resume point, `z` at the `]` of the body `-]` drains the cell it finds there. */
  lemma DrainFrom(z: Ctx, bd: seq<Token>, e: nat, p: nat, m: Machine, f: nat)
    requires z.breakpoints.None? && !z.timed && z.jump.Some? && |bd| == 2 && bd[0].op == '-' && bd[1].op == ']'
    requires z.jump == Some(bd[1].offset) || z.jump == Some(bd[0].offset)
    requires f >= Current(m.tape)
    ensures Sweep(z, bd, e, 1, 0, z.jump == Some(bd[0].offset), false, p, m, f)
            == Ok(Run(WorkingData({Success}, [], e + 1, true, p + 1 + 2 * Current(m.tape)),
                      m.(tape := Store(m.tape, 0)), f - Current(m.tape)))
  {
    var c := Current(m.tape);
    var r0 := z.jump == Some(bd[0].offset);
    assert r0 || z.jump == Some(bd[1].offset);
    if c == 0 {
      assert m.(tape := Store(m.tape, 0)) == m by { StoreSame(m.tape, 0); }
    } else {
      assert Sweep(z, bd, e, 1, 0, r0, false, p, m, f) == Sweep(z, bd, e, 2, 0, true, true, p + 1, m, f)
             == Iter(z, bd, e, true, true, p + 1, m, f);
      DrainLoop(z, bd, e, true, true, p + 1, m, f);
    }
  }
}
