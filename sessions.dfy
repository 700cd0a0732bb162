/** Debugging sessions (Brainf_ckInterpreter.cs:89-127, 605-632): a script split into chunks runs up
    to the start of each later chunk, and each continuation replays the token stream up to the
    breakpoint it stopped at before carrying on. */
module Sessions {
  import opened Common
  import opened Operators
  import opened Brackets
  import opened Tapes
  import opened Memory
  import opened Tokens
  import opened Results
  import opened EngineSpec
  import opened Engine
  import opened EngineLemmas

  /** `SessionDebugData`: what a session keeps between steps. */
  datatype DebugData = DebugData(source: seq<Token>, stdin: seq<char>, stdout: string,
                                 threshold: Option<int>, breakpoints: seq<nat>)

  /** `InterpreterExecutionSession`; `limit` is the cell bound of the memory the session owns. */
  datatype Session = Session(current: InterpreterResult, debug: Option<DebugData>, mode: OverflowMode, limit: Cell)

  /** A session can move on when it holds debug data and stopped at a breakpoint. */
  predicate CanContinue(s: Session) {
    s.debug.Some? && BreakpointReached in s.current.code
  }

  // ---------------------------------------------------------------------------------------------
  // Building the executable (lines 101-109)

  /** The chunks joined together. */
  function Concat(chunks: seq<string>): (r: string)
    ensures chunks == [] ==> r == []
  {
    if chunks == [] then [] else Concat(chunks[..|chunks| - 1]) + chunks[|chunks| - 1]
  }

  /** The offset of the first token of every chunk after the first. */
  function Breakpoints(chunks: seq<string>): (r: seq<nat>)
    ensures |r| == if chunks == [] then 0 else |chunks| - 1
  {
    if |chunks| <= 1 then [] else Breakpoints(chunks[..|chunks| - 1]) + [|Concat(chunks[..|chunks| - 1])|]
  }

  lemma TokenizeAppend(a: string, b: string, start: nat)
    ensures Tokenize(a + b, start) == Tokenize(a, start) + Tokenize(b, start + |a|)
  {
  }

  lemma ConcatPrefix(chunks: seq<string>, j: nat)
    requires j < |chunks|
    ensures Concat(chunks[..j + 1]) == Concat(chunks[..j]) + chunks[j]
  {
    assert chunks[..j + 1][..j] == chunks[..j];
  }

  /** Breakpoint `j` is the length of the first `j + 1` chunks joined. */
  lemma {:induction false} BreakpointValue(chunks: seq<string>, j: nat)
    requires j + 1 < |chunks|
    ensures Breakpoints(chunks)[j] == |Concat(chunks[..j + 1])|
    decreases |chunks|
  {
    var init := chunks[..|chunks| - 1];
    if j + 1 < |init| {
      BreakpointValue(init, j);
      assert init[..j + 1] == chunks[..j + 1];
    } else {
      assert init == chunks[..j + 1];
    }
  }

  /** Breakpoint `j` is where chunk `j + 1` starts in the joined code, so the token there is that
      chunk's first operator. */
  lemma BreakpointsAtChunkStarts(chunks: seq<string>)
    requires forall j :: 0 <= j < |chunks| ==> chunks[j] != []
    ensures forall j :: 0 <= j < |Breakpoints(chunks)| ==>
              && Breakpoints(chunks)[j] == |Concat(chunks[..j + 1])|
              && Breakpoints(chunks)[j] < |Concat(chunks)|
              && Concat(chunks)[Breakpoints(chunks)[j]] == chunks[j + 1][0]
  {
    forall j | 0 <= j < |Breakpoints(chunks)|
      ensures Breakpoints(chunks)[j] == |Concat(chunks[..j + 1])|
      ensures Breakpoints(chunks)[j] < |Concat(chunks)|
      ensures Concat(chunks)[Breakpoints(chunks)[j]] == chunks[j + 1][0]
    {
      BreakpointValue(chunks, j);
      ConcatPrefix(chunks, j + 1);
      assert Concat(chunks[..j + 2])[Breakpoints(chunks)[j]] == chunks[j + 1][0];
      PrefixIndex(chunks, j + 2, Breakpoints(chunks)[j]);
    }
  }

  lemma PrefixIndex(chunks: seq<string>, j: nat, k: nat)
    requires j <= |chunks| && k < |Concat(chunks[..j])|
    ensures k < |Concat(chunks)| && Concat(chunks)[k] == Concat(chunks[..j])[k]
    decreases |chunks| - j
  {
    if j < |chunks| {
      ConcatPrefix(chunks, j);
      PrefixIndex(chunks, j + 1, k);
    } else {
      assert chunks[..j] == chunks;
    }
  }

  /** Every chunk filtered on its own. */
  function Filtered(source: seq<string>): (r: seq<string>)
    ensures |r| == |source| && forall j :: 0 <= j < |source| ==> r[j] == FindExecutableCode(source[j])
  {
    seq(|source|, j requires 0 <= j < |source| => FindExecutableCode(source[j]))
  }

  /** The loop of lines 104-109: the chunks' tokens numbered continuously, and a breakpoint at the
      start of every chunk after the first. */
  method BuildExecutable(chunks: seq<string>) returns (executable: seq<Token>, breakpoints: seq<nat>)
    ensures executable == Tokenize(Concat(chunks), 0) && breakpoints == Breakpoints(chunks)
  {
    executable := [];
    breakpoints := [];
    var offset: nat := 0;
    for i := 0 to |chunks|
      invariant executable == Tokenize(Concat(chunks[..i]), 0)
      invariant breakpoints == Breakpoints(chunks[..i])
      invariant offset == |Concat(chunks[..i])|
    {
      ConcatPrefix(chunks, i);
      if i > 0 {
        assert chunks[..i + 1][..i] == chunks[..i];
        breakpoints := breakpoints + [offset];
      }
      TokenizeAppend(Concat(chunks[..i]), chunks[i], 0);
      executable := executable + Tokenize(chunks[i], offset);
      offset := offset + |chunks[i]|;
    }
    assert chunks[..|chunks|] == chunks;
  }

  // ---------------------------------------------------------------------------------------------
  // The three session operations

  /** `InitializeSession` (lines 89-127). */
  ghost function InitializeSessionSpec(source: seq<string>, arguments: string, mode: OverflowMode, size: nat,
                                       limit: Cell, threshold: Option<int>, ticks: nat): (r: Outcome<Session>)
    requires size > 0 && (threshold.Some? ==> threshold.value > 0)
    ensures r.Ok? ==> r.value.mode == mode && r.value.limit == limit
    ensures r.Ok? && r.value.debug.None? ==>
              Failure in r.value.current.code && r.value.current.tape == Fresh(size) && r.value.current.operations == 0
    ensures r.Ok? && r.value.debug.Some? ==>
              && r.value.debug.value.source == Tokenize(Concat(Filtered(source)), 0)
              && r.value.debug.value.breakpoints == Breakpoints(Filtered(source))
              && r.value.debug.value.threshold == threshold
              && r.value.debug.value.stdout == r.value.current.stdout
              && r.value.current.source == Concat(Filtered(source))
  {
    var chunks := Filtered(source);
    var tape := Fresh(size);
    if |chunks| == 0 || exists j :: 0 <= j < |chunks| && chunks[j] == [] then
      Ok(Session(EarlyResult({Failure, NoCodeInterpreted}, tape, []), None, mode, limit))
    else
      var executable := Tokenize(Concat(chunks), 0);
      var breakpoints := Breakpoints(chunks);
      if !Balanced(OpsOf(executable)) then
        Ok(Session(EarlyResult({Failure, MismatchedParentheses}, tape, OpsOf(executable)), None, mode, limit))
      else
        ConcatNonEmpty(chunks);
        match TryRunSpec(executable, arguments, [], tape, mode, limit, threshold, ticks, 0, None,
                         if |breakpoints| > 0 then Some(breakpoints) else None, map[])
        case Crash(f) => Crash(f)
        case Ok(finished) =>
          Ok(Session(finished.result, Some(DebugData(executable, finished.stdin, finished.result.stdout, threshold, breakpoints)),
                     mode, limit))
  }

  /** A script whose chunks all hold operators and whose loops are balanced starts its session
      with one run of the joined tokens. */
  lemma InitializeRuns(source: seq<string>, arguments: string, mode: OverflowMode, size: nat, limit: Cell,
                       threshold: Option<int>, ticks: nat)
    requires size > 0 && (threshold.Some? ==> threshold.value > 0)
    requires |source| > 0 && forall j :: 0 <= j < |source| ==> Filtered(source)[j] != []
    requires Balanced(Concat(Filtered(source)))
    ensures |Concat(Filtered(source))| > 0
    ensures var executable := Tokenize(Concat(Filtered(source)), 0);
            var breakpoints := Breakpoints(Filtered(source));
            InitializeSessionSpec(source, arguments, mode, size, limit, threshold, ticks)
            == match TryRunSpec(executable, arguments, [], Fresh(size), mode, limit, threshold, ticks, 0, None,
                                if |breakpoints| > 0 then Some(breakpoints) else None, map[])
               case Crash(f) => Crash(f)
               case Ok(finished) =>
                 Ok(Session(finished.result, Some(DebugData(executable, finished.stdin, finished.result.stdout, threshold,
                                                            breakpoints)), mode, limit))
  {
    ConcatNonEmpty(Filtered(source));
  }

  lemma ConcatNonEmpty(chunks: seq<string>)
    requires |chunks| > 0 && chunks[|chunks| - 1] != []
    ensures |Concat(chunks)| > 0
  {
  }

  method InitializeSession(source: seq<string>, arguments: string, mode: OverflowMode, size: nat, limit: Cell,
                           threshold: Option<int>, ticks: nat) returns (r: Outcome<Session>)
    requires size > 0 && (threshold.Some? ==> threshold.value > 0)
    ensures r == InitializeSessionSpec(source, arguments, mode, size, limit, threshold, ticks)
  {
    var tape := new MachineState(size, limit);
    var chunks := Filtered(source);
    if |chunks| == 0 || exists j :: 0 <= j < |chunks| && chunks[j] == [] {
      return Ok(Session(EarlyResult({Failure, NoCodeInterpreted}, tape.Value(), []), None, mode, limit));
    }
    var executable, breakpoints := BuildExecutable(chunks);
    var ok := CheckTokenSyntax(executable);
    if !ok {
      return Ok(Session(EarlyResult({Failure, MismatchedParentheses}, tape.Value(), OpsOf(executable)), None, mode, limit));
    }
    ConcatNonEmpty(chunks);
    var finished := TryRun(executable, arguments, [], tape, mode, threshold, ticks, 0, None,
                           if |breakpoints| > 0 then Some(breakpoints) else None, map[]);
    if finished.Crash? { return Crash(finished.fault); }
    var result := finished.value.result;
    return Ok(Session(result, Some(DebugData(executable, finished.value.stdin, result.stdout, threshold, breakpoints)),
                      mode, limit));
  }

  /** The argument checks (lines 264-271) a step of `s` must pass, with the given breakpoints. */
  predicate CanStep(s: Session, breakpoints: Option<seq<nat>>) {
    s.debug.Some? && ValidArguments(s.debug.value.source, s.debug.value.threshold, s.current.breakpoint, breakpoints)
  }

  /** One more step of `s`: replay to its breakpoint and run on to the next one (or with
      `breakpoints` absent, to the end), on the memory, queues and counts carried over. */
  ghost function StepSpec(s: Session, breakpoints: Option<seq<nat>>, ticks: nat): (r: Outcome<Session>)
    requires CanStep(s, breakpoints)
    ensures r.Ok? ==> && r.value.debug.Some? && r.value.mode == s.mode && r.value.limit == s.limit
                      && r.value.debug.value.source == s.debug.value.source
                      && r.value.debug.value.breakpoints == s.debug.value.breakpoints
                      && r.value.debug.value.threshold == s.debug.value.threshold
                      && r.value.debug.value.stdout == r.value.current.stdout
                      && r.value.current.source == OpsOf(s.debug.value.source)
                      && r.value.current.operations >= s.current.operations
  {
    var d := s.debug.value;
    match TryRunSpec(d.source, d.stdin, d.stdout, s.current.tape, s.mode, s.limit, d.threshold, ticks,
                     s.current.operations, s.current.breakpoint, breakpoints, Rebuild(s.current.functions))
    case Crash(f) => Crash(f)
    case Ok(finished) =>
      Ok(Session(finished.result, Some(d.(stdin := finished.stdin, stdout := finished.result.stdout)), s.mode, s.limit))
  }

  method Step(s: Session, breakpoints: Option<seq<nat>>, ticks: nat) returns (r: Outcome<Session>)
    requires CanStep(s, breakpoints)
    ensures r == StepSpec(s, breakpoints, ticks)
  {
    var d := s.debug.value;
    var tape := new MachineState.Restore(s.current.tape, s.limit);
    var finished := TryRun(d.source, d.stdin, d.stdout, tape, s.mode, d.threshold, ticks, s.current.operations,
                           s.current.breakpoint, breakpoints, Rebuild(s.current.functions));
    if finished.Crash? { return Crash(finished.fault); }
    return Ok(Session(finished.value.result, Some(d.(stdin := finished.value.stdin, stdout := finished.value.result.stdout)),
                      s.mode, s.limit));
  }

  /** `ContinueSession` (lines 605-615): a step with the session's breakpoints. */
  method ContinueSession(s: Session, ticks: nat) returns (r: Outcome<Session>)
    requires s.debug.Some? && CanStep(s, Some(s.debug.value.breakpoints))
    ensures r == StepSpec(s, Some(s.debug.value.breakpoints), ticks)
  {
    r := Step(s, Some(s.debug.value.breakpoints), ticks);
  }

  /** `RunSessionToCompletion` (lines 622-632): a step with no breakpoints. */
  method RunSessionToCompletion(s: Session, ticks: nat) returns (r: Outcome<Session>)
    requires CanStep(s, None)
    ensures r == StepSpec(s, None, ticks)
  {
    r := Step(s, None, ticks);
  }

  /** Any chunk without operators, or no chunk at all, gives a session that cannot continue and
      reports `Failure | NoCodeInterpreted`. */
  lemma EmptyChunkRejected(source: seq<string>, arguments: string, mode: OverflowMode, size: nat, limit: Cell,
                           threshold: Option<int>, ticks: nat)
    requires size > 0 && (threshold.Some? ==> threshold.value > 0)
    requires source == [] || exists j :: 0 <= j < |source| && NoOperators(source[j])
    ensures var r := InitializeSessionSpec(source, arguments, mode, size, limit, threshold, ticks);
            && r.Ok? && !CanContinue(r.value) && r.value.current.code == {Failure, NoCodeInterpreted}
            && r.value.current.tape == Fresh(size)
  {
    if source != [] {
      var j :| 0 <= j < |source| && NoOperators(source[j]);
      FilterEmptyIff(source[j]);
    }
  }

  // ---------------------------------------------------------------------------------------------
  // Resuming

  /** What lets a session be stepped again: its debug data holds a usable token stream numbered
      from 0, it reports a breakpoint position exactly when it stopped at one, and that position
      is one of its breakpoints inside the stream. */
  ghost predicate Resumable(s: Session) {
    s.debug.Some? ==>
      var d := s.debug.value;
      && |d.source| > 0 && Aligned(d.source, 0) && (d.threshold.Some? ==> d.threshold.value > 0)
      && (s.current.breakpoint.Some? <==> BreakpointReached in s.current.code)
      && (s.current.breakpoint.Some? ==> s.current.breakpoint.value in d.breakpoints
                                         && s.current.breakpoint.value < |d.source|)
  }

  /** A resumable session passes the argument checks of both ways of stepping it: running to
      completion always, and continuing whenever it stopped at a breakpoint. */
  lemma ResumableCanStep(s: Session)
    requires Resumable(s) && s.debug.Some?
    ensures CanStep(s, None)
    ensures CanContinue(s) ==> CanStep(s, Some(s.debug.value.breakpoints))
  {
  }

  lemma CallFreeTokens(code: string, start: nat)
    requires ':' !in code
    ensures CallFree(Tokenize(code, start))
  {
    forall k | 0 <= k < |code| ensures Tokenize(code, start)[k].op != ':' {
      assert Tokenize(code, start)[k].op == code[k];
    }
  }

  /** A script without calls starts a resumable session (a breakpoint stop is at the start of a
      later chunk's first token, since the stop is at a breakpoint offset in the stream). */
  lemma InitializeResumable(source: seq<string>, arguments: string, mode: OverflowMode, size: nat, limit: Cell,
                            threshold: Option<int>, ticks: nat)
    requires size > 0 && (threshold.Some? ==> threshold.value > 0)
    requires ':' !in Concat(Filtered(source))
    ensures var r := InitializeSessionSpec(source, arguments, mode, size, limit, threshold, ticks);
            r.Ok? ==> Resumable(r.value)
  {
    var chunks := Filtered(source);
    if !(|chunks| == 0 || exists j :: 0 <= j < |chunks| && chunks[j] == []) {
      var executable := Tokenize(Concat(chunks), 0);
      var breakpoints := Breakpoints(chunks);
      if Balanced(OpsOf(executable)) {
        ConcatNonEmpty(chunks);
        CallFreeTokens(Concat(chunks), 0);
        var bps := if |breakpoints| > 0 then Some(breakpoints) else None;
        RunStopsAtBreakpoint(executable, arguments, [], Fresh(size), mode, limit, threshold, ticks, 0, None, bps, map[]);
      }
    }
  }

  /** Stepping a resumable session of call-free code, with its own breakpoints or with none,
      leaves a resumable session. */
  lemma StepResumable(s: Session, breakpoints: Option<seq<nat>>, ticks: nat)
    requires Resumable(s) && CanStep(s, breakpoints) && CallFree(s.debug.value.source)
    requires breakpoints.Some? ==> breakpoints.value == s.debug.value.breakpoints
    ensures StepSpec(s, breakpoints, ticks).Ok? ==> Resumable(StepSpec(s, breakpoints, ticks).value)
  {
    var d := s.debug.value;
    RunStopsAtBreakpoint(d.source, d.stdin, d.stdout, s.current.tape, s.mode, s.limit, d.threshold, ticks,
                         s.current.operations, s.current.breakpoint, breakpoints, Rebuild(s.current.functions));
  }

  /** A run of call-free code numbered from 0 reports a breakpoint position exactly when it stopped
      at one, and that position is one of the breakpoints and an offset of the code. */
  lemma RunStopsAtBreakpoint(executable: seq<Token>, stdin: seq<char>, stdout: string, tape: Tape, mode: OverflowMode,
                             limit: Cell, threshold: Option<int>, ticks: nat, operations: nat, jump: Option<nat>,
                             breakpoints: Option<seq<nat>>, functions: map<Cell, seq<Token>>)
    requires ValidArguments(executable, threshold, jump, breakpoints)
    requires CallFree(executable) && Aligned(executable, 0)
    ensures var r := TryRunSpec(executable, stdin, stdout, tape, mode, limit, threshold, ticks, operations, jump,
                                breakpoints, functions);
            r.Ok? ==> && (r.value.result.breakpoint.Some? <==> BreakpointReached in r.value.result.code)
                      && (r.value.result.breakpoint.Some? ==>
                            && breakpoints.Some? && r.value.result.breakpoint.value in breakpoints.value
                            && r.value.result.breakpoint.value < |executable|)
  {
    var ctx := Ctx(jump, breakpoints, mode, limit, threshold.Some?);
    CoreSound(ctx, executable, 0, false, Machine(tape, stdin, stdout, functions), ticks);
  }

  /** Running a session to completion never stops at a breakpoint, so the session it leaves
      cannot continue. */
  lemma CompletionEnds(s: Session, ticks: nat)
    requires CanStep(s, None)
    ensures StepSpec(s, None, ticks).Ok? ==> !CanContinue(StepSpec(s, None, ticks).value)
  {
    var d := s.debug.value;
    var ctx := Ctx(s.current.breakpoint, None, s.mode, s.limit, d.threshold.Some?);
    CoreSound(ctx, d.source, 0, false, Machine(s.current.tape, d.stdin, d.stdout, Rebuild(s.current.functions)), ticks);
  }

  // ---------------------------------------------------------------------------------------------
  // Resuming at the breakpoint's own token

  /** Where a stopped run should be resumed from: the offset of the token it stopped on, which is
      the last token of the innermost frame of its trace. The source resumes from the reported
      position instead, which inside a call is the call depth plus the index in the body. */
  function ResumePoint(r: InterpreterResult): Option<nat> {
    if r.breakpoint.Some? && r.info.Some? then Some(r.info.value.offset) else None
  }

  predicate CorrectedCanStep(s: Session, breakpoints: Option<seq<nat>>) {
    s.debug.Some? && ValidArguments(s.debug.value.source, s.debug.value.threshold, ResumePoint(s.current), breakpoints)
  }

  /** A step that resumes from `ResumePoint` instead of the reported position. */
  ghost function CorrectedStepSpec(s: Session, breakpoints: Option<seq<nat>>, ticks: nat): (r: Outcome<Session>)
    requires CorrectedCanStep(s, breakpoints)
    ensures r.Ok? ==> && r.value.debug.Some? && r.value.mode == s.mode && r.value.limit == s.limit
                      && r.value.debug.value.source == s.debug.value.source
                      && r.value.debug.value.breakpoints == s.debug.value.breakpoints
                      && r.value.current.operations >= s.current.operations
  {
    var d := s.debug.value;
    match TryRunSpec(d.source, d.stdin, d.stdout, s.current.tape, s.mode, s.limit, d.threshold, ticks,
                     s.current.operations, ResumePoint(s.current), breakpoints, Rebuild(s.current.functions))
    case Crash(f) => Crash(f)
    case Ok(finished) =>
      Ok(Session(finished.result, Some(d.(stdin := finished.stdin, stdout := finished.result.stdout)), s.mode, s.limit))
  }

  /** What lets a session be resumed from its breakpoint's token: usable debug data whose
      breakpoints all fall inside the stream, and a resume point exactly when it stopped at a
      breakpoint, that is one of those breakpoints. */
  ghost predicate ResumableAtToken(s: Session) {
    s.debug.Some? ==>
      var d := s.debug.value;
      && |d.source| > 0 && (d.threshold.Some? ==> d.threshold.value > 0)
      && (forall j :: 0 <= j < |d.breakpoints| ==> d.breakpoints[j] < |d.source|)
      && (ResumePoint(s.current).Some? <==> BreakpointReached in s.current.code)
      && (ResumePoint(s.current).Some? ==> ResumePoint(s.current).value in d.breakpoints)
  }

  /** Such a session passes the argument checks of both ways of stepping it. */
  lemma ResumableAtTokenCanStep(s: Session)
    requires ResumableAtToken(s) && s.debug.Some?
    ensures CorrectedCanStep(s, None)
    ensures CanContinue(s) ==> CorrectedCanStep(s, Some(s.debug.value.breakpoints))
  {
  }

  /** Any run, calls included, that stops at a breakpoint has a trace whose innermost frame ends
      at that breakpoint's token, so its resume point is one of the breakpoints. */
  lemma RunStopsAtToken(executable: seq<Token>, stdin: seq<char>, stdout: string, tape: Tape, mode: OverflowMode,
                        limit: Cell, threshold: Option<int>, ticks: nat, operations: nat, jump: Option<nat>,
                        breakpoints: Option<seq<nat>>, functions: map<Cell, seq<Token>>)
    requires ValidArguments(executable, threshold, jump, breakpoints)
    ensures var r := TryRunSpec(executable, stdin, stdout, tape, mode, limit, threshold, ticks, operations, jump,
                                breakpoints, functions);
            r.Ok? ==> && (ResumePoint(r.value.result).Some? <==> BreakpointReached in r.value.result.code)
                      && (ResumePoint(r.value.result).Some? ==>
                            breakpoints.Some? && ResumePoint(r.value.result).value in breakpoints.value)
  {
    var ctx := Ctx(jump, breakpoints, mode, limit, threshold.Some?);
    CoreSound(ctx, executable, 0, false, Machine(tape, stdin, stdout, functions), ticks);
  }

  /** Every script starts a session that can be resumed from its breakpoint's token. */
  lemma InitializeResumableAtToken(source: seq<string>, arguments: string, mode: OverflowMode, size: nat, limit: Cell,
                                   threshold: Option<int>, ticks: nat)
    requires size > 0 && (threshold.Some? ==> threshold.value > 0)
    ensures var r := InitializeSessionSpec(source, arguments, mode, size, limit, threshold, ticks);
            r.Ok? ==> ResumableAtToken(r.value)
  {
    var chunks := Filtered(source);
    if !(|chunks| == 0 || exists j :: 0 <= j < |chunks| && chunks[j] == []) {
      var executable := Tokenize(Concat(chunks), 0);
      var breakpoints := Breakpoints(chunks);
      if Balanced(OpsOf(executable)) {
        ConcatNonEmpty(chunks);
        BreakpointsAtChunkStarts(chunks);
        var bps := if |breakpoints| > 0 then Some(breakpoints) else None;
        RunStopsAtToken(executable, arguments, [], Fresh(size), mode, limit, threshold, ticks, 0, None, bps, map[]);
      }
    }
  }

  /** Stepping such a session from its resume point, with its own breakpoints or with none,
      leaves one that can be resumed the same way. */
  lemma CorrectedStepResumable(s: Session, breakpoints: Option<seq<nat>>, ticks: nat)
    requires ResumableAtToken(s) && CorrectedCanStep(s, breakpoints)
    requires breakpoints.Some? ==> breakpoints.value == s.debug.value.breakpoints
    ensures CorrectedStepSpec(s, breakpoints, ticks).Ok? ==> ResumableAtToken(CorrectedStepSpec(s, breakpoints, ticks).value)
  {
    var d := s.debug.value;
    RunStopsAtToken(d.source, d.stdin, d.stdout, s.current.tape, s.mode, s.limit, d.threshold, ticks,
                    s.current.operations, ResumePoint(s.current), breakpoints, Rebuild(s.current.functions));
  }
}
