/** The one-shot entry points: `Run` and the `TryRun(String, …)` it calls
    (Brainf_ckInterpreter.cs:52-76, 215-239). */
module Runs {
  import opened Common
  import opened Operators
  import opened Brackets
  import opened Tapes
  import opened Memory
  import opened Tokens
  import opened Results
  import opened EngineSpec
  import opened Engine
  import opened EngineLemmas

  /** What running `source` on a memory holding `state` returns. */
  ghost function RunSpec(source: string, arguments: string, state: Tape, mode: OverflowMode, limit: Cell,
                         threshold: Option<int>, ticks: nat): (r: Outcome<InterpreterResult>)
    requires threshold.Some? ==> threshold.value > 0
    ensures r.Ok? ==> r.value.source == FindExecutableCode(source)
    ensures r.Ok? && !Balanced(FindExecutableCode(source)) ==>
              r.value.tape == state && r.value.stdout == [] && r.value.operations == 0
    ensures r.Ok? && FindExecutableCode(source) != [] && Balanced(FindExecutableCode(source)) ==>
              OutputFlag(r.value.stdout) in r.value.code
  {
    var executable := Tokenize(FindExecutableCode(source), 0);
    if executable == [] then Ok(EarlyResult({Failure, NoCodeInterpreted}, state, []))
    else if !Balanced(OpsOf(executable)) then
      Ok(EarlyResult({Failure, MismatchedParentheses}, state, OpsOf(executable)))
    else
      match TryRunSpec(executable, arguments, [], state, mode, limit, threshold, ticks, 0, None, None, map[])
      case Crash(f) => Crash(f)
      case Ok(finished) => Ok(finished.result)
  }

  /** `TryRun(String source, …)`: numbers the operators by their index in the filtered code,
      rejects empty and unbalanced code, then runs it with no breakpoints. */
  method TryRunSource(source: string, arguments: string, tape: MachineState, mode: OverflowMode,
                      threshold: Option<int>, ticks: nat) returns (r: Outcome<InterpreterResult>)
    requires tape.Valid() && (threshold.Some? ==> threshold.value > 0)
    modifies tape, tape.cells
    ensures r == RunSpec(source, arguments, old(tape.Value()), mode, tape.limit, threshold, ticks)
  {
    var executable := Tokenize(FindExecutableCode(source), 0);
    if |executable| == 0 {
      return Ok(EarlyResult({Failure, NoCodeInterpreted}, tape.Value(), []));
    }
    var ok := CheckTokenSyntax(executable);
    if !ok {
      return Ok(EarlyResult({Failure, MismatchedParentheses}, tape.Value(), OpsOf(executable)));
    }
    var finished := TryRun(executable, arguments, [], tape, mode, threshold, ticks, 0, None, None, map[]);
    if finished.Crash? { return Crash(finished.fault); }
    return Ok(finished.value.result);
  }

  /** `Run(source, arguments, mode, size, threshold)`: runs on a fresh memory of `size` cells. */
  method Run(source: string, arguments: string, mode: OverflowMode, size: nat, limit: Cell,
             threshold: Option<int>, ticks: nat) returns (r: Outcome<InterpreterResult>)
    requires size > 0 && (threshold.Some? ==> threshold.value > 0)
    ensures r == RunSpec(source, arguments, Fresh(size), mode, limit, threshold, ticks)
  {
    var tape := new MachineState(size, limit);
    r := TryRunSource(source, arguments, tape, mode, threshold, ticks);
  }

  /** `Run(source, arguments, state, mode, threshold)`: runs on a copy of `state`. */
  method RunFrom(source: string, arguments: string, state: Tape, mode: OverflowMode, limit: Cell,
                 threshold: Option<int>, ticks: nat) returns (r: Outcome<InterpreterResult>)
    requires threshold.Some? ==> threshold.value > 0
    ensures r == RunSpec(source, arguments, state, mode, limit, threshold, ticks)
  {
    var tape := new MachineState.Restore(state, limit);
    r := TryRunSource(source, arguments, tape, mode, threshold, ticks);
  }

  /** A source without operators is reported as `Failure | NoCodeInterpreted` and the memory is
      handed back untouched. */
  lemma NoCodeRun(source: string, arguments: string, state: Tape, mode: OverflowMode, limit: Cell,
                  threshold: Option<int>, ticks: nat)
    requires threshold.Some? ==> threshold.value > 0
    requires NoOperators(source)
    ensures RunSpec(source, arguments, state, mode, limit, threshold, ticks)
            == Ok(EarlyResult({Failure, NoCodeInterpreted}, state, []))
  {
    FilterEmptyIff(source);
  }

  /** Unbalanced loop brackets are reported as `Failure | MismatchedParentheses` with the filtered
      code, before anything runs. */
  lemma UnbalancedRejected(source: string, arguments: string, state: Tape, mode: OverflowMode, limit: Cell,
                           threshold: Option<int>, ticks: nat)
    requires threshold.Some? ==> threshold.value > 0
    requires !NoOperators(source) && !Balanced(FindExecutableCode(source))
    ensures RunSpec(source, arguments, state, mode, limit, threshold, ticks)
            == Ok(EarlyResult({Failure, MismatchedParentheses}, state, FindExecutableCode(source)))
  {
    FilterEmptyIff(source);
  }

  /** The two early flags mean exactly what they say: `NoCodeInterpreted` is reported exactly
      for a source without operators, and `MismatchedParentheses` exactly for one whose loop
      brackets are unbalanced; the core itself never sets either. */
  lemma EarlyFlagsExact(source: string, arguments: string, state: Tape, mode: OverflowMode, limit: Cell,
                        threshold: Option<int>, ticks: nat)
    requires threshold.Some? ==> threshold.value > 0
    ensures var r := RunSpec(source, arguments, state, mode, limit, threshold, ticks);
            r.Ok? ==> && (NoCodeInterpreted in r.value.code <==> NoOperators(source))
                      && (MismatchedParentheses in r.value.code <==>
                            !NoOperators(source) && !Balanced(FindExecutableCode(source)))
  {
    FilterEmptyIff(source);
    var executable := Tokenize(FindExecutableCode(source), 0);
    var ctx := Ctx(None, None, mode, limit, threshold.Some?);
    CoreSound(ctx, executable, 0, false, Machine(state, arguments, [], map[]), ticks);
  }
}
