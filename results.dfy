/** Values the interpreter hands back: the exit-code flags, the working data of one recursive call,
    the function definitions a result lists and the result itself. */
module Results {
  import opened Common
  import opened Tapes
  import opened Tokens

  /** One flag of `InterpreterExitCode`; an exit code is the set of flags it carries. */
  datatype ExitFlag =
    | Success | Failure | NoOutput | TextOutput | BreakpointReached | ExceptionThrown
    | ThresholdExceeded | MismatchedParentheses | NoCodeInterpreted
    | UpperBoundExceeded | LowerBoundExceeded | MaxValueExceeded | NegativeValue
    | StdoutBufferLimitExceeded | StdinBufferExhausted
    | DuplicateFunctionDefinition | FunctionsLimitExceeded | UndefinedFunctionCalled

  type ExitCode = set<ExitFlag>

  /** The exceptions the interpreter itself can throw on inputs its callers can build. */
  datatype Fault =
    | MalformedLoop      // `ExtractInnerLoop` finds no matching `]`
    | MalformedFunction  // `ExtractFunction` finds no `)`
    | InvalidOperator    // the `default` case of the operator switch
    | NoFailingFrame     // `First(frame => frame.Any())` over frames that are all empty
    | EmptyFunctionBody  // `blocks[0]` on a function with an empty body
    | StepBoundReached   // the model's own bound on loop passes ran out (no threshold given)

  datatype Outcome<T> = Ok(value: T) | Crash(fault: Fault)

  /** `InterpreterWorkingData`; an empty `frames` stands for the `null` stack of a call that
      ended normally. */
  datatype WorkingData = WorkingData(code: ExitCode, frames: seq<seq<Token>>, position: nat,
                                     reached: bool, partial: nat)

  datatype FunctionDefinition = FunctionDefinition(key: Cell, offset: nat, body: string)

  datatype ExceptionInfo = ExceptionInfo(trace: seq<string>, offset: nat, source: string)

  /** `InterpreterResult` without its elapsed time. */
  datatype InterpreterResult = InterpreterResult(
    code: ExitCode, tape: Tape, stdout: string, source: string, operations: nat,
    info: Option<ExceptionInfo>, breakpoint: Option<nat>, functions: seq<FunctionDefinition>)

  /** The result of a run that stopped before executing anything. */
  function EarlyResult(code: ExitCode, tape: Tape, source: string): InterpreterResult {
    InterpreterResult(code, tape, [], source, 0, None, None, [])
  }

  /** The output flag a finished run adds to its exit code. */
  function OutputFlag(stdout: string): (r: ExitFlag)
    ensures r in {NoOutput, TextOutput}
    ensures r == NoOutput <==> stdout == []
  {
    if stdout == [] then NoOutput else TextOutput
  }

  // ---------------------------------------------------------------------------------------------
  // Function definitions (lines 535-539) and their reconstruction (lines 607-609, 625-627)

  /** The keys of `s` in ascending order, scanning the cell range upward from `from`. */
  function KeysFrom(s: set<Cell>, from: nat): (r: seq<Cell>)
    decreases ShortMax + 1 - from
    ensures forall j :: 0 <= j < |r| ==> r[j] in s && from <= r[j]
    ensures forall j, k :: 0 <= j < k < |r| ==> r[j] < r[k]
    ensures forall v :: v in s && from <= v ==> v in r
  {
    if from > ShortMax then []
    else if from in s then [from as Cell] + KeysFrom(s, from + 1)
    else KeysFrom(s, from + 1)
  }

  /** `functions.Keys.OrderBy(key => key)`: every key once, ascending. */
  function SortedKeys(functions: map<Cell, seq<Token>>): (r: seq<Cell>)
    ensures forall j, k :: 0 <= j < k < |r| ==> r[j] < r[k]
    ensures forall v :: v in functions <==> v in r
  {
    KeysFrom(functions.Keys, 0)
  }

  /** The definitions for `keys`, in that order; an empty body has no first offset. */
  function DefinitionsOf(functions: map<Cell, seq<Token>>, keys: seq<Cell>): (r: Outcome<seq<FunctionDefinition>>)
    requires forall j :: 0 <= j < |keys| ==> keys[j] in functions
    ensures r.Ok? ==> |r.value| == |keys| && forall j :: 0 <= j < |keys| ==> r.value[j].key == keys[j]
    ensures r.Crash? <==> exists j :: 0 <= j < |keys| && functions[keys[j]] == []
  {
    if keys == [] then Ok([])
    else
      var body := functions[keys[0]];
      if body == [] then Crash(EmptyFunctionBody)
      else match DefinitionsOf(functions, keys[1..])
        case Crash(f) => Crash(f)
        case Ok(rest) => Ok([FunctionDefinition(keys[0], body[0].offset, OpsOf(body))] + rest)
  }

  function Definitions(functions: map<Cell, seq<Token>>): Outcome<seq<FunctionDefinition>> {
    DefinitionsOf(functions, SortedKeys(functions))
  }

  /** A definition's body turned back into tokens numbered from its offset. */
  function BodyTokens(d: FunctionDefinition): (r: seq<Token>)
    ensures OpsOf(r) == d.body && Aligned(r, d.offset)
  {
    seq(|d.body|, k requires 0 <= k < |d.body| => Token(d.offset + k, d.body[k]))
  }

  /** The table a session rebuilds from a result's definitions. */
  function Rebuild(defs: seq<FunctionDefinition>): (r: map<Cell, seq<Token>>)
    ensures forall v :: v in r <==> exists j :: 0 <= j < |defs| && defs[j].key == v
    ensures forall v :: v in r ==> exists j :: 0 <= j < |defs| && defs[j].key == v && r[v] == BodyTokens(defs[j])
  {
    if defs == [] then map[] else Rebuild(defs[1..])[defs[0].key := BodyTokens(defs[0])]
  }

  /** A body the interpreter stores: non-empty and numbered consecutively. */
  ghost predicate Contiguous(body: seq<Token>) {
    body != [] && Aligned(body, body[0].offset)
  }

  lemma ContiguousTokens(body: seq<Token>)
    requires Contiguous(body)
    ensures BodyTokens(FunctionDefinition(0, body[0].offset, OpsOf(body))) == body
  {
  }

  lemma {:induction false} RebuildDefinitionsOf(functions: map<Cell, seq<Token>>, keys: seq<Cell>)
    requires forall j :: 0 <= j < |keys| ==> keys[j] in functions && Contiguous(functions[keys[j]])
    requires DefinitionsOf(functions, keys).Ok?
    ensures forall v :: v in Rebuild(DefinitionsOf(functions, keys).value) <==> v in keys
    ensures forall v :: v in keys ==> Rebuild(DefinitionsOf(functions, keys).value)[v] == functions[v]
  {
    if keys != [] {
      RebuildDefinitionsOf(functions, keys[1..]);
      ContiguousTokens(functions[keys[0]]);
      var defs := DefinitionsOf(functions, keys).value;
      assert defs[1..] == DefinitionsOf(functions, keys[1..]).value;
      forall v | v in keys ensures v == keys[0] || v in keys[1..] {
        var j :| 0 <= j < |keys| && keys[j] == v;
        if j > 0 { assert keys[1..][j - 1] == v; }
      }
    }
  }

  /** Round trip: a table of contiguous bodies survives being listed as definitions and rebuilt,
      which is what resuming a session relies on. */
  lemma RebuildDefinitions(functions: map<Cell, seq<Token>>)
    requires forall v :: v in functions ==> Contiguous(functions[v])
    ensures Definitions(functions).Ok?
    ensures Rebuild(Definitions(functions).value) == functions
  {
    var keys := SortedKeys(functions);
    StoredKeys(functions, keys);
    RebuildDefinitionsOf(functions, keys);
    SameTable(Rebuild(DefinitionsOf(functions, keys).value), functions, keys);
  }

  lemma SameTable(r: map<Cell, seq<Token>>, functions: map<Cell, seq<Token>>, keys: seq<Cell>)
    requires forall v :: v in r <==> v in keys
    requires forall v :: v in functions <==> v in keys
    requires forall v :: v in keys ==> r[v] == functions[v]
    ensures r == functions
  {
    assert r.Keys == functions.Keys;
  }

  lemma StoredKeys(functions: map<Cell, seq<Token>>, keys: seq<Cell>)
    requires forall v :: v in functions ==> Contiguous(functions[v])
    requires forall v :: v in functions <==> v in keys
    ensures forall j :: 0 <= j < |keys| ==> keys[j] in functions && Contiguous(functions[keys[j]])
    ensures DefinitionsOf(functions, keys).Ok?
  {
    forall j | 0 <= j < |keys|
      ensures keys[j] in functions && Contiguous(functions[keys[j]]) && functions[keys[j]] != []
    {
      assert keys[j] in keys;
    }
  }
}
