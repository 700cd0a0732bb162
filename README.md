# Brainf_ck# interpreter core, line differ and stdin buffer in Dafny

This project models three parts of Brainf_ck#, an interpreter and IDE for Brainf_ck and its PBrain
extension, and proves properties of each model.

- **The interpreter** (`Brainf_ck-sharp/Brainf_ckInterpreter.cs`). The model covers:
  - the operator filter;
  - the string-level and token-level syntax checks;
  - the extraction of loop and function bodies;
  - the recursive core `TryRunCore`, with its operator switch, the `[-]` shortcut, breakpoints and
    replay;
  - the building of an `InterpreterResult`;
  - the one-shot `Run` entry points;
  - debugging sessions: `InitializeSession`, `ContinueSession` and `RunSessionToCompletion`.

  The core is specified by mutually recursive functions (`EngineSpec`). It is also written the way
  the source runs it, as a class that updates a memory object in place (`Engine.Interpreter`), and
  proved equal to that specification. The memory, `TouringMachineState`, is modelled as a class over
  an array of cells (`Memory.MachineState`) together with its snapshot value (`Tapes`).

  For scripts of plain Brainf_ck, a debugging session is proved to end as one run of the joined
  chunks does: the same memory, output, exit code and operation count (`SessionReplay`, built on
  `Resumption` and `Replay`). A stop at a breakpoint followed by a replay to it rejoins the
  uninterrupted run. A session that cannot continue already holds that run's result.
- **The line differ** (`src/Brainf_ckSharp.Git/LineDiffer.cs`). This is Paul Heckel's diff, run in
  five numbered passes and a final pass over two temporary arrays. The model states each pass once as a function on sequences
  of slots and once as a method on arrays. `ComputeDiff` composes the methods.
- **The stdin buffer** (`src/Brainf_ckSharp/Buffers/StdinBuffer.cs`). This is a read cursor over a
  string.

Two kinds of value stand in for things the model cannot take from the running system:
- A tick budget (`ticks`, `fuel`) replaces the stopwatch that the core checks at the start of every
  pass of its `do`/`while` loop.
- The run's exceptions become `Outcome.Crash` values. They are the `ArgumentOutOfRangeException`
  and `ArgumentException` that the body extractors throw (lines 558, 572, 585 and 593), the
  `InvalidOperationException` of `First()` on frames that are all empty (line 530), the
  exception of indexing an empty function body (line 538) and the `ArgumentOutOfRangeException`
  of the operator switch's `default` case (line 513).

## Model

All source paths below are relative to the repository root.

| member | source | states |
|---|---|---|
| Operators.FindExecutableCode | Brainf_ck-sharp/Brainf_ckInterpreter.cs:637-638 | the filtered code is no longer than the source and holds only the eleven operator characters |
| Operators.FilterAppend | Brainf_ck-sharp/Brainf_ckInterpreter.cs:637-638 | filtering distributes over concatenation, so filtering the chunks of a session one by one and joining them equals filtering the whole script |
| Operators.FilterSingle | Brainf_ck-sharp/Brainf_ckInterpreter.cs:24 | a single character survives exactly when it is in the operator set |
| Operators.FilterEmptyIff | Brainf_ck-sharp/Brainf_ckInterpreter.cs:637-638 | the filter yields nothing if and only if the source contains no operator |
| Operators.FilterKeepsOperators | Brainf_ck-sharp/Brainf_ckInterpreter.cs:637-638 | a string made only of operators passes through unchanged |
| Operators.FilterIdempotent | Brainf_ck-sharp/Brainf_ckInterpreter.cs:637-638 | filtering twice is the same as filtering once |
| Operators.FilterCounts | Brainf_ck-sharp/Brainf_ckInterpreter.cs:637-638 | every operator keeps its number of occurrences and every other character disappears |
| Brackets.UnderflowPersists | Brainf_ck-sharp/Brainf_ckInterpreter.cs:160-173 | once a `]` closes more loops than were opened, every longer prefix is unbalanced as well |
| Brackets.UnmatchedCloseUnique | Brainf_ck-sharp/Brainf_ckInterpreter.cs:166-169 | at most one position is the first unmatched `]` |
| Brackets.UnclosedOpenUnique | Brainf_ck-sharp/Brainf_ckInterpreter.cs:162-164 | at most one position is the last `[` opened at the outer level |
| Brackets.ErrorsExclusive | Brainf_ck-sharp/Brainf_ckInterpreter.cs:156-177 | the two kinds of loop error never hold of the same text |
| Syntax.ParenScanCorrect | Brainf_ck-sharp/Brainf_ckInterpreter.cs:139-153 | from any loop state that agrees with the trace, the scan reports an error only where `(` nests or `)` closes nothing, and reports nothing only when the trace never fails |
| Syntax.TraceFailurePersists | Brainf_ck-sharp/Brainf_ckInterpreter.cs:139-153 | once the function-parenthesis trace fails, every longer prefix fails too |
| Syntax.ErrorBreaksTrace | Brainf_ck-sharp/Brainf_ckInterpreter.cs:139-153 | an offending parenthesis anywhere makes the whole source function-unbalanced |
| Syntax.FirstParenErrorSpec | Brainf_ck-sharp/Brainf_ckInterpreter.cs:139-153 | the pass reports nothing if and only if the source never nests or overcloses functions, and it reports exactly the first offending character |
| Syntax.LoopScanCorrect | Brainf_ck-sharp/Brainf_ckInterpreter.cs:160-176 | from any consistent intermediate state, the loop accepts exactly the balanced texts, with position 0; otherwise it reports the first unmatched `]` or the last outer `[` |
| Syntax.LoopCheckSpec | Brainf_ck-sharp/Brainf_ckInterpreter.cs:156-177 | `CheckSyntaxCore` is true if and only if the loop brackets are balanced, reports position 0 then, and otherwise points at the error |
| Syntax.LoopCheckReports | Brainf_ck-sharp/Brainf_ckInterpreter.cs:156-177 | the converse: each loop error is reported at its own position |
| Syntax.EmptyPair | Brainf_ck-sharp/Brainf_ckInterpreter.cs:180-181 | the first match of `[(][)]`: a `(` followed by `)`, with no such pair before it |
| Syntax.LazyEnd | Brainf_ck-sharp/Brainf_ckInterpreter.cs:182 | the lazy end of `.+?[)]`: the first `)` at or after the start, with no newline before it |
| Syntax.Matches | Brainf_ck-sharp/Brainf_ckInterpreter.cs:182 | each capture of `[(](.+?)[)]` is a non-empty body lying strictly inside the source and followed by `)` |
| Syntax.ScanParens | Brainf_ck-sharp/Brainf_ckInterpreter.cs:139-153 | the imperative scan returns the first function-balance error of the source |
| Syntax.CheckSyntaxCore | Brainf_ck-sharp/Brainf_ckInterpreter.cs:156-177 | the imperative loop check returns the loop check's verdict and position |
| Syntax.CheckBodies | Brainf_ck-sharp/Brainf_ckInterpreter.cs:183-189 | the `foreach` stops at the first function body that is empty of operators or unbalanced, and reports its error position shifted into the source |
| Syntax.CheckSourceSyntax | Brainf_ck-sharp/Brainf_ckInterpreter.cs:136-193 | the method returns the validator's `(valid, position)` |
| Syntax.BodiesCheckNone | Brainf_ck-sharp/Brainf_ckInterpreter.cs:183-189 | the body checks pass if and only if every captured body holds an operator and is balanced |
| Syntax.ValidIffWellFormed | Brainf_ck-sharp/Brainf_ckInterpreter.cs:136-193 | a source is accepted if and only if its functions never nest or overclose, it has no `()`, its loops balance and every function body is non-empty and balanced; acceptance reports 0 |
| Syntax.ParenErrorReported | Brainf_ck-sharp/Brainf_ckInterpreter.cs:139-153 | a function-balance error is rejected at the offending character before any other check runs |
| Syntax.EmptyFunctionReported | Brainf_ck-sharp/Brainf_ckInterpreter.cs:180-181 | the first `()` is rejected at its `)` |
| Syntax.ErrorPointsAtBracket | Brainf_ck-sharp/Brainf_ckInterpreter.cs:136-193 | every rejection points inside the source, at a parenthesis or a loop bracket |
| Syntax.FirstBodyErrorShifted | Brainf_ck-sharp/Brainf_ckInterpreter.cs:183-189 | an unbalanced first body is rejected at its own error position plus the body's index in the source |
| Syntax.UnclosedFunctionAccepted | Brainf_ck-sharp/Brainf_ckInterpreter.cs:139-153 | as written, `+(` is accepted, because the open flag is never tested after the loop |
| Syntax.LastIndex | Brainf_ck-sharp/Brainf_ckInterpreter.cs:139-153 | the index of the last occurrence of a character, where the corrected check reports an unclosed `(` |
| Syntax.ClosedCheckClosesFunctions | Brainf_ck-sharp/Brainf_ckInterpreter.cs:139-153 | with the end test added, every accepted source closes all its functions and is well formed, and every rejection points at a parenthesis or loop bracket |
| Syntax.CheckSourceSyntaxSpec | Brainf_ck-sharp/Brainf_ckInterpreter.cs:136-193 | the validator as written, in the source's order: the first function-balance error, then the first `()` at its `)`, then the first bad function body, then the loop check; `Syntax.ValidIffWellFormed` states what it accepts |
| Syntax.CheckSourceSyntaxClosed | Brainf_ck-sharp/Brainf_ckInterpreter.cs:139-153 | the validator with an unclosed `(` rejected at the end of the function-parenthesis pass; `Syntax.ClosedCheckClosesFunctions` states what it accepts |
| Tokens.OpsOf | Brainf_ck-sharp/Brainf_ckInterpreter.cs:116 | the operator characters of a token list, position by position |
| Tokens.Tokenize | Brainf_ck-sharp/Brainf_ckInterpreter.cs:104-109 | the tokens carry the code's operators and are numbered consecutively from the start offset |
| Tokens.CheckTokenSyntax | Brainf_ck-sharp/Brainf_ckInterpreter.cs:646-661 | the token-level check is true if and only if the loop brackets are balanced |
| Tokens.LoopEnd | Brainf_ck-sharp/Brainf_ckInterpreter.cs:563-571 | a reported end is a `]` inside the code |
| Tokens.LoopEndCorrect | Brainf_ck-sharp/Brainf_ckInterpreter.cs:563-571 | the scan finds the first `]` left unmatched, and finds none exactly when no prefix underflows |
| Tokens.InnerLoop | Brainf_ck-sharp/Brainf_ckInterpreter.cs:554-573 | a returned loop body is non-empty and ends inside the source |
| Tokens.InnerLoopSpec | Brainf_ck-sharp/Brainf_ckInterpreter.cs:554-573 | the body ends at the first `]` its own tokens leave unmatched, and there is no body exactly when nothing after the `[` underflows (the case where the source throws) |
| Tokens.ExtractInnerLoop | Brainf_ck-sharp/Brainf_ckInterpreter.cs:554-573 | the imperative extractor returns that body |
| Tokens.NextClose | Brainf_ck-sharp/Brainf_ckInterpreter.cs:587-590 | the first `)` at or after a position, with no `)` before it |
| Tokens.FunctionBody | Brainf_ck-sharp/Brainf_ckInterpreter.cs:581-594 | a returned body is followed in the source by a `)` |
| Tokens.FunctionBodySpec | Brainf_ck-sharp/Brainf_ckInterpreter.cs:581-594 | the body is the contiguous run after the `(` and holds no `)`; it is missing (the source throws) exactly when no `)` follows |
| Tokens.ExtractFunction | Brainf_ck-sharp/Brainf_ckInterpreter.cs:581-594 | the imperative extractor returns that body |
| Tapes.Fresh | Brainf_ck-sharp/Brainf_ckInterpreter.cs:56 | a new memory has `size` cells, all zero, with the pointer on the first |
| Tapes.Store | Brainf_ck-sharp/Brainf_ckInterpreter.cs:344-357 | writing a cell changes the current cell to the value and leaves the pointer and every other cell alone |
| Tapes.MoveNext | Brainf_ck-sharp/Brainf_ckInterpreter.cs:322 | moving right keeps the cells and advances the pointer by one |
| Tapes.MoveBack | Brainf_ck-sharp/Brainf_ckInterpreter.cs:333 | moving left keeps the cells and moves the pointer back by one |
| Tapes.MoveInverse | Brainf_ck-sharp/Brainf_ckInterpreter.cs:320-337 | `>` then `<` (or `<` then `>`), where allowed, restores the memory |
| Tapes.PlusMinusInverse | Brainf_ck-sharp/Brainf_ckInterpreter.cs:342-361 | `+` then `-` (or `-` then `+`), where allowed, restores the memory |
| Memory.MachineState.constructor | Brainf_ck-sharp/Brainf_ckInterpreter.cs:93 | a new memory object holds a fresh memory of the given size |
| Memory.MachineState.Restore | Brainf_ck-sharp/Brainf_ckInterpreter.cs:609-611 | a memory object holding a given snapshot, as a session carries over between steps |
| Memory.MachineState.Current | Brainf_ck-sharp/Brainf_ckInterpreter.cs:369 | the object's current cell is the snapshot's current cell |
| Memory.MachineState.CanMoveNext | Brainf_ck-sharp/Brainf_ckInterpreter.cs:322 | agrees with the snapshot's test |
| Memory.MachineState.CanMoveBack | Brainf_ck-sharp/Brainf_ckInterpreter.cs:333 | agrees with the snapshot's test |
| Memory.MachineState.CanIncrement | Brainf_ck-sharp/Brainf_ckInterpreter.cs:345 | agrees with the snapshot's test against the memory's cell bound |
| Memory.MachineState.CanDecrement | Brainf_ck-sharp/Brainf_ckInterpreter.cs:356 | agrees with the snapshot's test |
| Memory.MachineState.IsAtByteMax | Brainf_ck-sharp/Brainf_ckInterpreter.cs:344 | agrees with the snapshot's test |
| Memory.MachineState.MoveNext | Brainf_ck-sharp/Brainf_ckInterpreter.cs:322 | updates the pointer in place to the snapshot moved right |
| Memory.MachineState.MoveBack | Brainf_ck-sharp/Brainf_ckInterpreter.cs:333 | updates the pointer in place to the snapshot moved left |
| Memory.MachineState.Input | Brainf_ck-sharp/Brainf_ckInterpreter.cs:445-451 | writes the cell array in place so that the snapshot is the stored one |
| Memory.MachineState.Plus | Brainf_ck-sharp/Brainf_ckInterpreter.cs:345 | increments the current cell in place |
| Memory.MachineState.Minus | Brainf_ck-sharp/Brainf_ckInterpreter.cs:356 | decrements the current cell in place |
| Memory.MachineState.ResetCell | Brainf_ck-sharp/Brainf_ckInterpreter.cs:378 | zeroes the current cell in place |
| Results.KeysFrom | Brainf_ck-sharp/Brainf_ckInterpreter.cs:535-539 | the keys within range, each once, strictly ascending |
| Results.SortedKeys | Brainf_ck-sharp/Brainf_ckInterpreter.cs:535-539 | `OrderBy(key => key)` lists every bound key exactly once, strictly ascending |
| Results.DefinitionsOf | Brainf_ck-sharp/Brainf_ckInterpreter.cs:535-539 | one definition per key, in key order; building fails exactly when some body is empty (`body[0]` throws) |
| Results.BodyTokens | Brainf_ck-sharp/Brainf_ckInterpreter.cs:607-609 | a definition's body becomes tokens with its operators, numbered from its offset |
| Results.ContiguousTokens | Brainf_ck-sharp/Brainf_ckInterpreter.cs:607-609 | a stored body survives being written as a definition and read back |
| Results.RebuildDefinitionsOf | Brainf_ck-sharp/Brainf_ckInterpreter.cs:607-609 | rebuilding from the definitions of some keys gives back exactly those keys with their bodies |
| Results.RebuildDefinitions | Brainf_ck-sharp/Brainf_ckInterpreter.cs:535-539 | round trip: a table of stored bodies listed as definitions and rebuilt by a session is the same table |
| Results.Rebuild | Brainf_ck-sharp/Brainf_ckInterpreter.cs:607-609 | the rebuilt table binds exactly the listed keys, each to the tokens of a definition listed with that key |
| Results.EarlyResult | Brainf_ck-sharp/Brainf_ckInterpreter.cs:219-231 | the result of a run rejected before the core runs: the given flags and memory, no output, no operations, no trace, no breakpoint, no functions |
| Results.OutputFlag | Brainf_ck-sharp.Test/PBrainTests.cs:13-35 | a finished run reports `NoOutput` exactly when its output is empty and `TextOutput` otherwise |
| EngineSpec.Right | Brainf_ck-sharp/Brainf_ckInterpreter.cs:320-329 | `>` fails with `UpperBoundExceeded` exactly at the last cell, changing nothing; otherwise it counts one and keeps the cells |
| EngineSpec.Left | Brainf_ck-sharp/Brainf_ckInterpreter.cs:331-340 | `<` fails with `LowerBoundExceeded` exactly at the first cell; otherwise it counts one and keeps the cells |
| EngineSpec.Increment | Brainf_ck-sharp/Brainf_ckInterpreter.cs:342-351 | `+` fails with `MaxValueExceeded` exactly when the cell is at its bound and does not wrap under `ByteOverflow` at 255; otherwise it counts one and changes only the memory |
| EngineSpec.Decrement | Brainf_ck-sharp/Brainf_ckInterpreter.cs:354-363 | `-` fails with `NegativeValue` exactly at 0 outside `ByteOverflow`; otherwise it counts one and changes only the memory |
| EngineSpec.Output | Brainf_ck-sharp/Brainf_ckInterpreter.cs:422-434 | `.` fails with `StdoutBufferLimitExceeded` exactly when the buffer holds 1024 characters |
| EngineSpec.Read | Brainf_ck-sharp/Brainf_ckInterpreter.cs:436-458 | `,` fails exactly on an empty queue (`StdinBufferExhausted`, nothing consumed) or an unstorable character (`NegativeValue`, the character consumed); a failure never touches the memory |
| EngineSpec.Define | Brainf_ck-sharp/Brainf_ckInterpreter.cs:461-484 | `(` fails on a key already bound (`DuplicateFunctionDefinition`) or a full table (`FunctionsLimitExceeded`), throws when no `)` follows, and otherwise skips past the body while counting nothing |
| EngineSpec.Simple | Brainf_ck-sharp/Brainf_ckInterpreter.cs:319-487 | a skip never runs past the end of the tokens |
| EngineSpec.Core | Brainf_ck-sharp/Brainf_ckInterpreter.cs:277-515 | a finished call never has more ticks left than it started with |
| EngineSpec.Iter | Brainf_ck-sharp/Brainf_ckInterpreter.cs:283-290 | likewise for one pass of the `do`/`while` loop |
| EngineSpec.Sweep | Brainf_ck-sharp/Brainf_ckInterpreter.cs:293-514 | likewise for the `for` loop over the tokens |
| EngineSpec.StepOp | Brainf_ck-sharp/Brainf_ckInterpreter.cs:319-510 | an operator that carries on never skips past the end of the tokens, and no operator gains ticks |
| EngineSpec.Loop | Brainf_ck-sharp/Brainf_ckInterpreter.cs:383-403 | the same for `[` |
| EngineSpec.Call | Brainf_ck-sharp/Brainf_ckInterpreter.cs:490-506 | the same for `:` |
| EngineSpec.FirstNonEmpty | Brainf_ck-sharp/Brainf_ckInterpreter.cs:530 | `First(frame => frame.Any())` is a non-empty frame drawn from the stack, with only empty frames before it, and is absent exactly when every frame is empty |
| EngineSpec.ExceptionInfoOf | Brainf_ck-sharp/Brainf_ckInterpreter.cs:525-532 | the trace has one entry per frame; building it throws exactly when frames exist but all of them are empty |
| EngineSpec.Finish | Brainf_ck-sharp/Brainf_ckInterpreter.cs:518-545 | the result carries the core's flags (with the output flag the result adds), the memory, the output, the running operation count and the operators; it reports a breakpoint position exactly when a breakpoint was reached, a trace exactly when frames were returned, and the offset of the innermost frame's last token |
| EngineSpec.ValidArguments | Brainf_ck-sharp/Brainf_ckInterpreter.cs:264-271 | the argument checks: code to run, a positive threshold, a resumption point inside the code and among the breakpoints, and a non-empty breakpoint list |
| EngineSpec.TryRunSpec | Brainf_ck-sharp/Brainf_ckInterpreter.cs:255-545 | a finished run reports the run's operators, never lowers the operation count, carries the output flag and reports a breakpoint position exactly when its exit code holds `BreakpointReached` |
| Engine.Interpreter.constructor | Brainf_ck-sharp/Brainf_ckInterpreter.cs:257-271 | the interpreter state wraps the caller's memory object, queue, output and function table |
| Engine.Interpreter.SimpleStep | Brainf_ck-sharp/Brainf_ckInterpreter.cs:320-487 | updating the memory object in place gives the specified effect of the non-recursive operator |
| Engine.Interpreter.RunLoop | Brainf_ck-sharp/Brainf_ckInterpreter.cs:383-403 | the in-place `[` agrees with `EngineSpec.Loop` and leaves the state it reports |
| Engine.Interpreter.RunCall | Brainf_ck-sharp/Brainf_ckInterpreter.cs:490-506 | the in-place `:` agrees with `EngineSpec.Call` |
| Engine.Interpreter.Execute | Brainf_ck-sharp/Brainf_ckInterpreter.cs:319-510 | the in-place operator switch agrees with `EngineSpec.StepOp` |
| Engine.Interpreter.TryRunCore | Brainf_ck-sharp/Brainf_ckInterpreter.cs:277-515 | the in-place core returns the working data of `EngineSpec.Core` and leaves its machine |
| Engine.TryRun | Brainf_ck-sharp/Brainf_ckInterpreter.cs:257-545 | `TryRun` on tokens returns the specified result and leaves the caller's memory object holding the result's memory |
| EngineLemmas.FailureFlag | Brainf_ck-sharp/Brainf_ckInterpreter.cs:320-458 | the failure table read off the operator switch; `EngineLemmas.OperatorFailure` proves the switch fails exactly as it says |
| EngineLemmas.OperatorFailure | Brainf_ck-sharp/Brainf_ckInterpreter.cs:320-458 | outside replay, a plain operator stops its call exactly when the failure table says so, reporting `Failure` and `ExceptionThrown` with that flag |
| EngineLemmas.UndefinedCall | Brainf_ck-sharp/Brainf_ckInterpreter.cs:492-498 | `:` on a cell with no function bound fails with `UndefinedFunctionCalled` |
| EngineLemmas.ByteOverflowWraps | Brainf_ck-sharp/Brainf_ckInterpreter.cs:343-451 | under `ByteOverflow`, `+` at 255 stores 0, `-` at 0 stores 255 and `,` stores the character code modulo 255 |
| EngineLemmas.WideInputRejected | Brainf_ck-sharp/Brainf_ckInterpreter.cs:443-448 | under `ShortNoOverflow`, a character above `short.MaxValue` is consumed and rejected with `NegativeValue` |
| EngineLemmas.DefineCountsNothing | Brainf_ck-sharp/Brainf_ckInterpreter.cs:461-484 | defining a function counts nothing and skips its body and the `)` |
| EngineLemmas.ZeroLoopSkipped | Brainf_ck-sharp/Brainf_ckInterpreter.cs:383-402 | `[` on a zero cell counts one and skips the whole loop |
| EngineLemmas.DrainLoop | Brainf_ck-sharp/Brainf_ckInterpreter.cs:383-418 | the body `-]` on a positive cell `v` takes `v` passes, counts `2v` and zeroes the cell |
| EngineLemmas.PeepholeMatchesLoop | Brainf_ck-sharp/Brainf_ckInterpreter.cs:366-381 | the `[-]` shortcut gives what running the loop gives (count `2v + 1`, cell 0, continue after the `]`), without spending the passes |
| EngineLemmas.CoreSound | Brainf_ck-sharp/Brainf_ckInterpreter.cs:304-311 | a run never reports `NoCodeInterpreted` or `MismatchedParentheses`, stops at a breakpoint only when there are breakpoints, with a first frame whose last token is at a breakpoint offset, and in call-free code stops at a breakpoint offset inside the code |
| EngineLemmas.IterSound | Brainf_ck-sharp/Brainf_ckInterpreter.cs:283-290 | the same for one pass |
| EngineLemmas.SweepSound | Brainf_ck-sharp/Brainf_ckInterpreter.cs:293-311 | the same for the token loop |
| EngineLemmas.StepSound | Brainf_ck-sharp/Brainf_ckInterpreter.cs:319-510 | the same for a stop caused by one operator |
| EngineLemmas.LoopSound | Brainf_ck-sharp/Brainf_ckInterpreter.cs:383-403 | the same for a stop inside a loop |
| EngineLemmas.CallSound | Brainf_ck-sharp/Brainf_ckInterpreter.cs:490-506 | the same for a stop inside a call |
| Runs.TryRunSource | Brainf_ck-sharp/Brainf_ckInterpreter.cs:216-239 | `TryRun(String)` on the caller's memory object returns the specified result |
| Runs.Run | Brainf_ck-sharp/Brainf_ckInterpreter.cs:53-59 | `Run` on a fresh memory of the given size returns the specified result |
| Runs.RunFrom | Brainf_ck-sharp/Brainf_ckInterpreter.cs:69-76 | `Run` on a copy of a memory state returns the specified result for that state |
| Runs.NoCodeRun | Brainf_ck-sharp/Brainf_ckInterpreter.cs:219-224 | a source without operators gives `Failure` and `NoCodeInterpreted`, with the memory untouched |
| Runs.UnbalancedRejected | Brainf_ck-sharp/Brainf_ckInterpreter.cs:226-231 | unbalanced loop brackets give `Failure` and `MismatchedParentheses`, with the filtered code |
| Runs.EarlyFlagsExact | Brainf_ck-sharp/Brainf_ckInterpreter.cs:216-239 | `NoCodeInterpreted` is reported if and only if the source has no operator, and `MismatchedParentheses` if and only if it has one but its loops do not balance |
| Runs.RunSpec | Brainf_ck-sharp/Brainf_ckInterpreter.cs:216-239 | a result reports the filtered code; unbalanced code leaves the memory untouched with no output and no operations; balanced code carries the output flag |
| Sessions.Concat | Brainf_ck-sharp/Brainf_ckInterpreter.cs:104-109 | no chunks join to nothing |
| Sessions.Breakpoints | Brainf_ck-sharp/Brainf_ckInterpreter.cs:104-109 | one breakpoint per chunk after the first |
| Sessions.BreakpointsAtChunkStarts | Brainf_ck-sharp/Brainf_ckInterpreter.cs:104-109 | breakpoint `j` is the offset where chunk `j + 1` starts in the joined code, and the operator there is that chunk's first |
| Sessions.Filtered | Brainf_ck-sharp/Brainf_ckInterpreter.cs:94 | every chunk filtered on its own |
| Sessions.BuildExecutable | Brainf_ck-sharp/Brainf_ckInterpreter.cs:101-109 | the chunk loop numbers the joined operators continuously and places a breakpoint at every later chunk's start |
| Sessions.InitializeSessionSpec | Brainf_ck-sharp/Brainf_ckInterpreter.cs:89-127 | a session keeps the mode and the cell bound; one without debug data reports `Failure` on a fresh memory with no operations; one with debug data holds the joined tokens, one breakpoint per later chunk, the threshold, and the output of its result |
| Sessions.InitializeRuns | Brainf_ck-sharp/Brainf_ckInterpreter.cs:89-127 | a script whose chunks all hold operators and whose loops balance starts its session with one run of the joined tokens, with the breakpoints if there are any |
| Sessions.CanContinue | Brainf_ck-sharp.Test/PBrainTests.cs:36-88 | a session can continue when it has debug data and stopped at a breakpoint |
| Sessions.CanStep | Brainf_ck-sharp/Brainf_ckInterpreter.cs:264-271 | a step of a session passes the argument checks, with its breakpoint as the resumption point |
| Sessions.StepSpec | Brainf_ck-sharp/Brainf_ckInterpreter.cs:605-632 | a step keeps the debug data's tokens, breakpoints and threshold, the mode and the bound; the kept output is the result's; the operation count never goes down |
| Sessions.InitializeSession | Brainf_ck-sharp/Brainf_ckInterpreter.cs:89-127 | the method returns the specified session |
| Sessions.Step | Brainf_ck-sharp/Brainf_ckInterpreter.cs:605-632 | one step rebuilds the function table from the result and resumes from its breakpoint, as specified |
| Sessions.ContinueSession | Brainf_ck-sharp/Brainf_ckInterpreter.cs:605-615 | a step with the session's own breakpoints |
| Sessions.RunSessionToCompletion | Brainf_ck-sharp/Brainf_ckInterpreter.cs:621-632 | a step with no breakpoints |
| Sessions.EmptyChunkRejected | Brainf_ck-sharp/Brainf_ckInterpreter.cs:94-99 | no chunks, or any chunk without operators, give a session that cannot continue and reports `Failure` and `NoCodeInterpreted` |
| Sessions.ResumableCanStep | Brainf_ck-sharp/Brainf_ckInterpreter.cs:264-271 | a resumable session passes the argument checks of running to completion, and of continuing whenever it stopped at a breakpoint |
| Sessions.InitializeResumable | Brainf_ck-sharp/Brainf_ckInterpreter.cs:89-127 | a script without calls starts a resumable session |
| Sessions.RunStopsAtBreakpoint | Brainf_ck-sharp/Brainf_ckInterpreter.cs:518-545 | a successful run of call-free code reports a breakpoint exactly when its exit code says one was reached, and that breakpoint is one of the given offsets inside the code |
| Sessions.StepResumable | Brainf_ck-sharp/Brainf_ckInterpreter.cs:605-632 | stepping a resumable session of call-free code keeps it resumable |
| Sessions.CompletionEnds | Brainf_ck-sharp/Brainf_ckInterpreter.cs:621-632 | running to completion never leaves a session that can continue |
| Sessions.ResumePoint | Brainf_ck-sharp/Brainf_ckInterpreter.cs:525-532 | the offset of the last token of the innermost frame of a stopped run's trace |
| Sessions.CorrectedCanStep | Brainf_ck-sharp/Brainf_ckInterpreter.cs:264-271 | the argument checks with the resume point as the resumption point |
| Sessions.CorrectedStepSpec | Brainf_ck-sharp/Brainf_ckInterpreter.cs:605-632 | a step that resumes from the resume point keeps the tokens, breakpoints, mode and bound, and never lowers the operation count |
| Sessions.ResumableAtTokenCanStep | Brainf_ck-sharp/Brainf_ckInterpreter.cs:264-271 | a session whose resume point is one of its breakpoints passes the argument checks of both ways of resuming it |
| Sessions.RunStopsAtToken | Brainf_ck-sharp/Brainf_ckInterpreter.cs:304-311 | any run, calls included, has a resume point exactly when it stopped at a breakpoint, and that point is one of the breakpoints |
| Sessions.InitializeResumableAtToken | Brainf_ck-sharp/Brainf_ckInterpreter.cs:89-127 | every script starts a session that can be resumed from its breakpoint's token |
| Sessions.CorrectedStepResumable | Brainf_ck-sharp/Brainf_ckInterpreter.cs:605-632 | stepping from the resume point keeps a session resumable that way, calls included |
| Examples.Pluses | Brainf_ck-sharp/Brainf_ckInterpreter.cs:342-351 | a run of `+` with room in the cell adds and counts one per token |
| Examples.CallPlusThree | Brainf_ck-sharp/Brainf_ckInterpreter.cs:490-506 | calling a body of three `+` adds 3 and counts 3 |
| Examples.RunOperators | Brainf_ck-sharp/Brainf_ckInterpreter.cs:216-239 | a balanced source made only of operators runs as its own token stream |
| Examples.DefineAndCallTwice | Brainf_ck-sharp.Test/PBrainTests.cs:13-22 | `(+++):>:` ends with cells 0 and 1 at 3, 9 operations, no output |
| Examples.CopyInput | Brainf_ck-sharp.Test/PBrainTests.cs:24-35 | `+(,[>+<-]>.)>+:` with input `a` prints `a`, leaves 97 in cell 2 with the pointer there, and counts `8 + 97 * 5` operations |
| Examples.UnclosedFunctionCrashes | Brainf_ck-sharp/Brainf_ckInterpreter.cs:581-594 | running `+(` throws at the `(`: no `)` follows it |
| Examples.EmptyFunctionCrashes | Brainf_ck-sharp/Brainf_ckInterpreter.cs:535-539 | running `()` throws while building the function list, on the empty body |
| SessionExamples.StartSession | Brainf_ck-sharp/Brainf_ckInterpreter.cs:89-127 | a session on `["++", "-"]` stops at the breakpoint at offset 2, with cell 0 at 2 and two operations counted |
| SessionExamples.ContinueToEnd | Brainf_ck-sharp/Brainf_ckInterpreter.cs:605-615 | continuing it runs the `-` and ends it: cell 0 is 1, three operations in all, nothing left to continue |
| SessionTests.BreakpointTest1 | Brainf_ck-sharp.Test/PBrainTests.cs:36-46 | `["(+):+++++"]` starts a session that cannot continue, with `Success` and `NoOutput`, cell 6 and 7 operations |
| SessionTests.BreakpointTest2 | Brainf_ck-sharp.Test/PBrainTests.cs:70-88 | `["+++++", "---"]` stops at the breakpoint with cell 5; continuing ends the session with `Success` and `NoOutput`, cell 2 and 8 operations |
| SessionTests.BreakpointTest2Short | Brainf_ck-sharp.Test/PBrainTests.cs:48-69 | as written, `["++(>+", "-)>++:"]` stops inside the call with cell 1 and reports position 13, which fails the argument check of both ways of stepping; the resume point, offset 5, passes both |
| Resumption.FuelCore | Brainf_ck-sharp/Brainf_ckInterpreter.cs:286-289 | without a threshold, a run given more passes ends the same way, with the extra passes left over |
| Resumption.Deterministic | Brainf_ck-sharp/Brainf_ckInterpreter.cs:286-289 | without a threshold, two budgets that both suffice give the same working data and machine |
| Resumption.QuietCore | Brainf_ck-sharp/Brainf_ckInterpreter.cs:304-311 | a run of Brainf_ck code with breakpoints that reaches none is the run without them |
| Resumption.SplitDrainStops | Brainf_ck-sharp/Brainf_ckInterpreter.cs:366-376 | where breakpoints block the `[-]` shortcut that the run without them takes, the loop stops at the breakpoint inside it, and with any budget left it succeeds |
| Resumption.TwinCore | Brainf_ck-sharp/Brainf_ckInterpreter.cs:304-314 | two runs without breakpoints whose replay is over run in lockstep: the same machine, code, frames and position |
| Replay.GlueCore | Brainf_ck-sharp/Brainf_ckInterpreter.cs:294-311 | a run that stops at breakpoint `q`, followed by a run replayed to `q` on the memory it left, ends as the run without breakpoints, with the two counts adding up to its count |
| LoopShape.ShapeFrom | Brainf_ck-sharp/Brainf_ckInterpreter.cs:554-573 | balanced loop brackets give the nesting every loop body the replay walks through has |
| SessionReplay.TableCore | Brainf_ck-sharp/Brainf_ckInterpreter.cs:461-484 | Brainf_ck code, which has no `(`, leaves the function table as it was |
| SessionReplay.FilterConcat | Brainf_ck-sharp/Brainf_ckInterpreter.cs:94-109 | filtering the chunks and joining them equals filtering the joined script |
| SessionReplay.ScriptReplayable | Brainf_ck-sharp/Brainf_ckInterpreter.cs:101-109 | a script of Brainf_ck chunks whose loops balance tokenizes into code the replay theorems cover |
| SessionReplay.StepCore | Brainf_ck-sharp/Brainf_ckInterpreter.cs:255-311 | a run with breakpoints from a resume point either ends as the run without them does, or stops at one of its breakpoints from which the run without breakpoints ends that way, counts added up |
| SessionReplay.InitializeOnTrack | Brainf_ck-sharp/Brainf_ckInterpreter.cs:89-127 | a session started on a script of Brainf_ck chunks holds the one-shot run's result, or has stopped at a breakpoint from which the rest of the run gives that result |
| SessionReplay.ContinueOnTrack | Brainf_ck-sharp/Brainf_ckInterpreter.cs:605-615 | continuing such a session passes the argument checks and keeps it that way: at a later breakpoint on the way to the one-shot result, or holding that result |
| SessionReplay.CompletionOnTrack | Brainf_ck-sharp/Brainf_ckInterpreter.cs:621-632 | running such a session to completion passes the argument checks, gives the one-shot run's memory, output, exit code and operation count, and some budget suffices |
| SessionReplay.AheadCore | Brainf_ck-sharp/Brainf_ckInterpreter.cs:286-311 | with one pass more than the run without breakpoints needs, the run with them succeeds, and unless it stops at a breakpoint it is that run |
| SessionReplay.ContinueProgress | Brainf_ck-sharp/Brainf_ckInterpreter.cs:605-615 | a session of such a script that stopped at a breakpoint has a budget with which continuing succeeds |
| SessionReplay.InitializeProgress | Brainf_ck-sharp/Brainf_ckInterpreter.cs:89-127 | a session of such a script has a budget with which starting it succeeds, once its one-shot run does |
| SessionReplay.ContinueAllOnTrack | Brainf_ck-sharp/Brainf_ckInterpreter.cs:605-615 | any chain of continue calls keeps the session on its way to the one-shot result |
| SessionReplay.SessionEndsAsRun | Brainf_ck-sharp/Brainf_ckInterpreter.cs:605-632 | starting a session on a script of Brainf_ck chunks and continuing it any number of times either ends, when it cannot continue, with the one-shot run's memory, output and operation count, or leaves a session that continuing and completing can both move on, completion giving that result |
| LineDiffer.Split | src/Brainf_ckSharp.Git/LineDiffer.cs:48-49 | a text with `n` separators has `n + 1` lines, none containing the separator |
| LineDiffer.JoinSplit | src/Brainf_ckSharp.Git/LineDiffer.cs:69 | joining the lines with the separator gives the text back |
| LineDiffer.AddNew | src/Brainf_ckSharp.Git/LineDiffer.cs:74-85 | adding a new line keeps every other entry, creates `(1, 0, 0)` for an unseen line, and otherwise steps its new-text counter through 1, 2 and `int.MaxValue` keeping its old-text fields |
| LineDiffer.AddOld | src/Brainf_ckSharp.Git/LineDiffer.cs:102-116 | adding old line `j` keeps every other entry, records `j` as the line's old line number, steps its old-text counter, and keeps its new-text counter (0 for an unseen line) |
| LineDiffer.NewTableCounts | src/Brainf_ckSharp.Git/LineDiffer.cs:68-89 | after the first pass every new line has an entry, whose new-text counter is the line's saturated occurrence count |
| LineDiffer.AddOldCounts | src/Brainf_ckSharp.Git/LineDiffer.cs:96-119 | adding one old line keeps the table's counts right and records that line as the last occurrence of its text |
| LineDiffer.OldTableCounts | src/Brainf_ckSharp.Git/LineDiffer.cs:96-119 | after the second pass the table counts both texts |
| LineDiffer.TableCounts | src/Brainf_ckSharp.Git/LineDiffer.cs:83-84 | the table has one entry per distinct line of either text; its counters saturate through 0, 1, 2 and `int.MaxValue`; its old line number is the last old occurrence |
| LineDiffer.Refs | src/Brainf_ckSharp.Git/LineDiffer.cs:86 | each temporary slot starts as the table entry of its own line |
| LineDiffer.Pass3 | src/Brainf_ckSharp.Git/LineDiffer.cs:127-138 | paired lines stay paired, and every line seen exactly once in each text is paired |
| LineDiffer.Pass4 | src/Brainf_ckSharp.Git/LineDiffer.cs:147-156 | paired lines stay paired and every line number stays in range |
| LineDiffer.Pass5 | src/Brainf_ckSharp.Git/LineDiffer.cs:162-171 | paired lines stay paired and every line number stays in range |
| LineDiffer.Pairing | src/Brainf_ckSharp.Git/LineDiffer.cs:68-171 | the passes keep one slot per line of each text |
| LineDiffer.Marks | src/Brainf_ckSharp.Git/LineDiffer.cs:185-189 | one mark per new line |
| LineDiffer.ComputeDiff | src/Brainf_ckSharp.Git/LineDiffer.cs:43-198 | the method returns the specified diff: nothing for an empty new text, otherwise one mark per line of the new text |
| LineDiffer.Diff | src/Brainf_ckSharp.Git/LineDiffer.cs:43-198 | one mark per line of the new text, none for an empty one |
| LineDiffer.CorrectedDiff | src/Brainf_ckSharp.Git/LineDiffer.cs:143-146 | the differ with the corrected comparison, also one mark per line of the new text |
| LineDiffer.FirstPass | src/Brainf_ckSharp.Git/LineDiffer.cs:68-89 | the loop builds the new-text table and points every new slot at its line's entry |
| LineDiffer.SecondPass | src/Brainf_ckSharp.Git/LineDiffer.cs:96-119 | the loop adds the old text to the table and points every old slot at its line's entry |
| LineDiffer.ThirdPass | src/Brainf_ckSharp.Git/LineDiffer.cs:127-138 | updates both arrays in place to the third pass |
| LineDiffer.FourthPass | src/Brainf_ckSharp.Git/LineDiffer.cs:147-156 | updates both arrays in place to the fourth pass, comparing with `Equals` as written |
| LineDiffer.FifthPass | src/Brainf_ckSharp.Git/LineDiffer.cs:162-171 | updates both arrays in place to the fifth pass, comparing with `Equals` as written |
| LineDiffer.FinalPass | src/Brainf_ckSharp.Git/LineDiffer.cs:174-189 | a line is marked `None` if and only if its slot holds a line number |
| LineDiffer.PairStepConsistent | src/Brainf_ckSharp.Git/LineDiffer.cs:134-136 | pairing a new line with an old line keeps every slot either unpaired on its own line's entry or paired with a line number of the other text |
| LineDiffer.Pass3Consistent | src/Brainf_ckSharp.Git/LineDiffer.cs:127-138 | the third pass keeps that |
| LineDiffer.Pass4Consistent | src/Brainf_ckSharp.Git/LineDiffer.cs:147-156 | the fourth pass keeps it, under either comparison |
| LineDiffer.Pass5Consistent | src/Brainf_ckSharp.Git/LineDiffer.cs:162-171 | the fifth pass keeps it, under either comparison |
| LineDiffer.PairStepMatched | src/Brainf_ckSharp.Git/LineDiffer.cs:150-154 | pairing two unpaired lines of the same text keeps the pairs symmetric and between equal lines |
| LineDiffer.Pass3StepConsistent | src/Brainf_ckSharp.Git/LineDiffer.cs:130-136 | pairing a line seen once in each text keeps both slot lists consistent with their texts and within bounds |
| LineDiffer.Pass3StepMatched | src/Brainf_ckSharp.Git/LineDiffer.cs:130-136 | a line seen once in each text is paired with the one old line of that text, which is still free |
| LineDiffer.Pass3Matched | src/Brainf_ckSharp.Git/LineDiffer.cs:127-138 | the third pass keeps the pairs symmetric and between equal lines |
| LineDiffer.Pass4Matched | src/Brainf_ckSharp.Git/LineDiffer.cs:147-156 | so does the fourth pass with the corrected comparison |
| LineDiffer.Pass5Matched | src/Brainf_ckSharp.Git/LineDiffer.cs:162-171 | so does the fifth pass with the corrected comparison |
| LineDiffer.StartFits | src/Brainf_ckSharp.Git/LineDiffer.cs:68-119 | the first two passes leave a table that counts both texts, slots that refer to it, and in-range old line numbers for the unique lines |
| LineDiffer.RefsMatched | src/Brainf_ckSharp.Git/LineDiffer.cs:86 | before the third pass nothing is paired |
| LineDiffer.PairingConsistent | src/Brainf_ckSharp.Git/LineDiffer.cs:134-169 | under either comparison, a paired new line is paired with an old line number at which its own text occurs, and an unpaired one refers to its own entry |
| LineDiffer.CorrectedPairingMatched | src/Brainf_ckSharp.Git/LineDiffer.cs:143-146 | with only table entries comparing equal, the pairing is a partial matching: symmetric, and only between lines of equal text |
| LineDiffer.UniqueLineUnchanged | src/Brainf_ckSharp.Git/LineDiffer.cs:124-138 | a line that occurs exactly once in each text is reported `None`, wherever it moved |
| LineDiffer.NewLineModified | src/Brainf_ckSharp.Git/LineDiffer.cs:183-188 | a new line that does not occur in the old text is reported `Modified` |
| LineDiffer.CorrectedUnchangedIff | src/Brainf_ckSharp.Git/LineDiffer.cs:180-189 | with the corrected comparison, a line is reported `None` if and only if it is matched with an old line of the same text that is matched back |
| DiffExamples.TableABC | src/Brainf_ckSharp.Git/LineDiffer.cs:68-119 | for new `A,B,C` and old `A,C,B`, each line occurs once in each text; `B` is old line 2 and `C` old line 1 |
| DiffExamples.ThirdPassABC | src/Brainf_ckSharp.Git/LineDiffer.cs:127-138 | the third pass pairs every line there with its moved counterpart |
| DiffExamples.AsWrittenLaterPassesABC | src/Brainf_ckSharp.Git/LineDiffer.cs:147-171 | as written, the fourth and fifth passes re-pair new lines 1 and 2 with old lines 1 and 2 |
| DiffExamples.CorrectedLaterPassesABC | src/Brainf_ckSharp.Git/LineDiffer.cs:143-146 | with the corrected comparison, the fourth and fifth passes change nothing there |
| DiffExamples.AsWrittenPairsUnequal | src/Brainf_ckSharp.Git/LineDiffer.cs:151 | as written, new line `B` ends up paired with old line `C`, so the pairing is not a matching of equal lines |
| DiffExamples.CorrectedPairsEqual | src/Brainf_ckSharp.Git/LineDiffer.cs:143-146 | corrected, `B` and `C` stay paired with their own old lines |
| Buffers.StdinBuffer.Remaining | src/Brainf_ckSharp/Buffers/StdinBuffer.cs:39-40 | the characters not read yet: the data after the position |
| Buffers.StdinBuffer.constructor | src/Brainf_ckSharp/Buffers/StdinBuffer.cs:25-29 | a new buffer holds the data at position 0, so everything remains to be read |
| Buffers.StdinBuffer.TryRead | src/Brainf_ckSharp/Buffers/StdinBuffer.cs:37-60 | true if and only if a character remains; on success it yields the character at the position and advances by one; on failure it yields `'\0'` with the position at the end; the position never passes the end |
| Buffers.StdinBuffer.ToString | src/Brainf_ckSharp/Buffers/StdinBuffer.cs:63 | the whole data, of which the unread characters are the tail from the position |

## Left out

- The stopwatch (Brainf_ck-sharp/Brainf_ckInterpreter.cs:274-288) and `ElapsedTime`. A tick budget
  stands in for the clock: one tick is spent at every pass's time check, and an exhausted budget
  with a threshold reports `ThresholdExceeded`.
- An exhausted tick budget when there is no threshold gives `Crash(StepBoundReached)`. The real
  interpreter would go on running there. This fault exists only in the model.
- The .NET regular-expression engine is not modelled. `Syntax.EmptyPair` and `Syntax.Matches`
  specify the matches the two patterns of lines 180-182 produce.
- `TranslateToC` (lines 674 on) is not part of this model.
- The line differ works on line texts. The source tables lines by their xxHash32 code, so two
  different lines with the same hash are merged there. The model has no collisions.
- The line differ's `ArrayPool`, `Pool<DiffEntry>`, static reusable `DictionarySlim` and
  `MemoryOwner` are not modelled. The temporary arrays are fresh arrays of exactly the right
  length, and the result is a sequence.
- `DiffEntry` is modelled as a table entry compared by reference, that is, by its line.
  `DiffEntry.cs` is not part of this model.
- `LineModificationType` has only the two values that `ComputeDiff` produces.
- Operation counts, offsets and depths are unbounded integers, so the `uint` wrap-around of the
  source's counters is not modelled.
- Characters are Dafny `char`s. The C# 16-bit `char` width matters only for the `,` bound test,
  which is modelled explicitly.
- The classes `InterpreterResult`, `InterpreterExecutionSession`, `SessionDebugData` and
  `TouringMachineState` are not part of this model. Results and sessions are values, so the model
  has no aliasing between a session and the memory object its result holds: each step restores the
  memory from the previous result. The memory's increment bound (`CanIncrement`) is a parameter,
  `limit`.
- Runs.RunFrom: the `ArgumentException` for a memory state that is not a `TouringMachineState`
  (line 76) is not modelled, because the model's memory states are all of one kind.
- The argument checks of `TryRun` (lines 264-271) are preconditions rather than thrown exceptions.
- Sessions.InitializeResumable: stated only for call-free code. A breakpoint reached inside a
  called function records a position relative to the call (see the first Findings row), and a
  later `ContinueSession` can then fail the argument check of line 267. `Sessions.InitializeResumableAtToken`
  covers every script for the corrected resumption point.
- `InterpreterResult.cs` and `InterpreterExecutionSession.cs` are not part of this model. Three
  behaviours of theirs are assumed:
  - `Results.OutputFlag`: the `InterpreterResult` constructor adds `NoOutput` or `TextOutput` to
    the exit code of a finished run. Lines 541-544 only pass the working data on. `Test1`
    (`Success` and `NoOutput`) and `Test2` (`TextOutput`) of `PBrainTests.cs` check this, and so do the
    `NoOutput` checks of `BreakpointTest1` and `BreakpointTest2`.
  - `Results.EarlyResult`: the constructor used for a run rejected before the core (lines 222 and
    228-229) adds no output flag. No test checks this. `Runs.EarlyFlagsExact` and
    `Sessions.EmptyChunkRejected` depend on it.
  - `Sessions.CanContinue`: a session can continue when it has debug data and its exit code holds
    `BreakpointReached`. `BreakpointTest1` (one chunk, cannot continue) and `BreakpointTest2`
    (can continue at the chunk border, cannot after the last step) check this.
- SessionReplay.SessionEndsAsRun: the equivalence of a debugging session with one run of the
  joined script is proved for scripts of the eight Brainf_ck operators alone, without a time
  threshold, whose chunks all hold an operator and whose loops balance across the chunks. With
  function definitions or calls, a stop inside a call reports a position the replay cannot
  resume from (see the second Findings row). With a threshold the tick budget decides where a
  run ends, so two budgets are not interchangeable.
- SessionReplay.SessionEndsAsRun: it says nothing of `RunSessionToCompletion` on a session that
  cannot continue. There the step resumes from no breakpoint, so it runs the whole script again
  on the memory the session ended with.
- The concrete runs in `Examples` and `SessionExamples` hold for every tick budget at least as
  large as the number of passes they need, not for a time threshold.
- `StdinBuffer` is a `struct` in the source, and copying it copies the position. The model is a
  class, so the model has no struct copy semantics. The two `Debug.Assert`s of lines 39-40 become the class
  invariant `Valid`.

## Findings

| source | as written | input that shows it | evidently intended | confidence | as-written member | corrected member |
|---|---|---|---|---|---|---|
| Brainf_ck-sharp/Brainf_ckInterpreter.cs:139-153 | the function-parenthesis loop sets a flag on `(` but never tests it after the loop, so a function still open at the end of the source is accepted | `+(`: `CheckSourceSyntax` returns valid, and running it then throws in `ExtractFunction` because no `)` follows | a source is rejected while a function is still open at its end | not executed | Syntax.UnclosedFunctionAccepted | Syntax.ClosedCheckClosesFunctions |
| Brainf_ck-sharp/Brainf_ckInterpreter.cs:501, 267-269 | a call runs its body at depth `depth + i + 1`, so a breakpoint reached inside the body reports the position of the token inside the body plus the call's depth, not the offset of the token; `ContinueSession` resumes from that position, and the argument check of lines 267-269 throws once it lies past the end of the code | `BreakpointTest2short` of `PBrainTests.cs`, `["++(>+", "-)>++:"]`: the first run stops in the call at the body's `-`, offset 5, and reports position 13 in code of 11 operators, so `Continue()` throws | a stopped run resumes from the token it stopped on, the offset recorded as the innermost frame's last token | not executed | SessionTests.BreakpointTest2Short | Sessions.InitializeResumableAtToken |
| src/Brainf_ckSharp.Git/LineDiffer.cs:151, 166 | passes 4 and 5 compare slots with `object.Equals`, which also holds between two boxed `int`s with the same value, so two slots that are both paired to the same line number compare equal | new `A\nB\nC`, old `A\nC\nB`: pass 3 pairs new lines 1 and 2 with old lines 2 and 1; pass 4 finds both new slot 1 and old slot 1 holding the number 2 and re-pairs new line `B` with old line `C` | only two unpaired slots referring to the same table entry (the same line) compare equal, as the comment at lines 143-146 describes | not executed | DiffExamples.AsWrittenPairsUnequal | LineDiffer.CorrectedPairingMatched |

`Examples.UnclosedFunctionCrashes` shows what the first finding leads to when such a source is
run. `Syntax.CheckSourceSyntaxClosed` is the corrected check. The model's `CheckSourceSyntax`
follows the source as written, because nothing else in the model consumes the string-level check.
For the line-differ finding, `LineDiffer.CorrectedDiff` is the corrected differ. `DiffExamples.CorrectedPairsEqual`
and `LineDiffer.CorrectedUnchangedIff` prove the intended behaviour about it. `LineDiffer.ComputeDiff`
follows the source as written.
For the session finding, `Sessions.CorrectedStepSpec` is the corrected step, and `Sessions.CorrectedStepResumable` proves
that stepping it keeps the session resumable from a breakpoint's token. `Sessions.StepSpec` follows
the source as written. The test's last expectations (cell 0, nothing left to continue) fail under
the correction too. While replaying, the core walks into a function's definition, because `(` skips
its body only outside replay (lines 461-484). So the body's `-` runs a second time, on cell 2, and
the call then stops at offset 5 again.
