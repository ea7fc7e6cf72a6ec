# go-apla in Dafny

A model of the core of the go-apla blockchain node, with proofs of what that
core is for. `dafny verify dfyconfig.toml` checks everything.

**Contract compiler** (`Lexemes`, `Initializers`, `InitializerErrors`, `Expressions`, `ExpressionTrees`, `Precedence`,
`ExpressionCompilation`, `IndexAssignments`, `CallForms`, `StackMachine`, `Blocks`,
`Statements`, `StatementCompilation`, `Programs`, `ProgramMeaning`, `Sections`,
`Declarations`, `ParameterLists`, `Refusals`, `CompiledTexts`, `Calls`, `TextPrograms`, `WholePrograms`, `TextSequences`,
`MissingReturns`, `RedefinedFunctions`, `ContractNames`, `Linker`). Lexemes go in, a
tree of blocks with bytecode comes out, and a virtual machine runs it.
`Expressions` is the operator precedence translator as a state machine, `Blocks`
the table-driven pushdown machine. The main result,
`TextSequences.ProgramIsFaithful`, goes from a sequence of texts of contracts and
functions, compiled and loaded one after the other, to what calls of these functions
do on the virtual machine, with frames, recursion, calls between texts, functions
that are defined again and any number of results: compilation preserves meaning,
for programs that do not end too (both sides are compared for every depth of calls
and every number of repetitions). `ContractNames` shows when the quick scan for
names agrees with the compiler, `Refusals` what the compiler refuses, `Linker` when ids stay right and when a failed
transaction's contracts are taken out again.

**Chain** (`Tables`, `Chain`, `PlayOutcomes`, `Ledger`, `Acceptance`, `Node`). Tables and undo log, playing a
block under savepoints, appending, rollback and fork switch as functions on
states, and the class `Node.Database` whose methods do the same step by step.
`Ledger.RunLinks` and `Ledger.RunConsistent` speak of every state that a run
reaches; the exact conditions of each step are lemmas of their own.

**Limits** (`Limits`, `LimitTotals`), **slots** (`Slots`), **codes** (`Codec`, `Framing`) and
**addresses** (`Address`) complete it. `Chain.GeneratedBlockParses` joins limits
and chain: what one node generates, every other node replays.

## What the code does not do

Some properties that one would expect are false of the code. The lemma that shows
it is named; where the exact condition under which the property holds is proved
as well, that lemma is named too.

- Mixed prefix operators in front of a binary operator come out in the wrong
  order (`StackMachine.MixedPrefixRun`; exact: `ExpressionCompilation.ListTheorem`).
- The command that spreads the last argument of `f(a, b + c...)` comes in front of the
  pending `+`, and an operator behind a call of an outer function makes the compiler
  panic (`CallForms.SpreadTheorem`, `CallForms.OuterTheorem`, both exact).
- A function nested behind a `continue` takes that command away from its parent
  (`Declarations.StrayContinueMoves`; exact: `Declarations.NestedFuncTakesContinue`
  and, for whole texts, `Declarations.NestedTextCompiles`).
- A byte column is written to the undo log in hexadecimal and written back as
  that text; a text column holding `NULL` becomes null
  (`Tables.PublicKeyComesBackAsHex`; exact: `Tables.RollbackRestoresIff`).
- A transaction hash that two blocks of a fork share makes a rollback lose rows
  (`Ledger.RepeatedHashLosesRow`; exact: `Chain.RollbackLogsIff` and
  `Chain.RollbackBlockIff` for a rollback, `Ledger.SwitchConsistentIff` for a switch).
- A fork switch plays the new blocks on worn rows (exact for every switch:
  `Ledger.EverySwitchReplaysIff`, for one switch: `Ledger.SwitchReplaysIff`), and a
  failed one leaves the old blocks stored but rolled back
  (`Ledger.FailedSwitchIff`, exact).
- On a bare machine whose first child is a contract, a replacement of that contract
  gets an id outside the table and is not taken out again (`Linker.ZeroStays`;
  exact: `Linker.FlushKeepsIdsIff`, `Linker.WalkRestoresIff`). A node loads the
  function `DBFind` first (packages/smart/smart.go:381-384 and 429-430), so no
  contract of a node has id 0.
- The names of the scan and of the compiler differ when a line break stands
  between a keyword and its name (`ContractNames.LineBreakHidesName`; exact:
  `ContractNames.ScanAgrees`).
- Generation does not look at the limit of transactions per user of an ecosystem,
  so a list that passes the check of the block can be judged differently by
  generation and by parsing (`Limits.EcosystemListsDiffer`; exact:
  `Limits.VerdictsAgreeIff`). Lists that preprocessing has admitted are judged alike
  (`Limits.ModesAgree`).
- The `break` in the admission loop's `select` only leaves the `select`, so the loop
  goes on after a stop; it does no harm (`Limits.NothingAfterStop`).
- Blocks stamped with the second of the first block are outside the range of
  their slot and can be stored any number of times (`Slots.FirstSecondRepeats`;
  exact: `Slots.RangeIsSlot`, `Slots.SecondBlockRefused`).
- A fork switch compares the slots of new blocks with the committed chain, which
  still holds the blocks to be replaced, and not with each other: it refuses a
  block in the slot of the one it replaces (`Ledger.OldSlotRefused`) and can bring
  two blocks of one node into one slot (`Ledger.SwitchTwoInASlot`; exact:
  `Ledger.SwitchOnePerSlotIff`).
- A function may declare results and end without `return`; its call then leaves
  fewer values than declared, and the caller takes what lies on the stack
  (`MissingReturns.FallingThrough`). What can be checked before a call is the form of
  the body: with `AlwaysReturns` every call leaves what is declared
  (`Calls.StmtsEndWell`, `WholePrograms.MachineRegular`). This is one direction; the
  other fails (`MissingReturns.FormIsNotNecessary`), as whether a run reaches a
  `return` depends on the values of conditions. `WholePrograms.ReturnsIff` says of
  each run which case it is.
- Calls that were compiled against the first of three definitions of a function run
  the second one (`RedefinedFunctions.StaleCall`; exact: `Calls.CallsReachLatestIff`).

## Modelling decisions

- Blocks of compiled code are entries of one list, named by their place, where
  the program links objects. Handlers replace entries. A call refers to its function by place.
- A transaction is the list of writes that its contract attempts, as a function of
  the block header and the rows it finds, with its outcome and fuel. The undo
  record of each write follows packages/smart/selective.go.
- Hash functions, the Merkle tree, the meaning of single commands on values and
  the effect of built-in functions are parameters of the theorems.
- A call on the virtual machine takes its arguments from the stack of its caller and
  runs on a stack of its own; `ProgramMeaning.FunctionMeans` shows that a function
  does the same on any stack. Every call gets the same bound on repetitions.
- A bound of 1000 nested calls, built-in functions included, is one case of the bound
  `depth`.
- A function or a block of the virtual machine is named by its text and its place there,
  where the program has a pointer.
- A Go panic in the compiler is an outcome of its own, different from an error.
- Time, signatures and the database's own failures are parameters (`late`,
  `valid`) or left out.

## Model

| member | source | states |
|---|---|---|
| Initializers.GetInitValue | packages/script/compile.go:928-963 | the method returns exactly the value and the last position that the parser function gives, errors included |
| Initializers.GetInitMap | packages/script/compile.go:965-1024 | the loop over keys, colons, values and commas computes the recursive parser function, errors and skipped line breaks included |
| Initializers.GetInitArray | packages/script/compile.go:1026-1059 | the same for arrays |
| Initializers.ValueRoundTrip | packages/script/compile.go:928-1059 | any nested map or array initializer, with line breaks inserted anywhere between its tokens, is parsed to its meaning and the parser stops on its closing bracket; an unknown name is reported |
| Initializers.MapRoundTrip | packages/script/compile.go:965-1024 | the part of that result for the fields of a map: the last value given for a key is the one kept |
| Initializers.ArrayRoundTrip | packages/script/compile.go:1026-1059 | the part of that result for the elements of an array |
| Initializers.SetEntryLookup | packages/script/compile.go:1010-1016 | storing a key changes the value found under that key and under no other |
| InitializerErrors.ArrayRefused | packages/script/compile.go:1026-1059 | elements without a comma between them are refused, and so is a list that is not closed, whatever elements stand in front |
| InitializerErrors.MapRefused | packages/script/compile.go:965-1024 | the same for the fields of a map |
| InitializerErrors.EntryRefused | packages/script/compile.go:928-1024 | a lexeme that is no key, a key without a colon and a lexeme that is no value are refused, each with its error |
| Expressions.CompileEval | packages/script/compile.go:1074-1433 | the whole loop over lexemes with operator buffer, argument counts and emitted code computes the translation function, for every list of lexemes and every outcome including panics |
| Expressions.OneLexeme | packages/script/compile.go:1086-1419 | one turn of that loop: each kind of lexeme with its lookups, pushes and errors leaves the state of the step function |
| Expressions.OperLoop | packages/script/compile.go:1276-1303 | the inner loop that emits tighter operators, with its inner loop over a run of prefix operators in buffer order |
| Expressions.CloseCall | packages/script/compile.go:1142-1235 | a closing parenthesis: the operators of its group are emitted, the call is emitted with its argument count, wrong counts of built-in functions are refused |
| Expressions.CloseIndex | packages/script/compile.go:1236-1265 | a closing square bracket: an index read, or an index assignment when `=` follows |
| Expressions.FinishLoop | packages/script/compile.go:1420-1433 | operators still pending are emitted in reverse; an open bracket is an error |
| ExpressionCompilation.Operand | packages/script/compile.go:1074-1419 | after the lexemes of any canonical tree the state of the translator is the one given by the tree: code emitted, operators pending, argument counts restored; or the first wrong call is reported |
| ExpressionCompilation.ListTheorem | packages/script/compile.go:1074-1433 | on a printed list of expressions the translator returns the trees' output in order and the position of the end; that output is the postfix order if and only if every prefix run in front of a binary operator reads the same backwards |
| ExpressionTrees.OutputIsPostfix | packages/script/compile.go:1276-1303 | for one tree: emitted code equals postfix order if and only if the prefix runs are even |
| Precedence.TwoOperators | packages/script/compile.go:191-197 | of two operators in a row, whatever operands stand around them, the second takes all in front of it unless the first is looser in the order ||, &&, equality, order, sum, product |
| Precedence.PrefixFirst | packages/script/compile.go:191-197 | a prefix operator takes its operand before any operator behind it |
| IndexAssignments.SetTheorem | packages/script/compile.go:1236-1433 | `a[x] = e`, with a variable or an outer variable in front: the value of the place, the code of index and value, and the command that stores to the place; the position of the end |
| CallForms.SpreadTheorem | packages/script/compile.go:1405-1415 | a call with `...`: its arguments, the command that spreads the last one, and the call with its count; that command stands behind the value of the last argument if and only if no operator of the argument is pending |
| CallForms.OuterTheorem | packages/script/compile.go:1307-1325 | a call of an outer function that stands alone compiles to its arguments and the call; with an operator behind it the program panics |
| Refusals.WrongNameFails | packages/script/compile.go:1326-1405 | wherever a name stands in an expression: an unknown one is refused, and so is a variable that is called and a function that is not |
| Refusals.BracketsPair | packages/script/compile.go:1125-1265 | for every list of lexemes: as many brackets close as open in an expression that compiles |
| Refusals.LineBreakEndsIff | packages/script/compile.go:1115-1124 | an expression ends at a line break if and only if all its brackets have been closed and the line ends neither with a comma nor with an operator |
| StackMachine.PostfixRuns | packages/script/vm.go:585-1224 | postfix code run on any stack in any world pushes the value of the tree, leaves the world its evaluation leaves, and fails exactly when the evaluation fails |
| StackMachine.SpreadRuns | packages/script/vm.go:585-1224 | the code of a list behind `return` or `=` leaves all values of the list in order, calls with none or several results included |
| StackMachine.CompiledExpressionsRun | packages/script/compile.go:1074-1433 | compileEval preserves meaning: running its code for a printed list pushes the values of the list, left to right |
| StackMachine.ListCompilesIff | packages/script/compile.go:1142-1235 | compileEval refuses a printed list if and only if it calls a built-in function with a wrong number of arguments |
| StackMachine.ListValueIff | packages/script/vm.go:484-530 | a list literal has the values of its elements in order, and no value if and only if an element has none |
| StackMachine.MapValueIff | packages/script/vm.go:484-530 | the same for the entries of a map literal, each under its key |
| StackMachine.LeafValues | packages/script/vm.go:484-530 | a constant and a variable have in a literal the value that they have as an expression; a missing outer variable is held as the empty value there |
| StackMachine.BracketedIsFaithful | packages/script/compile.go:191-197 | every expression tree over known names, of any shape, has a bracketed printing that is canonical, has no mixed prefix run and has the value of the tree |
| StackMachine.MixedPrefixRun | packages/script/compile.go:1284-1289 | counterexample: the code for `!-a + b` applies the two prefix operators in the wrong order |
| Blocks.CompileBlock | packages/script/compile.go:737-843 | the loop over lexemes ends on every input, equals the compile function, and every result is a sound tree |
| Blocks.StepKeeps | packages/script/compile.go:752-829 | every turn, from every valid state and for every lexeme, keeps the invariant (block stack one longer than state stack, parents linked along it, child lists inverse to parent links, variables untyped only between name and type, parameters first) and lowers the measure although some turns move the cursor back |
| Blocks.CompiledIsSound | packages/script/compile.go:830-842 | after success the blocks form a tree, no variable is without a type and each function's parameter types are its first variable types |
| Blocks.EvalForward | packages/script/compile.go:1074-1120 | compileEval never returns a position in front of its start |
| Blocks.TypeLoop | packages/script/compile.go:435-464 | every variable or parameter that waits for a type gets it, others keep theirs |
| Blocks.TailLoop | packages/script/compile.go:466-508 | a variadic tail types the one waiting parameter; a second one is an error |
| Blocks.FindVar | packages/script/compile.go:900-910 | the search from the top of the block stack finds the innermost declaration |
| Blocks.InnermostWins | packages/script/compile.go:900-910 | every block on the stack makes its names visible, and the innermost one that has a name decides what it is |
| Blocks.LocalHides | packages/script/compile.go:912-926 | a name of the text hides the object of the virtual machine with that name |
| Blocks.StateNameIsInjective | packages/script/compile.go:705-713 | plain names of different ecosystems, and different ones of one ecosystem, get different full names |
| Blocks.StateNameForms | packages/script/compile.go:705-713 | the full name of a plain name written out; full names stay as they are, and naming twice changes nothing |
| Blocks.HandledTop | packages/script/compile.go:393-735 | every handler takes the block on top from what one state of the machine demands of it to what the next state demands: its kind, at most the last variables waiting for a type, parameters first |
| Blocks.NameKeeps | packages/script/compile.go:715-735 | naming a block enters it in its parent and gives it its kind |
| Blocks.PopKeeps | packages/script/compile.go:797-816 | leaving a block, with the moved `continue`, keeps the tree |
| StatementCompilation.StmtsRun | packages/script/compile.go:528-587 | on the text of any structured program, at any depth and in any compiled context, the machine arrives behind the text with exactly the blocks of the reference translation |
| StatementCompilation.AssignRun | packages/script/compile.go:549-587 | an assignment list: the cursor goes back once, the places are collected in one command, the values and the assignment follow |
| StatementCompilation.ConditionalRun | packages/script/compile.go:528-531 | `if`: condition and command in the parent, the body in a new child |
| StatementCompilation.AlternativeRun | packages/script/compile.go:694-703 | `else` directly behind its `if` |
| StatementCompilation.LoopRun | packages/script/compile.go:533-537 | `while`: label, condition and command in the parent, no `continue` left there |
| StatementCompilation.LoopBlocks | packages/script/compile.go:807-814 | the closing bracket of a loop leaves the parent without the trailing `continue` and its child with exactly one |
| StatementCompilation.ElementRun | packages/script/compile.go:549-587 | an assignment to an element as a statement: the cursor goes back, the whole text is compiled as an expression |
| StatementCompilation.RaiseRun | packages/script/compile.go:404-407 | `error`, `warning` and `info`: the code of the message and a command of the same kind |
| Refusals.PlaceRefusedIff | packages/script/compile.go:549-587 | among the places of an assignment a system variable is refused, and so is a name that is no variable; every other place is collected |
| Refusals.AssignmentRefused | packages/script/compile.go:549-587 | the same for the statement as a whole |
| Refusals.ElseRefused | packages/script/compile.go:694-703 | `else` without an `if` directly in front of it is refused |
| Refusals.ConditionRefused | packages/script/compile.go:776-790 | `if` and `while` without a condition in their line are refused |
| Refusals.StartRefused | packages/script/compile.go:752-829 | a lexeme that begins no statement or no declaration is refused with the number of its error |
| Refusals.OpenEndRefused | packages/script/compile.go:830-842 | a text that ends inside a bracket is refused |
| Refusals.LineBreakSkipped | packages/script/compile.go:226-345 | line breaks between statements, declarations and the parts of a header change nothing |
| Programs.BuildImplements | packages/script/compile.go:776-828 | the reference translation produces the compositional code shape: each construct's commands in its block and its children behind it, loops ending with one `continue` |
| ProgramMeaning.StmtMeans | packages/script/vm.go:534-1224 | RunCode on the code of one statement, from any stack, labels, world and fuel, does what the statement means: same world, same fuel, same status, the stack only extended |
| ProgramMeaning.LoopMeans | packages/script/vm.go:621-643 | the jump back to the label repeats the loop, `break` ends it, `return` passes through, and every repetition costs one unit of fuel |
| ProgramMeaning.AlternativeMeans | packages/script/vm.go:613-620 | the condition that `if` leaves on the stack decides `else` correctly |
| ProgramMeaning.AssignMeans | packages/script/vm.go:644-679 | an assignment writes each value to its place in order |
| Programs.AssignsInOrder | packages/script/vm.go:644-679 | a list of places is assigned one after the other, each in the world that the one before it leaves |
| ProgramMeaning.ElementMeans | packages/script/vm.go:795-847 | an assignment to an element stores under the index in the value of the place, in the world that index and value leave |
| ProgramMeaning.RaiseMeans | packages/script/vm.go:680-687 | `error`, `warning` and `info` end the run with a failure |
| ProgramMeaning.FunctionMeans | packages/script/vm.go:1200-1224 | a function's block answers with the values of the `return` that ended it in place of its parameters, with the world that its statements mean, or fails or runs out of fuel exactly when they do, whatever the commands mean |
| ProgramMeaning.CopiedDown | packages/script/vm.go:1208-1219 | the loop that copies results down the stack leaves the last values in place of everything above the start, though source and target overlap |
| Declarations.TextCompiles | packages/script/compile.go:737-843 | CompileBlock succeeds on the text of any list of functions and contracts and returns exactly the blocks of the reference translation |
| Declarations.HeaderRun | packages/script/compile.go:409-464 | a function header with parameters, results and local variables yields the declared block: slots, types, parameter list, entry in the parent |
| Declarations.ParamsRun | packages/script/compile.go:409-508 | parameters, with `...` for the last one or without: slots, types and the mark of a variadic function |
| Declarations.ParensRun | packages/script/compile.go:267-300 | parameters in parentheses, or no parentheses where there are no parameters, as in `action {` |
| ParameterLists.SharedRun | packages/script/compile.go:409-464 | names that share a type, as in `a, b int`, are declared like names that each have it, as parameters and as variables |
| ParameterLists.TailRefusedIff | packages/script/compile.go:466-508 | of names that wait for a type in front of `...`, one becomes a list and two are refused |
| Declarations.ContractRun | packages/script/compile.go:715-735 | a contract: its child block, its prefixed name in the root, its number among the root's children |
| Sections.DataRun | packages/script/compile.go:589-692 | a data section leaves in the contract the fields of its groups: each name in order with the type of its group, the tag on the last name |
| Sections.SettingsRun | packages/script/compile.go:600-626 | a section of settings leaves in the contract each key with the value written behind it |
| Sections.SettingsRead | packages/script/compile.go:611-626 | of a key that is set twice the last value stays, and keys that are not set stay as they were |
| Sections.SectionsRead | packages/script/compile.go:589-626 | a contract has the fields of its last data section and the values of its last section of settings; nothing else of it changes |
| TextPrograms.SectionsAreEntered | packages/script/compile.go:589-692 | after CompileBlock on any text the block of every contract has its name, its number and what its sections say |
| Refusals.FieldRefused | packages/script/compile.go:628-692 | names without a type before the end of their line, a type or comma without a name and a tag in front of the type are refused, whatever groups stand in front |
| Refusals.SectionRefused | packages/script/compile.go:589-609 | a section outside a contract is refused |
| Declarations.NestedFuncTakesContinue | packages/script/compile.go:807-814 | a function inside a body compiles to the reference translation if and only if the code in front of it does not end with `continue`; otherwise that command moves into the function |
| Declarations.NestedTextCompiles | packages/script/compile.go:797-816 | whole texts of a function with another one at the end of its body compile, to the reference translation if and only if the code in front does not end with `continue` |
| Declarations.StrayContinueMoves | packages/script/compile.go:807-814 | counterexample: one text whose `continue` the compiler puts into the inner function |
| CompiledTexts.TextIsFaithful | packages/script/vm.go:534-1224 | from text to behaviour: every function of every compiled text does on the virtual machine what its statements mean, for any meaning of the commands and calls |
| Calls.StmtsEndWell | packages/script/vm.go:1208-1219 | a list whose returns have n values ends with n values; outside loops it ends with no stray status, and never falls through when every path returns |
| Calls.StmtsSame | packages/script/vm.go:646-740 | statements mean the same with variables, also those inside literals, looked up in the stack of frames and with one set of variables of their own, and leave the frames of the callers alone |
| Calls.ItemSame | packages/script/vm.go:484-530 | the part of that result for map and array literals with variables |
| WholePrograms.CallMeans | packages/script/vm.go:124-197 | on loaded blocks callFunc with its frame, argument check, nested calls and limit of depth gives exactly the results and the world of the source call; recursion included |
| Calls.GatheredIsBound | packages/script/vm.go:152-179 | the list that callFunc makes of the arguments of a variadic function gives the parameters one after the other, the last one with all arguments that are left, or fails where they are too few |
| Calls.WrongArgumentFails | packages/script/vm.go:178-192 | a call with a missing argument, or one without the type of its parameter, fails |
| Calls.BuiltinCalls | packages/script/vm.go:197-275 | a call of a built-in function has its values and its effect, on the machine as in the source, and touches no frame |
| Calls.OuterIsSet | packages/script/vm.go:644-679 | an assignment to an outer variable sets it and touches no frame |
| WholePrograms.MachineRegular | packages/script/vm.go:1208-1219 | every call on the machine leaves as many values as its function declares |
| WholePrograms.ReturnsIff | packages/script/vm.go:1208-1219 | of one run: a call leaves the declared number of values if and only if the function declares none or a `return` ended the run |
| MissingReturns.FallingThrough | packages/script/vm.go:1208-1219 | counterexample: a text that compiles, in which `f` declares a result and leaves none, and `g` with `x = f()` answers with its own argument where the source has no value to assign |
| MissingReturns.FormIsNotNecessary | packages/script/vm.go:1208-1219 | a body that always returns although its form does not show it: the sufficient condition AlwaysReturns is not necessary |
| TextPrograms.TextLoads | packages/script/compile.go:737-843 | the compiled text holds each function in its block, with its header, its code and names that lead to its own variables and to functions of the text |
| TextSequences.ProgramIsFaithful | packages/script/vm.go:124-197 | from texts to behaviour through calls: CompileBlock succeeds on every text of a sequence, and on the blocks of all of them every function answers every call, from whatever text, as its source means, for every host, depth of calls and number of repetitions |
| TextSequences.SequenceLoads | packages/script/compile.go:846-883 | after any sequence of texts the names in every function lead to its own variables, to functions of its text, to functions of earlier texts or to built-in ones, also where a later text defines a function again |
| Calls.EntriesFlushed | packages/script/compile.go:846-858 | the entries that FlushBlock updates text by text hold, for the functions of each text, the next definition behind it |
| Calls.CallsReachLatestIff | packages/script/compile.go:846-858 | the calls of a function reach its last definition if and only if at most one later text defines it again |
| RedefinedFunctions.StaleCall | packages/script/compile.go:846-858 | counterexample: three texts that compile and define `f`; a caller in the first one answers with the second version while the third is loaded |
| ContractNames.ContractsList | packages/script/compile.go:1436-1458 | the scan with its bracket counter computes the list of names |
| ContractNames.RunLevel | packages/script/compile.go:1074-1433 | an expression, initializers included, leaves the bracket level as it found it and never reaches level 0 |
| ContractNames.ScanAgrees | packages/script/compile.go:737-843 | whenever the compiler succeeds, the scan lists the declared names of the root's children in order if and only if every keyword outside all brackets is directly followed by a name |
| ContractNames.LineBreakHidesName | packages/script/compile.go:1436-1458 | counterexample for every name: the compiler declares the contract of a text with a line break behind the keyword, the scan finds no name |
| Linker.Machine.FlushBlock | packages/script/compile.go:846-883 | both loops: marked ids first, then placing with the shifting offset |
| Linker.Machine.FlushContract | packages/smart/funcs.go:1237-1280 | a text of a table row with other than one contract is refused before anything is noted; otherwise the note of the contract is appended and the text flushed |
| Linker.FlushKeepsIdsIff | packages/script/compile.go:846-883 | a flush succeeds with every contract's id equal to its place and every name leading to its contract if and only if the contract with id 0 is not replaced |
| Linker.FlushLoads | packages/script/compile.go:846-883 | what a flush loads: each name of the text leads to its last item, replaced contracts keep their ids, new ones stand behind the old ones in order, everything else stays |
| Linker.FlushesKeepIds | packages/script/compile.go:846-883 | the same over any sequence of flushes |
| Linker.UndoFlushes | packages/block/block.go:206-223 | the reverse loop over the notes of a failed transaction |
| Linker.WalkRestoresIff | packages/block/block.go:206-223 | after any transaction, whatever texts it loads and wherever it fails, the reverse walk over its notes restores both tables if and only if no text replaced the contract with id 0 |
| Linker.ZeroStays | packages/script/compile.go:863-869 | exception on a bare machine whose first child is a contract: its replacement is appended and stays after the walk |
| Limits.Limiter.CheckLimit | packages/block/limits.go:108-115 | the limiter object updates its counters and answers as the check function says, in each mode |
| Limits.Limiter.Size | packages/block/limits.go:255-270 | the size limiter |
| Limits.Limiter.User | packages/block/limits.go:178-196 | the limiter of transactions per user |
| Limits.Limiter.Ecosystem | packages/block/limits.go:210-242 | the limiter of transactions per ecosystem with its lazily read limit |
| Limits.Limiter.Fuel | packages/block/limits.go:282-295 | the fuel limiter |
| Limits.ProcessTransactions | packages/daemons/block_generator.go:220-258 | the admission loop returns exactly the candidates that the preprocess limiters let through, counters advancing also on refusals |
| Limits.ParsedBelowCounted | packages/block/limits.go:80-295 | over any queue the counters of a parsed block of admitted transactions stay below the preprocess counters |
| Limits.ModesAgree | packages/block/block.go:202-241 | every prefix that generation keeps of an admitted list gets from parsing the same verdict for each transaction |
| Limits.VerdictsAgreeIff | packages/block/block.go:202-241 | for every list, admitted or not, generation and parsing give the same verdicts up to a position if and only if each transaction kept by generation meets the size, user, count and ecosystem limits of parsing |
| Limits.EcosystemListsDiffer | packages/block/limits.go:210-242 | two transactions over the limit of their ecosystem pass the check of the block and are judged differently by the modes |
| Limits.AdmittedUsersFit | packages/block/block.go:325-342 | what preprocessing admits passes the count of transactions per user in Block.Check |
| Limits.NothingAfterStop | packages/daemons/block_generator.go:237-243 | after the first stop of a limiter the loop goes on, and admits no contract transaction any more |
| LimitTotals.CountersAreTotals | packages/block/limits.go:80-295 | in every mode and after any prefix: counters are the sums and counts, written over the list, of the transactions that reach each limiter |
| LimitTotals.VerdictIs | packages/block/limits.go:80-295 | the verdict on each transaction in terms of these sums and the limits, each as an if and only if |
| LimitTotals.KeptWithinLimits | packages/block/limits.go:255-295 | after a transaction that passes, fuel, bytes and number of the block are within their limits |
| LimitTotals.AdmitsIff | packages/daemons/block_generator.go:220-258 | a transaction is admitted if and only if its size, its user and its number fit with what came before |
| LimitTotals.UsersFitIff | packages/block/block.go:325-342 | the count in Block.Check, as the number of positions of each key |
| Tables.UndoExact | packages/rollback/transaction.go:76-139 | undoing the log of any list of writes, also on rows worn by earlier rollbacks, leaves the old rows with exactly the written cells passed once through log and restore |
| Tables.LocateIsInjective | packages/smart/selective.go:70-160 | different rows never share a place, and exactly the rows of keys and members lie in one table for all ecosystems |
| Tables.ReturnedIff | packages/rollback/transaction.go:44-66 | a cell comes back unchanged if and only if it is an empty byte column or another column that does not hold the text NULL |
| Tables.RollbackRestoresIff | packages/rollback/transaction.go:76-139 | a rollback restores the rows if and only if every cell written survives its log entry |
| Tables.WornWrites | packages/smart/selective.go:70-364 | a list of writes on rows worn by a rollback is allowed as on the rows themselves, leaves the cells it overwrites unworn, and logs the same if and only if the worn cells that it overwrites look the same in the log |
| Tables.QuietIff | packages/smart/selective.go:186-194 | a cell that loses its value in a rollback looks the same in the log before and after if and only if it is no byte column |
| Tables.PublicKeyComesBackAsHex | packages/smart/selective.go:186-194 | counterexample: a replaced public key comes back as its hexadecimal text |
| PlayOutcomes.WritesAreRead | packages/smart/selective.go:70-364 | after a write the row reads as written, and every other cell and row as before |
| PlayOutcomes.WriteRefusedIff | packages/smart/selective.go:70-364 | a write is refused if and only if a new row meets an old one, or a change names a row that is missing, no column or a column that the row does not have |
| Chain.PlayIsFold | packages/block/block.go:187-279 | Play leaves the tables equal to folding the transactions that passed execution and limits, over the list or the prefix below the stop |
| PlayOutcomes.FailedRunLeavesNothing | packages/block/block.go:202-241 | a contract that ends with an error leaves tables and counters as they were |
| PlayOutcomes.BlockedRunLeavesNothing | packages/block/block.go:202-241 | so does one with a write that is not possible in the state that the writes before it leave |
| PlayOutcomes.GoodRunIsJudged | packages/block/block.go:225-279 | a run that ends well comes to the limiters with its fuel and is kept with exactly its writes, undo records and log entry if and only if they let it pass |
| PlayOutcomes.PlayMeans | packages/block/block.go:187-279 | the states of the tables through a block: a transaction whose run ends well and whose sums and counts fit the limits takes them to those with its writes, any other leaves them, and the loop ends at the first one that the limits stop |
| Chain.CutBlockReplays | packages/block/block.go:76-113 | the prefix that generation keeps, played from the start, keeps all of it and gives the same tables |
| Chain.ParsingNeverStops | packages/block/block.go:225-241 | a parsed block is always played to its end |
| Chain.NewNeverClash | packages/block/block.go:325-347 | a list that has passed the check of hashes never fails at the log of transactions |
| Chain.ClashesIff | packages/block/block.go:260-279 | a block fails at the log of transactions if and only if a transaction that it would keep is logged already or comes twice |
| Chain.RollbackPlayed | packages/rollback/block.go:84-137 | rolling back the transactions of a block in reverse, failed ones included, gives back undo log and transaction log exactly and the rows up to worn cells |
| Chain.RollbackLogsIff | packages/rollback/block.go:84-137 | for every database and block: the rollback of the played block gives back the log of transactions if and only if none of them was logged before, and the undo log if and only if it held no record of theirs |
| Chain.RollbackBlockIff | packages/rollback/block.go:84-137 | the whole state comes back up to worn cells if and only if none of the transactions was logged before |
| Chain.WornPlayFrom | packages/block/block.go:187-279 | transactions that do not look at worn cells get the same verdicts on worn rows, with the same undo log if and only if the worn cells they overwrite look the same in the log |
| Chain.GeneratedBlockParses | packages/block/block.go:167-281 | a block generated from admitted transactions gives every parsing node the tables of its generator |
| Ledger.AppendLinks | packages/block/db.go:50-163 | an accepted block numbered tip + 1 keeps numbers contiguous, hashes chained and the record of the last block right |
| Acceptance.AcceptedIff | packages/block/block.go:284-350 | a block is accepted if and only if clock and signature are right, its predecessor is stored, its node has not used the slot, its transactions are new and not too many of one user, and its first transaction does not stop the generation |
| Acceptance.AcceptedIsStored | packages/block/db.go:50-163 | what is stored: the block, cut where a limiter stopped it, with its hash over the stored hash of the predecessor; all other blocks stay |
| Ledger.AppendConsistent | packages/block/block.go:76-150 | it also keeps the tables equal to the replay of the stored blocks, also when generation cut it |
| Ledger.ToBlockExact | packages/rollback/rollback.go:44-99 | rollback to block k: undo log and transaction log exactly as after block k, rows exactly up to the wear of the cells written since |
| Ledger.ToBlockConsistentIff | packages/rollback/rollback.go:44-99 | the tables after a rollback are the replay of the remaining blocks if and only if no cell written since loses its value in the log |
| Ledger.SwitchLinksIff | packages/daemons/blocks_collection.go:313-488 | a fork switch, failed or not, keeps the links if and only if it does not put new blocks below the tip; everything below the fork stays |
| Acceptance.SwitchedIff | packages/daemons/blocks_collection.go:415-488 | a switch succeeds if and only if clock and signatures are right, no new block lies in a slot that its node has used, and none brings a transaction that the tables behind the fork know or keeps one that a new block in front of it has kept |
| Ledger.SwitchConsistentIff | packages/daemons/blocks_collection.go:415-488 | after a successful switch the store is consistent if and only if its tables are the replay of the new chain and no kept transaction comes again |
| Ledger.SwitchReplaysIff | packages/daemons/blocks_collection.go:415-468 | after a switch to blocks that do not look at lost cells the tables are the replay of the new chain if and only if the new blocks overwrite every lost cell and none is a byte column |
| Ledger.EverySwitchReplaysIff | packages/daemons/blocks_collection.go:313-488 | whatever blocks replace those behind a fork, the tables become the replay of the new chain, if and only if no cell written behind the fork is lost |
| Ledger.FailedSwitchIff | packages/daemons/blocks_collection.go:332-350 | a switch that fails or has no new blocks has rolled the old blocks back: the store stays consistent if and only if those blocks had kept no transaction |
| Ledger.RepeatedHashLosesRow | packages/block/block.go:325-347 | counterexample, in any consistent store of three or more blocks: a switch to two blocks that share an inserting transaction is accepted with right tables, and a later rollback of the second block loses the row of the first |
| Ledger.RunLinks | packages/daemons/blocks_collection.go:313-488 | in every state that any run of appends, rollbacks and switches, failed ones included, reaches, ids are contiguous, hashes chained and info_block names the tip |
| Ledger.RunConsistent | packages/rollback/rollback.go:44-99 | after any run of steps that lose nothing the tables are the replay of the stored blocks |
| Ledger.StepConsistent | packages/rollback/rollback.go:44-99 | a step that loses nothing keeps the store consistent; for appends, rollbacks and failed switches only such a step does |
| Ledger.SwitchOnePerSlotIff | packages/block/block.go:308-323 | new blocks of a switch are compared with the stored blocks only: afterwards no node has two blocks in one slot if and only if the new blocks do not share one among themselves |
| Ledger.SwitchTwoInASlot | packages/block/block.go:308-323 | counterexample from every chain of three or more blocks: a switch that is accepted and puts two blocks of one node into one slot |
| Ledger.OldSlotRefused | packages/block/block.go:308-323 | a new block in a slot that its node has used makes the switch fail, also when the stored block is one that would be replaced |
| Ledger.RunOnePerSlot | packages/block/db.go:140-160 | in every state that a run reaches no node has two blocks in one slot, unless the lower one has the time of the first block or a switch brought them together |
| Node.Database.Write | packages/smart/selective.go:70-364 | a write changes the row and appends one undo record |
| Node.Database.PlayTx | packages/block/block.go:187-279 | one transaction under a savepoint: kept with its effects or rolled back, and a hash that is already logged is noticed |
| Node.Database.Play | packages/block/block.go:187-279 | the loop with savepoints: tables and number of kept transactions are those of the play function, and it fails exactly where a kept hash is already logged |
| Node.Database.AppendBlock | packages/block/block.go:76-150 | the block is stored with its tables, or nothing changes |
| Node.Database.RollbackTransaction | packages/rollback/transaction.go:76-139 | the loop over the records of one transaction, last first |
| Node.Database.RollbackTransactions | packages/rollback/block.go:84-137 | the loop over the transactions of a block, last first |
| Node.Database.ToBlockID | packages/rollback/rollback.go:44-99 | batches of blocks are rolled back and deleted, highest first, then the last-block record is set |
| Node.Database.CollectBlocks | packages/daemons/blocks_collection.go:353-413 | blocks are collected downwards until one is signed over our own predecessor |
| Node.Database.SwitchFork | packages/daemons/blocks_collection.go:313-351 | the old blocks are rolled back in any case, then the new ones checked, played and stored, as the switch function says |
| Node.Database.PlayNewBlocks | packages/daemons/blocks_collection.go:415-468 | all new blocks are played in one transaction or none |
| Node.Database.StoreNewBlocks | packages/daemons/blocks_collection.go:470-488 | each new block is stored with its hash built on the block below |
| Slots.RangeIsSlot | packages/protocols/generation-queue.go:118-129 | for all seconds from the first block on and every slot length, the truncated range holds exactly the seconds of the same slot, the first second only if a slot is one nanosecond long |
| Slots.FirstSecondRepeats | packages/protocols/generation-queue.go:60-69 | the exception occurs: any number of blocks with the time of the first block is stored in slot 0 |
| Slots.BlockForTimeExists | packages/protocols/generation-queue.go:82-96 | the query over the stored blocks |
| Slots.NeverTwoInASlot | packages/block/db.go:140-160 | whatever blocks are offered with whatever times, no node position ever has two stored blocks in one slot, unless the earlier one has the time of the first block |
| Slots.SecondBlockRefused | packages/block/db.go:140-160 | a node's first block in a slot is stored, and a second one if and only if the first has the time of the first block |
| Slots.ExactlyOneGenerates | packages/protocols/generation-queue.go:131-138 | at every second after the first block exactly one node position may generate |
| Slots.TurnIff | packages/protocols/generation-queue.go:71-78 | a node may generate at a time if and only if the time lies in a slot whose number is its position plus a multiple of the number of nodes |
| Slots.NextNode | packages/protocols/generation-queue.go:71-78 | consecutive slots belong to consecutive nodes |
| Slots.EveryNodeInTurn | packages/protocols/generation-queue.go:131-138 | of any slots in a row, as many as there are nodes, every node gets one |
| Slots.FirstTurn | packages/protocols/generation-queue.go:60-78 | at the second of the first block only the first node may generate; with slots of one nanosecond and several nodes none may |
| Codec.SizeRoundTrip | packages/converter/converter.go:93-200 | every int64 length code followed by anything is read back by the slice decoder, every non-negative one by the buffer decoder |
| Codec.EncodeLength | packages/converter/converter.go:93-104 | the loop that drops leading zero bytes computes the length code |
| Codec.IntRoundTrip | packages/converter/converter.go:60-143 | every int64 with length byte is read back, with what follows it |
| Codec.EncodeLenInt64 | packages/converter/converter.go:60-68 | the loop that drops high zero bytes |
| Codec.BinToDec | packages/converter/converter.go:571-579 | the loop computes the big-endian value |
| Codec.BinMarshal | packages/converter/converter.go:203-260 | the recursive method with its loop over fields appends the code of the value |
| Codec.ValRoundTrip | packages/converter/converter.go:203-436 | both decoders return every value of nested structs from its bytes and leave the suffix |
| Codec.SelfDelimiting | packages/converter/converter.go:203-436 | two values of one type followed by anything with equal bytes are equal, and so are the suffixes |
| Codec.DecodersAgree | packages/converter/converter.go:262-436 | on arbitrary bytes the two decoders differ only where the slice decoder panics on a negative length that the buffer decoder refuses |
| Framing.BodyRoundTrip | packages/block/serialization.go:50-154 | the body loop recovers exactly the framed list if no transaction is empty, and fails otherwise |
| Framing.VerifierSeesSignedText | packages/block/serialization.go:62-88 | the text that the verifier checks after reading the framed body is exactly the text that was signed, the empty list included; with an empty transaction it reads nothing |
| Framing.SignedTextIsInjective | packages/block/block.go:396-400 | two headers, previous hashes and roots with one signed text are equal |
| Framing.SignedFields | packages/block/block.go:396-400 | cut at its commas, the signed text has the fields of the header in their order, and the root |
| Framing.FrameBody | packages/block/serialization.go:50-58 | the loop that frames transactions and collects leaves |
| Framing.UnframeBody | packages/block/serialization.go:103-142 | the loop that reads the body |
| Framing.RecordReads | packages/daemons/creating_blockchain.go:111-143 | a record is read back wherever it stands in the file |
| Framing.LastReads | packages/daemons/creating_blockchain.go:146-199 | the last record is found from the end of the file |
| Framing.WriteExtends | packages/daemons/creating_blockchain.go:44-90 | one run appends a whole batch behind the last saved block, without gap or repetition, or leaves the file alone |
| Framing.RunsKeepFile | packages/daemons/creating_blockchain.go:44-90 | after any number of runs over a growing chain the file is exactly records 1 to k and no run failed |
| Framing.FileReads | packages/daemons/creating_blockchain.go:111-143 | reading at the start of record j of such a file returns block j |
| Framing.ReserveFile.WriteNextBlocks | packages/daemons/creating_blockchain.go:44-90 | the loop that appends records to the file |
| Address.CheckSum | packages/crypto/checksum.go:63-78 | the loop with its two sums computes the digit that completes the weighted sum to a multiple of ten |
| Address.AddressChecked | packages/crypto/converter.go:54-63 | for every 64-bit checksum the address stays below 2^64 and carries the right check digit |
| Address.DigitsKept | packages/crypto/converter.go:54-63 | the address keeps every digit of the checksum but the last one |
| Address.DashedRoundTrip | packages/converter/converter.go:744-805 | the dashed form is read back exactly for addresses with a right check digit; all others become 0 |
| Address.SignedRoundTrip | packages/converter/converter.go:773-805 | the same for the signed decimal form |
| Address.AddressSurvives | packages/crypto/converter.go:54-63 | the address of every key is valid and survives both text forms |
| Address.WrongDigitFound | packages/converter/converter.go:940-949 | changing any one digit of a valid address makes it invalid |

## Left out

- Expressions.CompileEval: calls of contracts, the extra push in front of the built-in function CallContract, the mode in which unknown names are taken for contracts (`vm.Extern`) and named function tails are left out; the model answers them with an error or a panic, and theorems do not cover texts that use them.
- Expressions.OneLexeme: the same.
- Expressions.CloseCall: the same for named tails.
- CallForms.SpreadTheorem: what `...` and calls of outer functions do on the virtual machine is left out, and structured programs do not contain them.
- Blocks.CompileBlock: the lookup of names under their `@state` form, the CanWrite flags with the check of `conditions`, and the value `nil` in a settings section, where the program depends on map order, are left out.
- Blocks.TypeLoop: parameters of named tails are left out, with the tails.
- Blocks.TailLoop: named tails are left out; variadic tails are covered.
- StatementCompilation.StmtsRun: variable declarations inside bodies other than at the start of a function are compiled by `Blocks` but are not part of the structured programs.
- ProgramMeaning.RaiseMeans: which message a failing run reports is left out; all failures are one.
- ProgramMeaning.ElementMeans: what a map or a list does with a new element is the parameter `store`.
- Declarations.TextCompiles: in these texts the sections of a contract come before its functions and every parameter has its own type; `Sections.DataRun`, `Sections.SettingsRun` and `ParameterLists.SharedRun` hold wherever such a text stands.
- Refusals: not every error is covered; those of the table of states in the middle of a header are not.
- TextSequences.ProgramIsFaithful: costs and memory limits are left out, and so is a function that is defined again with other numbers of parameters or results.
- Linker.Machine.FlushBlock: the ids of functions in a text (they are never set from their place) and the 32-bit width of ids are left out; what happens to the names of functions is in `Calls.Flushed`.
- Linker.Machine.FlushContract: the check of the caller's access and the row id that it writes to the contract are left out.
- Tables.UndoExact: system undo records such as new tables or columns, and the first block's transaction, are left out.
- Ledger.RunConsistent: states one direction for whole runs; the exact condition of each kind of step is in `Ledger.StepConsistent` and `Ledger.SwitchConsistentIff`.
- Ledger.SwitchReplaysIff: speaks of transactions that do not look at lost cells; what other transactions do with a lost cell is theirs, and `Ledger.EverySwitchReplaysIff` covers them.
- Chain: notifications, transaction status rows and attempt counters, and the block's random seed.
- Slots: overflow of 64-bit nanosecond arithmetic, and `nextTime`.
- Codec: Int8, Int32 and Float64 values; numbers outside the width that `DecToBin` is given.
- Framing: the header of a block and its parser; a short read of the reserve file is modelled, an error in the middle of a write is not.
- Address: hashing of the key; the checksum is any 64-bit number.
- The lexer, the network protocol, HTTP, SQL and the user interface of the node.
