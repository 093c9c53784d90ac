# Elism: regions, code generation, and the examples

Elism is a small imperative language with region-based memory, compiled to LLVM basic blocks. A reference type carries
the name of the region its object lives in; `on R = NewRegion() { ... }` opens a region and deletes it at the end of the
block; a call renames the regions in the types of its arguments and of its result. This project models the compiler and
its runtime in Dafny and proves what they are for.

The model has five parts.

1. **Regions.** `RegionTypes` is the type comparison and the call check, with the two renaming maps of `doCall`
   (`NameOrder` is the key order of the maps). `Lang`, `Memory` and `Interp` are the language and its interpreter (fuel
   bounds loop iterations only; running out is a separate outcome, `Timeout`). `Checker` is what is accepted;
   `ProgramOk(p, true)` adds the two conditions on names that the code leaves to the programmer. `RegionSafety` proves that
   accepted programs never touch a deleted region, `RegionNames` that the code's own checks do not suffice: where a `var`
   holds arrays of a region, opening its name again leads to a read of a deleted region, and the condition added on `on`
   names is exactly what keeps scopes well typed. `Typing` states what the checker accepts as rules over instances of the
   declared types and proves that it accepts exactly that, and `Sample` is a program with every kind of construct that passes
   all checks. `Arithmetic` fixes the operators by their laws, `Values` says that a read gives what was last stored or
   allocated there, and `Control` which statements run, how often and in what order. `Lifetimes` proves that regions are deleted once each, in stack order,
   `ForRange` that a `for` over `range` counts, and `RangeIterator` that the iterator operations are what the library's
   source does, and that a loop which calls it counts too. `Definite` is a check that rules out reads of variables without a value.
2. **Code generation.** `Ir` is the block graph, the builder's steps and an execution of the graph. `Lowering` gives the
   emitted graph as functions, and `Builder` is the mutable builder with its insertion point, whose methods are proved to
   produce exactly those graphs. `Growth`, `Homes`, `Running`, `FillLoop` and `Simulation` lead to `Correctness`: the blocks
   compute what the interpreter computes. `Faults` proves that they stop where the interpreter faults, at an instruction that
   fails for the same reason, and go on where it runs out of fuel. A call runs the code of the function it calls, inside the caller's; `Functions` takes the simulation
   from entry to return, and from each function to those that call it. `Behaviour` draws the conclusion: a statement or
   function finishes, faults or runs forever if and only if its code does, and `Compiled` states it of programs for which
   nothing but the checks on their source is known. `WellFormed` proves that blocks are placed once, terminated once and jump inside the
   construct. `Reading` tells from the source whether everything the code reads has been written; `Dominance` proves that
   this suffices, on every path, and `Crossing` and `Violations` that it is necessary. `Scopes` is the chain of code
   generation contexts.
3. **Knapsack.** `Knapsack` proves the three example programs optimal over all choices of items.
4. **Syntax.** `Grammar` has the expression productions and a deterministic parser, `Parsing` proves them equivalent,
   `Lexer` has the token rules and their actions, and `RoundTrip` proves that writing any expression, by one's own spelling
   of each construct, and lexing and parsing it gives it back; so does the code's own printing where it is complete.
5. **Runtime and classes.** `RegionTable` is the growable block table, `ClassLayout` the layout of inherited classes and
   member lookup.

`Basics` has the two definitions that several parts share.

Assumptions the code needs but does not check are conjuncts of `ProgramOk` or of a lowering precondition: a returned
expression has the declared return type; array literals are homogeneous; an `on` expression is `NewRegion()`; `return`
comes last; and, in `ProgramOk(p, true)` only, a function's declared region names are distinct and an `on` name is in no
type in scope. Where the code dereferences a failed map lookup (a region name missing from the remap), the model takes the
lookup to mean "not equal", which is what `scripts/tests/error_regions/call_arrays_one_default.bp.expect:1-2` expects.

Arithmetic is 64-bit two's complement with wrap-around; division truncates toward zero and faults on a zero divisor and on
the least number divided by -1. A comparison has an i1 value although its recorded type is that of its left operand
(`src/ast/expressions/BinaryOperationExprNode.cpp:62`); using it where a 64-bit integer is needed is the fault `Width`.

Four promises fail of the code as it is. Each has a concrete input and the condition under which the promise holds:

- A call with a region declared twice accepts arguments of two regions for parameters of one
  (`RegionTypes.RepeatedDeclarationUnsound`). The check takes one argument type per parameter type if and only if no
  declared region is visible through two call-site names (`RegionTypes.CheckIsSoundIffConsistent`).
- A reused `on` name is accepted and breaks region safety: wherever a `var` holds arrays of a region of that name, there is
  a statement that the code accepts and that ends in a read of a deleted region (`RegionNames.ReusedNameDangles`;
  `RegionNames.AcceptedProgramDangles` is a whole program). Opening a region keeps every well-typed scope well typed if and
  only if no type in scope names it (`RegionNames.NewNameIsExact`).
- A name declared in the arm of an `if` is visible after it, and its register is undefined on the path around the arm
  (`Dominance.ArmNameIsUndefined`). Every path writes what it reads if and only if the source passes the check of `Reading`
  (`Violations.DominatedIffDefined`).
- Code that reads a variable without a value goes on where the interpreter faults (`Behaviour.UninitGoesUnnoticed`). In
  programs that pass the check of `Definite`, this never happens (`Definite.SureNeverUninit`), and then statement and code
  agree in every case (`Behaviour.CheckedBehaviour`).

Lemmas about the code of a statement or expression of function `k` assume `Ready`: control is where the code is emitted, the
scope matches, and the functions before `k` do what the interpreter says (`Callees`). The last part is proved for every
function whose code can be generated (`Functions.AllRun`), so the results of `Behaviour` and `Compiled` do not assume it.

## Model

| member | source | states |
|---|---|---|
| RegionTypes.DoCall | src/codegen/FunctionType.cpp:16-63 | for every signature, repeated declarations included, the loops that build the renaming, compare arguments and invert the renaming in key order decide exactly `CallType`; `NoHandle` is answered if and only if there is no handle for the first region, `RegionCount` if and only if there is one and the counts differ, `ArgMismatch(i)` if and only if both agree and argument i is the first that is no instance of its parameter, `UnmappedReturn` if and only if all are instances and a region of the return type is not visible, and otherwise the call is accepted with the return type as the caller knows it |
| RegionTypes.AnswerIsExact | src/codegen/FunctionType.cpp:19-62 | these conditions give every call exactly one answer, and it is `CallType`'s |
| NameOrder.BeforeIsLexicographic | src/codegen/FunctionType.cpp:54-57 | the order in which the map of names is visited is the order by the first character that differs, a prefix first |
| RegionTypes.CallIsInstance | src/codegen/FunctionType.cpp:19-62 | whatever names repeat, a call is accepted if and only if its first region has a handle, the region counts agree, every compared argument is its parameter with each declared region replaced by a call-site name that stands for it, and the return type names only visible regions; the result is such an instance of the return type |
| RegionTypes.CallIsSubstitution | src/codegen/FunctionType.cpp:31-60 | when no declared region is visible through two call-site names (distinct declarations suffice), acceptance is substitution: each compared argument is its parameter type with call-site regions for declared ones, and the result type is the same substitution of the return type |
| RegionTypes.ArgumentIsInstance | src/codegen/ArrayType.cpp:57-73 | equality under the built renaming holds if and only if the argument is an instance of the parameter, for all types and all region lists |
| RegionTypes.ArgumentIsSubstitution | src/codegen/ArrayType.cpp:57-73 | under the same condition, equality holds if and only if the parameter's regions are visible and the argument is the parameter with call-site names substituted |
| RegionTypes.ReturnIsInstance | src/codegen/ArrayType.cpp:79-81 | renaming with the inverse map succeeds if and only if all regions are visible, and then gives an instance |
| RegionTypes.DistinctCallIsSubstitution | src/codegen/FunctionType.cpp:37-60 | with distinct names on both sides and types over the declared regions, acceptance is substitution with no side condition on visibility |
| RegionTypes.CheckIsSoundIffConsistent | src/codegen/FunctionType.cpp:37-52 | two different argument types are accepted for one parameter type if and only if some declared region is visible through two call-site names |
| RegionTypes.RemapRoundTrip | src/codegen/FunctionType.cpp:54-60 | renaming and inverse renaming undo each other on types whose regions they map |
| RegionTypes.BuildRemapInjective | src/codegen/FunctionType.cpp:37-40 | with distinct declared regions the renaming sends no two names to one, so the inverse map is well defined |
| RegionTypes.RepeatedDeclarationUnsound | src/codegen/FunctionType.cpp:37-52 | `doCall` accepts a call whose region is declared twice, with arguments of two regions for parameters of one |
| RegionSafety.RegionSafety | src/ast/statements/OnStatementNode.cpp:16-30 | no run of an accepted program, with nested `on`, loops and calls, reads, writes or deletes in a deleted region or applies an operation to the wrong kind of value, and when a run ends no region is live |
| RegionSafety.ExecSound | src/ast/statements/AssignStatementNode.cpp:18-22 | every statement keeps the invariant: names in scope have types that name live regions only, and memory is well typed, although stale references to deleted regions remain in longer-lived arrays |
| RegionSafety.EvalSound | src/ast/expressions/CallExprNode.cpp:13-22 | every expression keeps the invariant and its value has the type the checker computed; which expressions the checker accepts is `Typing.TypeOfIsExact` |
| Typing.TypeOfIsExact | src/codegen/FunctionType.cpp:19-62 | the checker gives an expression a type if and only if the typing rules do, which ask of a call that some region passed, by default the innermost, has a handle, that there are as many as declared, that each argument is an instance of its parameter, and give it the return type as the caller knows it |
| Typing.CallAccepted | src/ast/expressions/CallExprNode.cpp:13-22 | the rule for calls holds if and only if all arguments have types and `doCall` accepts them with that type |
| Typing.NewIsExact | src/ast/declarations/ClassNode.cpp:96-116 | an instantiation has a type if and only if the class exists and the one region passed, by default the innermost, has a handle |
| Typing.TypesAreUnique | src/codegen/FunctionType.cpp:19-62 | an expression has at most one type |
| Typing.CheckIsExact | src/ast/statements/AssignStatementNode.cpp:18-22 | the checker accepts a statement, with these types for the names it declares, if and only if the rules do |
| Typing.ProgramIsExact | src/ast/declarations/FunctionNode.cpp:107-169 | a program is accepted if and only if the rules accept each of its functions |
| Sample.SampleIsAccepted | examples/05-regions.bp:1-40 | a program with calls with and without regions, an instance, `on`, `for`, `while`, `if`, literals, elements and fields passes every check that the theorems about programs ask for |
| RegionSafety.FnSound | src/ast/declarations/FunctionNode.cpp:114-163 | a function body run in any well-typed environment, under any assignment of live regions to its declared names, keeps the invariant and returns its declared type |
| RegionSafety.HandleFound | src/CodegenContext.cpp:224-229 | a handle the checker finds is found by the run and is the live region of that name |
| Lang.GetHandle | src/CodegenContext.cpp:113-118 | the result is the innermost enclosing region of that name, or the function's first region if it has that name, and exists if and only if some region has the name |
| RegionSafety.AssignSound | src/CodegenContext.cpp:173-180 | with the type comparison made before a store, an assignment keeps the invariant |
| RegionSafety.SameType | src/CodegenContext.cpp:175 | comparing without a renaming is equality of types, regions included |
| RegionSafety.CallEntry | src/codegen/FunctionType.cpp:19-52 | an accepted call enters its callee with well-typed parameters, declared regions bound to live regions, and a live hidden region argument |
| RegionSafety.CallExit | src/codegen/FunctionType.cpp:54-62 | the callee's result has, for the caller, the renamed return type |
| RegionSafety.CloseSafe | src/ast/statements/OnStatementNode.cpp:24-29 | deleting a live region succeeds and keeps memory well typed |
| RegionNames.ReusedNameDangles | src/ast/statements/OnStatementNode.cpp:16-30 | in every well-typed state in which a visible `var` holds arrays of a region of that name, the code's checks accept a statement that opens the name again, stores to the `var` and reads an element after it, and every run of it reads a deleted region |
| RegionNames.AcceptedProgramDangles | src/ast/statements/OnStatementNode.cpp:16-30 | the code's checks accept a whole program whose run reads a deleted region for this reason |
| RegionNames.NewNameIsExact | src/ast/statements/OnStatementNode.cpp:16-22 | opening a region under a name keeps every well-typed scope well typed if and only if no type in scope names it |
| Definite.SureNeverUninit | src/ast/statements/IfStatementNode.cpp:21-51 | in a program that passes the check no run of any function, through loops, calls and `on`, reads a variable whose declaration was not executed |
| Definite.ExecKnown | src/ast/statements/VarStatementNode.cpp:27-45 | every statement keeps the invariant: the marked names have values, and arrays hold no undefined value |
| Definite.OnlyValueFaults | src/main_jit.cpp:187-190 | an accepted program that passes the check can fault only on an index, a length, a division or the width of an integer |
| Lifetimes.StatementLifetimes | src/ast/statements/OnStatementNode.cpp:16-30 | a finished statement leaves the live regions as they were, and its opens and deletes replay as a balanced stack |
| Lifetimes.RunLifetimes | src/main_jit.cpp:187-190 | over a whole run every region opened is deleted exactly once, last opened first, and none is left |
| Lifetimes.ReplayConserves | src/ast/statements/OnStatementNode.cpp:16-30 | along any log, opened and initially open regions are as many as deleted and still open ones, region by region |
| ForRange.ForIsCounting | src/ast/statements/ForStatementNode.cpp:16-46 | a `for` over `range(a, b)` runs its body for exactly a, ..., b - 1 in order, none if a >= b, whatever the body does, and ends because the counter reaches b |
| ForRange.LoopIsCounting | src/stdlib.bp:1-21 | hasNext and next from any state of the iterator are that counting, and i + 1 never overflows |
| RangeIterator.RangeRefines | src/stdlib.bp:16-21 | running the library's `range` makes an object that stands at its first argument and ends at its second |
| RangeIterator.HasNextRefines | src/stdlib.bp:5-7 | running the library's `hasNext` gives what the iterator operation gives, and changes nothing |
| RangeIterator.NextRefines | src/stdlib.bp:9-13 | running the library's `next` gives the counter and moves it on as the iterator operation does, without wrap-around below the end |
| RangeIterator.IteratorLoopIsCounting | src/ast/statements/ForStatementNode.cpp:26-45 | a `while` that calls hasNext and next on an iterator object, what a `for` stands for, runs its body for exactly the numbers from where the iterator stands to its end, in order, if no round of the body moves the iterator |
| RangeIterator.CompiledNext | src/stdlib.bp:9-13 | the blocks emitted for `next` return the counter with the iterator moved on |
| RangeIterator.CompiledHasNext | src/stdlib.bp:5-7 | the blocks emitted for `hasNext` return the comparison with memory unchanged |
| RangeIterator.CompiledIteratorLoop | src/ast/statements/ForStatementNode.cpp:26-45 | the blocks emitted for that loop, which call the blocks of the two library functions, halt at its end with the memory and variables of the counting |
| Behaviour.StatementRuns | src/ast/statements/BlockStatementNode.cpp:13-16 | for every statement, calls included, every state and amount of fuel: if the interpreter finishes, the blocks run to the end of the code with its memory and variables; if it faults, other than on a variable without a value, they stop at something that cannot be executed for the same fault; if it runs out of fuel, they run for at least that many steps |
| Behaviour.LoweringPreserves | src/ast/statements/WhileStatementNode.cpp:16-42 | whenever the interpreter finishes a statement, calls and the functions behind them included, the emitted blocks run to the end of its code and halt there with the same memory and the same value in the home of every variable |
| Correctness.SimStmt | src/ast/statements/BlockStatementNode.cpp:13-16 | for every statement, state and amount of fuel: if the interpreter finishes, the blocks run to the end of the code with its memory and variables |
| Faults.FaultStmt | src/ast/statements/WhileStatementNode.cpp:16-42 | if the interpreter faults, other than on a variable without a value, the blocks run to an instruction or branch that cannot be executed for the same fault and stop in front of it; if it runs out of fuel, they run for at least that many steps |
| Faults.FaultExpr | src/ast/expressions/BinaryOperationExprNode.cpp:18-67 | the same for expressions, whose operands are evaluated in the code's order |
| Faults.FaultCall | src/ast/expressions/CallExprNode.cpp:13-22 | a call stops where an argument stops, at the call itself when no function fits it, or inside the function; and it goes on for at least the fuel when the function does not end |
| Behaviour.SameBehaviour | src/ast/statements/IfStatementNode.cpp:21-51 | if no variable without a value is read, the code reaches its end, stops for a fault or runs forever if and only if the statement terminates, faults for it or runs forever |
| Behaviour.CheckedBehaviour | src/ast/statements/WhileStatementNode.cpp:16-42 | the same three equivalences for every statement that passes the check of `Definite`, with no condition on runs |
| Behaviour.UninitGoesUnnoticed | src/CodegenContext.cpp:195-205 | where a variable without a value is read, the interpreter faults at every fuel and the code runs to its end |
| Functions.EntryReady | src/ast/declarations/FunctionNode.cpp:139-158 | at the entry of a function the region handle and the arguments are in registers, and the simulation of its body can start |
| Functions.FunctionRuns | src/ast/declarations/FunctionNode.cpp:107-169 | the code of a function, with its return and with the code of all functions it calls, returns the interpreter's result with its memory, stops where and why the interpreter faults, and runs for at least `fuel` steps without a result |
| Functions.AllRun | src/ast/expressions/CallExprNode.cpp:13-22 | by induction over source order, every function whose code and whose predecessors' code can be generated does what the interpreter says, for all arguments, memories and amounts of fuel |
| Behaviour.FunctionBehaviour | src/ast/declarations/FunctionNode.cpp:107-169 | a function, whatever it calls, and its code return the same results with the same memory, fault together for the same reason and run forever together |
| Behaviour.CheckedFunctionBehaviour | src/ast/declarations/FunctionNode.cpp:107-169 | the same for every function of a program that passes the check of `Definite`, whatever its arguments and memory |
| Compiled.AcceptedIsReady | src/codegen/FunctionType.cpp:19-26 | the code of every function of an accepted program can be generated: its names resolve and the regions it passes have handles |
| Compiled.ProgramBehaviour | src/main_jit.cpp:187-190 | for a program that is accepted and passes the check of `Definite`, each function and its code return the same results with the same memory, fault together for the same reason and run forever together, with no condition on code or runs |
| Compiled.CompiledProgramIsSafe | src/main_jit.cpp:187-190 | the code of such a program's `main` returns with its own region as the only one left, and stops short only at an index or length out of range, a failing division or a mix of integer widths: never at an access to a deleted region |
| Functions.FunctionIsFinished | src/ast/declarations/FunctionNode.cpp:136-165 | the blocks of a function are all appended exactly once, the entry first, and each ends in one terminator that jumps inside the function |
| Correctness.SimIf | src/ast/statements/IfStatementNode.cpp:21-51 | an `if` without else: the blocks take the arm the interpreter takes and meet in the continue block |
| Correctness.SimIfElse | src/ast/statements/IfStatementNode.cpp:29-48 | the same for both arms |
| Correctness.SimWhile | src/ast/statements/WhileStatementNode.cpp:16-42 | the three blocks run the loop's iterations one for one and end in the continue block with its memory and variables |
| Faults.FaultWhile | src/ast/statements/WhileStatementNode.cpp:16-42 | they stop in the iteration that faults, and without a result after n iterations they have run at least n steps |
| Correctness.SimFor | src/ast/statements/ForStatementNode.cpp:16-46 | the blocks test, advance and repeat as the interpreter's loop does, with the loop name in the register of next |
| Correctness.SimOn | src/ast/statements/OnStatementNode.cpp:16-30 | the block opens the region, runs with its handle as default region and deletes it |
| Correctness.SimAssign | src/ast/statements/AssignStatementNode.cpp:18-22 | target first, then value, then the store, which changes that place and no other |
| Simulation.SimExpr | src/ast/expressions/BinaryOperationExprNode.cpp:18-67 | an expression's code leaves its value in its operand and the interpreter's memory, and keeps all earlier registers and slots; `Arithmetic`, `Values` and `Control` say what that value is |
| Arithmetic.WrapIsTheWord | src/ast/expressions/BinaryOperationExprNode.cpp:31-42 | the wrapped number is the only 64-bit word that differs from the number by a multiple of 2^64 |
| Arithmetic.Sums | src/ast/expressions/BinaryOperationExprNode.cpp:31-36 | adding 1 gives the next word and after the greatest the least, addition is repeated adding of 1 and commutes, and subtraction undoes it |
| Arithmetic.Products | src/ast/expressions/BinaryOperationExprNode.cpp:37-39 | multiplication is repeated addition and, downwards, repeated subtraction |
| Arithmetic.Quotients | src/ast/expressions/BinaryOperationExprNode.cpp:40-42 | division fails if and only if the divisor is 0 or the quotient no word; else quotient times divisor and a remainder, smaller than the divisor and with the sign of the dividend, make the dividend |
| Arithmetic.Comparisons | src/ast/expressions/BinaryOperationExprNode.cpp:43-57 | less means that something positive is to be added; `>` is `<` turned round, `<=` is not `>`, `>=` is not `<`, and `==` is `<=` and `>=` |
| Arithmetic.Operands | src/ast/expressions/BinaryOperationExprNode.cpp:25-28 | an operator takes integers; a comparison result is of another width, anything else of the wrong kind, and only division fails on integers |
| Values.CellStored | src/codegen/ArrayType.cpp:23-35 | an element stored reads as the value stored, and every other element, length and field as before |
| Values.FieldStored | src/ast/declarations/ClassNode.cpp:214-258 | the same for fields |
| Values.ArrayAllocated | src/ast/expressions/ArrayExprNode.cpp:62-88 | a new array has the length and cells it was made of, reads outside fail, and what could be read before reads as before |
| Values.LengthGoverns | src/codegen/ArrayType.cpp:37-51 | an element can be read, and stored to, if and only if its index is at least 0 and less than the length, and the failure is that of the length or the index |
| Values.FieldGoverns | src/ast/declarations/ClassNode.cpp:214-258 | a field can be stored to if and only if it can be read, and fails for the same reason |
| Values.RegionStates | src/ast/statements/OnStatementNode.cpp:16-30 | a region can be allocated in from its opening to its deletion, which happens once; other regions are unaffected; an array of any length from 0 to below 2^63 can be allocated |
| Values.RegionClosed | src/rtlib/regions.c:33-39 | deletion takes away the region's objects and leaves all others as they are |
| Values.LiteralElement | src/ast/expressions/ArrayExprNode.cpp:62-88 | element i of a literal evaluates to the value of its i-th expression and its length to their number; other indices fail |
| Values.ListElement | src/ast/expressions/CallExprNode.cpp:15-18 | each element of a list is evaluated in the memory that the ones before left |
| Values.FilledElement | src/ast/expressions/ArrayExprNode.cpp:96-143 | each element of `[v; n]` evaluates to v and its length to n |
| Values.CompiledLiteralElement | src/codegen/ArrayType.cpp:23-35 | the blocks for element i of a literal leave the value of its i-th expression in their operand |
| Values.NewField | src/ast/declarations/ClassNode.cpp:75-88 | a field of a new instance has the initial value that its class declares |
| Values.AssignedElement | src/ast/statements/AssignStatementNode.cpp:18-22 | after an assignment to an element, the element reads as the value assigned |
| Values.AssignedField | src/ast/statements/AssignStatementNode.cpp:18-22 | the same for a field |
| Values.AssignedName | src/CodegenContext.cpp:173-180 | after an assignment to a name, it has the value assigned and no other name has changed |
| Values.DeclaredName | src/ast/statements/VarStatementNode.cpp:27-45 | after a declaration, its name has the value of its expression, unless a `var` of the same scope hides a `let` |
| Values.ParameterValue | src/ast/declarations/FunctionNode.cpp:139-158 | in a function's body each parameter has the value of its argument |
| Control.IfRunsOneArm | src/ast/statements/IfStatementNode.cpp:21-51 | an `if` does what the arm its condition chooses does, and the names that the other arm declares have no value |
| Control.WhileIsRounds | src/ast/statements/WhileStatementNode.cpp:16-42 | a `while` finishes if and only if for some number of rounds its condition holds and then does not, and leaves what the last round and the last evaluation of the condition left |
| Control.LeftToRight | src/ast/expressions/BinaryOperationExprNode.cpp:19-20 | operands, elements and arguments are evaluated from the left, and an operand without a value decides what the whole expression does |
| Control.TargetFirst | src/ast/statements/AssignStatementNode.cpp:18-22 | an assignment evaluates its target, then its value in the memory that leaves, and stores last |
| Control.CallRuns | src/ast/expressions/CallExprNode.cpp:13-22 | a call runs the body of the latest function of that name before it on the argument values, in the innermost region of the name passed, by default the innermost of all, and has its result |
| Control.DoIsLet | src/parser.yy:177-179 | an expression as a statement does what a `let` of it does, and adds no name |
| Simulation.SimCall | src/codegen/FunctionType.cpp:19-62 | a call evaluates its arguments in order, runs the function's code on the handle and the arguments, and leaves the result in the call's register, with no other register or slot of the caller changed |
| Simulation.CallPasses | src/codegen/FunctionType.cpp:21-30 | a call passes the function, the region and the arguments that the interpreter uses, and nothing when the interpreter finds no function that fits |
| FillLoop.FillRuns | src/ast/expressions/ArrayExprNode.cpp:96-143 | the loop of `[v; n]` ends for every n >= 0 with an array of length n holding v everywhere and nothing else changed |
| FillLoop.LitRuns | src/ast/expressions/ArrayExprNode.cpp:62-88 | a literal's stores leave an array of its elements in evaluation order |
| Homes.StmtHomes | src/ast/declarations/FunctionNode.cpp:70-75 | each declared `var` gets a slot of its own, new with the statement, and the operand of every other declared name is a constant or a register already handed out |
| Homes.ExprOperand | src/ast/expressions/BinaryOperationExprNode.cpp:18-67 | the operand of an expression is a constant or a register already handed out |
| WellFormed.StmtComplete | src/ast/statements/IfStatementNode.cpp:25-50 | for every nested statement: each block created joins the function exactly once, ends in one terminator whose targets were created for the construct, earlier blocks are untouched, and only the insertion block is open |
| WellFormed.ExprComplete | src/ast/expressions/ArrayExprNode.cpp:108-140 | the same for expressions, which contain the fill loop |
| Violations.DominatedIffDefined | src/ast/declarations/FunctionNode.cpp:139-158 | for every function, every path through its code writes each register and slot before reading it, the returned operand included, if and only if the source passes the check of `Reading` |
| Violations.StmtTold | src/ast/statements/IfStatementNode.cpp:21-51 | if no path through a statement's code reads something unwritten, the statement passes the check, and each name left unmarked has a path that does not write it |
| Crossing.StmtCrosses | src/ast/statements/WhileStatementNode.cpp:16-42 | whatever can be avoided before a statement can be avoided to its end, unless some path in it reads something unwritten |
| Dominance.FunctionIsDominated | src/ast/declarations/FunctionNode.cpp:139-158 | for a function that passes the check, every path from the entry writes before it reads, and no register is defined twice |
| Reading.SureFnIsDefined | src/ast/statements/IfStatementNode.cpp:21-51 | a function that never reads a variable without a value passes the check of `Reading` |
| Dominance.DefinedBeforeUse | src/ast/statements/ForStatementNode.cpp:19-45 | the same for the code of a statement appended to any graph that has the property |
| Dominance.StmtDominates | src/ast/statements/WhileStatementNode.cpp:20-41 | every statement's code keeps the promises made to blocks already jumped to, back edges included |
| Dominance.ArmNameIsUndefined | src/ast/statements/IfStatementNode.cpp:38-50 | a name declared in an arm and read after the `if` is read undefined on the path around the arm |
| Builder.FunctionBuilder.CodegenStmt | src/ast/statements/BlockStatementNode.cpp:13-16 | emitting a statement through the mutable builder turns the graph into exactly the lowered graph |
| Builder.FunctionBuilder.CodegenExpr | src/ast/expressions/BinaryOperationExprNode.cpp:18-67 | the same for expressions, with the operand that holds the value |
| Builder.FunctionBuilder.CodegenList | src/ast/expressions/CallExprNode.cpp:15-18 | the loop over the arguments of a call, or the elements of a literal, emits their code in order and keeps their operands |
| Builder.FunctionBuilder.CodegenLiteral | src/ast/expressions/ArrayExprNode.cpp:62-88 | the two loops over a literal's elements emit its lowered code |
| Builder.FunctionBuilder.CodegenFill | src/ast/expressions/ArrayExprNode.cpp:96-143 | the blocks of `[v; n]` are emitted in the code's order |
| Builder.FunctionBuilder.CodegenTarget | src/ast/statements/AssignStatementNode.cpp:19 | an assignment target is emitted like an expression and its address kept |
| Builder.FunctionBuilder.CodegenIf | src/ast/statements/IfStatementNode.cpp:21-51 | the two or three blocks of an `if` |
| Builder.FunctionBuilder.CodegenWhile | src/ast/statements/WhileStatementNode.cpp:16-42 | the three blocks of a `while` |
| Builder.FunctionBuilder.CodegenFor | src/ast/statements/ForStatementNode.cpp:16-46 | the three blocks of a `for` |
| Builder.FunctionBuilder.CodegenOn | src/ast/statements/OnStatementNode.cpp:16-30 | the region calls around the body of `on` |
| Builder.FunctionBuilder.CodegenFunction | src/ast/declarations/FunctionNode.cpp:107-169 | a new builder given a function ends with exactly its lowered graph, entry block to return |
| Builder.FunctionBuilder.CreateAlloca | src/ast/declarations/FunctionNode.cpp:70-75 | a new slot in the entry block and a store at the insertion point |
| Scopes.Context.GetValue | src/CodegenContext.cpp:195-205 | a lookup up the chain of contexts is the lookup in the flat list of declarations: innermost scope first, `var` before `let` in one scope |
| Scopes.Context.GetRegionHandle | src/CodegenContext.cpp:224-230 | the innermost enclosing region of that name, or the function's first region, or nothing |
| Scopes.Context.AddVariable | src/CodegenContext.cpp:190-193 | adds one variable to this context and changes no other |
| Scopes.Context.AddValue | src/CodegenContext.cpp:32-36 | adds one value to this context and changes no other |
| Scopes.InnermostScope | src/CodegenContext.cpp:195-205 | in the flat list, a name's meaning is its last `var` in the innermost scope, else its last `let` there, else its meaning outside |
| Scopes.Generate | src/ast/statements/BlockStatementNode.cpp:13-16 | generating any statement adds to its context exactly the names the statement declares, each with a value of its own, handed out in order |
| Scopes.GenerateWhile | src/ast/statements/WhileStatementNode.cpp:34-37 | a loop body leaves every lookup in the enclosing context unchanged |
| Scopes.GenerateFor | src/ast/statements/ForStatementNode.cpp:35-41 | a `for` adds its own name to the enclosing context and nothing else |
| Scopes.GenerateOn | src/ast/statements/OnStatementNode.cpp:18-22 | an `on` body leaves every lookup in the enclosing context unchanged |
| Knapsack.OptIsBest | examples/knapsack-regions.bp:7-18 | the table entry is the maximum gain over all choices of the first k items of weight at most w |
| Knapsack.SolveSwapping | examples/knapsack-regions.bp:1-20 | for nonnegative weights the result, a new row, holds the maximum for every capacity from 0 to maxWeight |
| Knapsack.SolveFresh | examples/KnapsackTest.java:3-20 | the same with a fresh row per item |
| Knapsack.SolveKeeping | examples/KnapsackTest2.java:3-22 | for nonnegative weights row k is the optimum table for the first k + 1 items, and all rows are distinct new arrays |
| Knapsack.NoOverflow | examples/knapsack-regions.bp:11-12 | when the positive values sum to a 64-bit word, no sum the programs form wraps around |
| Knapsack.RowIsBest | examples/knapsack-regions.bp:7-18 | a row is the table's if and only if each of its entries is the maximum for its capacity |
| Knapsack.RowsAgree | examples/KnapsackTest2.java:21-22 | a row of the table and any row of maxima for as many items have the same contents, so for one or more items the last kept row equals the rolling rows |
| Parsing.ParserIsTheGrammar | src/parser.yy:203-285 | a deterministic left-associating parser accepts a token list with a tree if and only if the productions derive that tree from it |
| Parsing.GrammarIsUnambiguous | src/parser.yy:203-285 | no token list has two trees |
| Parsing.Precedence | src/parser.yy:206-242 | of two operators the tighter binds first, and of two as tight the left one |
| Parsing.SoundParse | src/parser.yy:203-285 | whatever the parser reads at a level is derived at that level |
| Parsing.CompleteParse | src/parser.yy:224-269 | having read the tokens of a derivation, the parser holds its tree and goes on from there |
| Lexer.MakeStr | src/lexer.re:12-25 | the buffer holds exactly the left-to-right replacement of backslash-n pairs, never longer than the input, and a final zero |
| Lexer.UnescapeInverts | src/lexer.re:12-25 | text whose newlines are written as backslash-n is read back if and only if it has no backslash followed by n |
| Lexer.ReadNumber | src/lexer.re:49-60 | the decimal and octal loops compute the literal's value, with no overflow on the way when the value fits an int |
| Lexer.DecimalRoundTrip | src/lexer.re:49-54 | reading inverts decimal printing |
| Lexer.StringLiteralIsLongestMatch | src/lexer.re:117-124 | a string literal is matched if and only if it can end somewhere, and then to the last place it can end |
| Lexer.MatchIsLongest | src/lexer.re:35-126 | at every position the chosen rule matches in its language, no rule has a longer match, and of the rules with a match as long it is the first in the file |
| Lexer.NextToken | src/lexer.re:27-128 | the skipping loop and the actions yield the token of the rule that `Match` chooses after white space and comments, and the place after it; the rows of `RoundTrip` say which token each text is |
| Lexer.OctalRoundTrip | src/lexer.re:55-60 | reading in base 8 inverts octal printing |
| RoundTrip.WriteThenRead | src/parser.yy:203-285 | any expression (the nine operators, child and element access, calls with any regions and arguments, array literals and initialisers, integers, strings and names), written in full, lexes and parses to itself |
| RoundTrip.OperatorIsRead | src/parser.yy:206-242 | for each of the nine operators, an expression written on each side of its spelling reads as that operator on the two |
| RoundTrip.LexWritten | src/lexer.re:27-128 | a written expression, followed by anything that does not extend its last word, lexes to its tokens and goes on after it |
| RoundTrip.WriteIsInjective | src/parser.yy:203-285 | expressions that are written alike are equal |
| RoundTrip.LexRegion | src/lexer.re:83-90 | an @ and a name lex to that name, without the @ |
| RoundTrip.LexOctal | src/lexer.re:55-60 | a zero and the octal digits of n lex to n |
| RoundTrip.LexUnvalued | src/lexer.re:48-61 | a binary or hexadecimal literal is one number token whose value is that of the number before it |
| RoundTrip.LexKeyword | src/lexer.re:63-72 | each of the ten reserved words is the keyword of that text |
| RoundTrip.Alphabet | src/lexer.re:74-83 | names consist of ASCII letters, digits and underscores, and start with a letter |
| RoundTrip.Digits | src/lexer.re:39-42 | the digits of octal, binary and hexadecimal literals are exactly these characters |
| RoundTrip.LexText | src/lexer.re:117-124 | a text in which each quote is escaped, put in quotes with its newlines escaped, lexes to that text |
| RoundTrip.LexSkips | src/lexer.re:45-46 | white space and comments in front change no token |
| RoundTrip.PrintThenRead | src/ast/expressions/BinaryOperationExprNode.cpp:14-16 | lexing and parsing the printed form of an expression of nonnegative 31-bit integers, names, plain strings, + - * / and child access gives back the same tree |
| RoundTrip.PrintIsInjective | src/ast/expressions/BinaryOperationExprNode.cpp:14-16 | two such expressions that print alike are equal |
| RegionTable.Region.constructor | src/rtlib/regions.c:15-21 | a new region has an empty table of capacity 64 |
| RegionTable.Region.RegionAlloc | src/rtlib/regions.c:22-31 | appends one new block to the table, in place or in a table four times as large, and keeps the others in order |
| RegionTable.Region.DeleteRegion | src/rtlib/regions.c:33-39 | frees each block once, oldest first, then the table and the region; no live block is freed twice |
| RegionTable.RegionLifetime | src/main_jit.cpp:187-190 | a region of any number of blocks leaves the heap as it found it and frees each of its blocks exactly once |
| RegionTable.AmortisedGrowth | src/rtlib/regions.c:23-27 | after n allocations three times the entries moved are at most 4n, and the capacity is 64 or at most 4n |
| RegionTable.CapacityIsLeastPower | src/rtlib/regions.c:23-24 | the capacity is the least 64 * 4^k that holds n entries |
| ClassLayout.CodegenClass | src/ast/declarations/ClassNode.cpp:61-73 | the super struct is part 0 and fields number the other parts; a field declared twice denotes its last declaration |
| ClassLayout.GetChild | src/ast/declarations/ClassNode.cpp:214-258 | the member of the nearest class that declares the name: its field, at its place in the object, or, if it has no such field, its function with the class's part of the object as receiver; nothing if and only if no class declares the name |
| ClassLayout.FieldsAreDisjoint | src/ast/declarations/ClassNode.cpp:214-258 | distinct fields along any inheritance chain lie inside the object and do not overlap |
| ClassLayout.InheritedReceiver | src/ast/declarations/ClassNode.cpp:250-256 | the receiver an inherited function gets is its own class's part of the object, so both see the same slot for a field |

## Left out

- Behaviour.FunctionBehaviour: `CodeReady` asks that names resolve and regions have handles in the function and in those
  before it; on other programs the compiler stops. A called name is looked up among the functions when the call runs, not
  resolved to an address. Code of accepted programs meets `CodeReady` (`Compiled.AcceptedIsReady`).
- Behaviour.SameBehaviour: a fault of the code is a position where no step is possible, and its reason is what the
  instruction there finds (`Ir.Why`); what a processor does there, the emitted code checking nothing, is not modelled. A program that does not pass the check of `Definite` may still agree.
- Correctness.SimFor: hasNext and next are single instructions with the interpreter's effect on a pair of words. The library
  functions have this effect on their object, and a loop written with calls of them counts, run and compiled
  (`RangeIterator.IteratorLoopIsCounting`, `RangeIterator.CompiledIteratorLoop`); the code emitted for `for` itself does not
  contain these calls.
- RangeIterator.CompiledNext and CompiledHasNext: the functions before them have code, as elsewhere.
- Correctness.SimAssign: the type comparison before the store is made while code is generated; it is in
  `Checker.CheckStmt`, and `RegionSafety.AssignSound` uses it.
- RegionSafety.RegionSafety: excludes access to deleted regions and operations on the wrong kind of value; bounds,
  arithmetic and width faults are outside the region discipline.
- RegionNames.NewNameIsExact: exact for the invariant on scopes; a program may reuse a name without ever reading through it.
- RegionNames.ReusedNameDangles: speaks of `var`s that hold arrays of integers, not of other types that name the region.
- RegionTypes.DoCall: the code compares only as many arguments as both lists have and stops on an unmapped return region
  by undefined behaviour; the model returns an error value there.
- Checker requires equal numbers of arguments and parameters; varargs and native functions (`printf`) are not modelled.
- The checker is a function over an immutable context, not methods over the mutable contexts; `Scopes` shows separately
  that the mutable chain of contexts has the same lookups.
- Range iterators live in an arena of the memory model instead of in a region, and `for` is modelled over `range` only.
- An array is one object; the separate allocations of its header and data are not distinguished.
- Class methods in the core language, inherited field initialisation and class fields of reference types; `ClassLayout`
  models layout and lookup only, without alignment padding.
- A `var` without an initialiser, which gets its type's default; with one, the code does not look at a declared type.
- `return` before the end of a function body, `on` over other expressions than `NewRegion()`, and strings as values.
- LLVM's constant folding, types and pass manager, and the loading of the standard library.
- The table driver of the parser generator and the automaton of the lexer generator; statement and declaration grammar.
- The code's printing of calls, arrays and comparisons, which drops or misprints parts; `RoundTrip.Write` spells them in full.
- Texts with a zero character inside a string literal or after an unterminated comment, and failing allocations.
- Lexer.ReadNumber: a literal whose value does not fit an int overflows in C and is excluded by precondition.
