# What shen-rust's hard parts promise, proved

A Dafny model of five components of a Shen runtime written in Rust, with proofs of what each of
them is for. `dafny verify dfyconfig.toml` checks all of it.

**The KL → Rust compiler** (`crates/klcompile`). `Kl.dfy` is the syntax tree; `KlEval.dfy` is the
tree-walking evaluator of `interp/eval.rs`; `RustIr.dfy` and `RustRun.dfy` are the fragment of
Rust that the compiler emits, as a tree with lexically scoped locals, blocks, `?`, closures, local
procedures and the `loop` of a function; `Machine.dfy` holds what both share (values, globals,
absvectors, primitives). `Codegen.dfy` says what each `compile_*` emits, and `Compiler.dfy` is the
generator and its driver as objects whose methods are proved to do so (`Driver.dfy` is the driver's
specification). `Related.dfy` defines when a value, an environment or a state of one side stands for
one of the other; `PrimitiveLaws.dfy` says what the primitives answer; the simulation is proved form by form (`CodegenState`, `Simulation`, `Frames`,
`SimSteps`, `TrapSteps`, `TailSteps`, `SimExpr`; `SelfCalls` on the loop of a function), and `Correctness.dfy` draws the conclusions for
programs and for compiled files (`Linking.dfy`, `Selection.dfy`); `Example.dfy` takes one definition all
the way. `Closures.dfy` is what compiled closures capture,
`Acceptance.dfy` and `Forms.dfy` which forms are compiled at all and how forms are recognised, `Sanitize.dfy` the spelling of names.

Two conventions of that part need saying. *Fuel* is spent only on entering a closure, a defun or a
round of a loop, and both sides spend it alike, so agreement at every fuel covers runs that do not
end; `Fuel.dfy` and `RustFuel.dfy` show that it only decides whether a run ends. *Drift* is a mark
that the evaluator sets on the state, and never acts on (`Passive.dfy`), at a step where compiled
code does something else or where the model has no answer:

- the second operand of an `and` or `or` in expression position that is no boolean;
- an undefined callee whose arguments are calls;
- a compiled defun called with the wrong number of arguments;
- a native that overrides a kernel function, and is therefore called without a check, with too few
  arguments, or with too many if it returns;
- a trapped `value` of something that is no symbol;
- `=` that needs the identity of two closures, the contents of two different absvectors, or the text
  of an error that the runtime itself raised; and that text asked for outright;
- `symbol?` of a boolean; `value`, `set` and `value/or` of the symbols `true` and `false`;
- a `defun` below the top level.

`Divergences.dfy` shows that the first five really part, and exactly when, each with an input; for
`=` it shows when there is an answer. A trace holds every write to a global or an absvector, every
new absvector and every entry of a defun with its arguments, rounds of a compiled loop included;
`Traces.dfy` and `RustTraces.dfy` show that either engine changes its state by those events alone.

What the compiler needs of its input is `CodegenState.Wf` for expressions, `Simulation.WfDef` for
definitions and `Linking.WfFile` for files, all of them decided on the source. The compiler has one
flat set of the names in scope, from which the end of a `let` removes its name whoever bound it.
`Flow` threads that set in the order of compilation, and `Wf` asks that it agrees with the lexical
scope wherever a name is read or called; besides, that a rewritten trap names the primitive and no
local, that no `cond` clause has the shape `(thaw G)` for an inlined `G`, and that the symbols `true`
and `false` are written as booleans, as the parser does. `WfDef` asks for distinct parameters, and
that whatever the compiler takes for a call of the function itself in tail position is one, with no
`let` around it that hides a parameter: parameters are the only locals that the emitted Rust declares
`mut`, so that rustc refuses the assignment otherwise. Rust that does not compile is an error of its
own at the run that reaches it. Where such a point is reached, the other half is proved as well, with
an input for each: for a name, a head, a trap whose operator is bound to no closure and a clause taken
for a thaw in `Misread.dfy`, for a hidden parameter and a special form taken for a call in
`SelfCalls.dfy`. `WfFile` asks that every
form is left out, or compiled right, or rejected outside of every inlined continuation:
`Leftovers.dfy` shows that a definition leaves an entry for the next one exactly when it is rejected
inside one, and what comes of it. The verdict counts a call that has the Prolog lowering, which is not
modelled, as rejected. Names of special forms are never looked up as locals by either side.

**The mark-sweep collectors** (`Words`, `Graph`, `Collector`, `ConservativeRoots`, `Mutator`,
`Benches`, `Running`). Both bench heaps are classes; a node is known by its address, and words carry
their tags. The mutator theorem is stated once, for any heap whose collections free only what the roots
do not reach, and both `Alloc` methods are proved to be such a heap's; `Running` executes any program
on the heap object.

**The property store** (`ShenValue`, `PropertyStore`), **code as data** (`CodeData`), **the symbol
interner** (`Interner`) and **the authorisation analysis** (`Roles`, `Scopes`). The hash function,
the rounding of integers to doubles, the text of a literal at an address and the addresses that
the allocator hands out are arbitrary.

Where code and comments disagree the code is followed: `only_thawed` takes a `cond` clause `(thaw
G)` for a thaw, although it is data there; a compiled defun insists on its exact number of
arguments, although the evaluator makes partial applications of it; and `value/or` raises for an
operand that is no symbol, although the rewrite to it is described as unconditional. The core
primitives are modelled with the overrides of kernel functions that stand after boot, except
`symbol?`, whose override looks at the text of the symbol.

## Model

| member | source | states |
|---|---|---|
| `Correctness.EndsAlike` | crates/klcompile/src/lib.rs:403-499 | any call of any defun or primitive on any first-order arguments and globals, if its evaluation never drifts, ends in compiled code exactly if it ends in the evaluator |
| `Correctness.SameAnswer` | crates/klcompile/src/lib.rs:403-499 | and then both give the same value or error, with the same writes, new absvectors and calls of defuns in the same order, and the same globals and absvectors at the end, whatever fuel either took |
| `Correctness.CompilerCorrect` | crates/klcompile/src/lib.rs:163-235 | the same at every amount of fuel, so running on, returning and raising are told apart step by step, for any well-formed file as the driver compiles it; nothing is assumed of the compiled side |
| `Correctness.CompileFile` | crates/klcompile/src/lib.rs:163-235 | the driver object, run on a well-formed file, returns the functions that the other theorems speak of |
| `Correctness.CallsAgree` | crates/shen-rust/src/aot/runtime.rs:47-92 | the same for any program that was linked from compiled defuns; a round of a compiled loop counts as the call that it replaces |
| `Correctness.LoopIsRecursion` | crates/klcompile/src/lib.rs:545-557 | the emitted `loop` of a self-recursive defun returns what the recursion returns, for all arguments and any number of rounds |
| `Example.SumCompiled` | crates/klcompile/src/lib.rs:545-557 | `(defun sum (N A) (if (= N 0) A (sum (- N 1) (+ A N))))`, compiled by the driver from its file, returns the sum of `A` and 1 .. `N` for all of them that stay fixnums, in a loop; nothing is left to assume |
| `SimExpr.SimE` | crates/klcompile/src/lib.rs:656-789 | compiled expressions, run in locals that fit the environment, give a related result, the same writes and calls and the same fuel use, whatever the form; proved jointly with every lemma of its module |
| `SimExpr.SimTail` | crates/klcompile/src/lib.rs:506-543 | the same for statements in tail position, up to the end of the round and on through the loop |
| `SimExpr.SimFn` | crates/klcompile/src/lib.rs:436-484 | a compiled function does what its defun does when its parameters hold related arguments |
| `SimExpr.SimRound` | crates/klcompile/src/lib.rs:545-557 | a self-call: assigning parameters one after the other from the arguments' temporaries is simultaneous, and the next round is the recursive call |
| `SimExpr.SimLetProc` | crates/klcompile/src/lib.rs:1234-1273 | `(let G (freeze E) B)` with `G` only thawed: the local procedure gives what the heap closure gives |
| `SimExpr.SimTailProc` | crates/klcompile/src/lib.rs:1234-1273 | the same in tail position |
| `SimExpr.SimGo` | crates/klcompile/src/lib.rs:1012-1024 | `(thaw G)` of an inlined continuation is a call of its procedure in the locals it was made in |
| `SimExpr.SimThawed` | crates/klcompile/src/lib.rs:1012-1024 | any other thaw applies the value |
| `SimExpr.SimAccess` | crates/klcompile/src/lib.rs:1096-1161 | a rewritten `trap-error` does what the trap does |
| `SimExpr.SimTry` | crates/klcompile/src/lib.rs:1074-1089 | the general trap: the same handler call on a related error object; errors of the runtime are one object here |
| `SimExpr.SimCompare` | crates/klcompile/src/lib.rs:1277-1336 | `=` against a nil, string, symbol or `(fail)` literal is the emitted test, with the literal on either side |
| `SimSteps.SimReadGlobal` | crates/klcompile/src/lib.rs:1050-1057 | `(value X)` of a free name is a direct load |
| `SimExpr.SimWriteGlobal` | crates/klcompile/src/lib.rs:1058-1068 | `(set X V)` of a free name is a direct store after `V` |
| `SimExpr.SimCond` | crates/klcompile/src/lib.rs:844-862 | clauses compiled last to first are tried first to last |
| `SimExpr.SimTailCond` | crates/klcompile/src/lib.rs:593-608 | the same in tail position |
| `SimExpr.SimDo` | crates/klcompile/src/lib.rs:864-879 | all but the last value are dropped, in order |
| `SimExpr.SimLetPlain` | crates/klcompile/src/lib.rs:823-842 | any other `let`, also one that rebinds a name |
| `SimExpr.SimAnd` | crates/klcompile/src/lib.rs:881-892 | `and` in expression position, where the second operand must be a boolean |
| `SimExpr.SimTailAnd` | crates/klcompile/src/lib.rs:628-638 | `and` in tail position, where it is answered raw |
| `SimExpr.SimArgs` | crates/klcompile/src/lib.rs:794-808 | arguments are evaluated left to right into fresh temporaries; no later one disturbs an earlier temporary or any user local |
| `SimExpr.SimApplied` | crates/shen-rust/src/interp/eval.rs:1094-1139 | applying related closures: partial application below the arity, the rest of the arguments to the result above it |
| `SimExpr.SimNamed` | crates/shen-rust/src/aot/runtime.rs:31-92 | calling a primitive or a defun by name, on its direct entry: natives with no check of their arity, defuns with one |
| `SimExpr.SimThrough` | crates/shen-rust/src/aot/runtime.rs:63-92 | the same through the closure of the name, with partial application and surplus arguments |
| `SimExpr.SimDirect` | crates/shen-rust/src/primitives.rs:36-39 | a native that overrides a kernel function, given any number of arguments |
| `SimSteps.SimClosure` | crates/klcompile/src/lib.rs:907-964 | a `lambda` or a `freeze` makes a related closure |
| `SimSteps.CapturesSuffice` | crates/klcompile/src/lib.rs:966-1010 | the captured names stand for the whole environment as far as the body can tell |
| `Closures.CaptureOrder` | crates/klcompile/src/lib.rs:915-924 | the capture list is the only increasing list of the captured names, however the hash set is walked |
| `Closures.CapturedIff` | crates/klcompile/src/lib.rs:907-1010 | a closure captures exactly the names in scope that its body mentions, in increasing order |
| `Closures.BodyReads` | crates/klcompile/src/lib.rs:907-964 | the free locals of the code of a closure body are the captured names and the parameter, so a `move` closure captures nothing else |
| `Closures.ReadsE` | crates/klcompile/src/lib.rs:656-789 | compiled code reads the locals of names that its source mentions and that are in scope, the procedures of inlined continuations, and nothing else that it does not bind |
| `Closures.ShadowCovers` | crates/klcompile/src/lib.rs:1394-1400 | the shadow list that the generator emits holds the value of each captured local, in order, and nothing else |
| `Closures.EdgesCover` | crates/shen-rust/src/value.rs:394-423 | whatever local the code of a compiled closure reads but its parameter, its value is among the collector edges of the closure |
| `TrapSteps.AccessOrElse` | crates/shen-rust/src/primitives.rs:264-288 | on all argument values: where an access fails, and only there, its `/or` form calls the thunk, and elsewhere both give the same value; `value/or` does so for symbols only |
| `TrapSteps.TrapIsOrElse` | crates/klcompile/src/lib.rs:1096-1161 | a trapped access that does not drift is the access with its handler's body as the fallback |
| `TrapSteps.TrapKeeps` | crates/klcompile/src/lib.rs:1096-1161 | unless its operand is the wrong one for `value`, such a trap answers the access or else the fallback, and drifts only where the fallback does |
| `CodegenState.SteadyE` | crates/klcompile/src/lib.rs:1361-1383 | compiling an expression that only thaws the inlined continuations leaves those as they were, moves the counter up, and moves the flat scope exactly as the source says beforehand |
| `CodegenState.SteadyTail` | crates/klcompile/src/lib.rs:1361-1383 | the same in tail position |
| `CodegenState.FlowShrinks` | crates/klcompile/src/lib.rs:1374-1379 | the flat scope only ever loses names: the end of a `let` forgets one whoever bound it |
| `CodegenState.PartThawed` | crates/klcompile/src/lib.rs:1449-1474 | a name that is only thawed in a form is only thawed in its parts, and absent from closures |
| `CodegenState.EscapingIsAbsent` | crates/klcompile/src/lib.rs:1449-1482 | inside a closure `only_thawed` is the same as not being used at all |
| `Linking.CompileLinks` | crates/klcompile/src/lib.rs:163-235 | every well-formed file compiles to functions of its accepted definitions, whatever it skips or rejects on the way, with one running counter and one table of continuations |
| `Linking.CompiledInOrder` | crates/klcompile/src/lib.rs:206-229 | the functions are those of the accepted definitions, in the order of the file |
| `Linking.LastWins` | crates/klcompile/src/lib.rs:167-176 | of several definitions of a name only the last is compiled |
| `Selection.CompiledIff` | crates/klcompile/src/lib.rs:163-235 | in a well-formed file a name is compiled, with these parameters, if and only if its last definition has them as its list of symbols, is not on the skip list, is an expression throughout, and has at most as many nodes as the budget |
| `Selection.SizeCounts` | crates/klcompile/src/lib.rs:237-250 | the size that the budget is held against is the number of paths to nodes in the body |
| `Selection.MoreIsCompiled` | crates/klcompile/src/lib.rs:206-219 | a larger budget and a shorter skip list only add functions |
| `Selection.ParamsIff` | crates/klcompile/src/lib.rs:421-434 | the parameters of a definition are the symbols of its list, in order, and a list of anything else is rejected |
| `Acceptance.JudgeE` | crates/klcompile/src/lib.rs:656-789 | an expression is compiled if and only if the verdict on its source says so (a call with the Prolog lowering counts as rejected); otherwise the table of continuations is what it was and those around the form that is rejected first |
| `Acceptance.JudgeTail` | crates/klcompile/src/lib.rs:506-543 | the same in tail position |
| `Forms.CompilesIff` | crates/klcompile/src/lib.rs:656-789 | away from the four names with a Prolog lowering, an expression is accepted if and only if every special form in it fits its shape and every clause is a pair |
| `Forms.PrologCounts` | crates/klcompile/src/lib.rs:1166-1230 | the four lowerings take 5, 4, 4 and 6 arguments, the last a freeze; no other name has one |
| `Forms.ViewWritten` | crates/shen-rust/src/interp/eval.rs:848-937 | each form, written out, is recognised as itself |
| `Forms.WriteViewed` | crates/shen-rust/src/interp/eval.rs:848-937 | and nothing else is |
| `Forms.TypesVanish` | crates/klcompile/src/lib.rs:525-530 | `(type E T)` is `E` to the evaluator and to the compiler, in tail position too |
| `Forms.TestsOfLiterals` | crates/klcompile/src/lib.rs:1277-1336 | `=` against each literal that has a test becomes that test of the other operand, on either side; against a number it stays a call |
| `Forms.GlobalsByName` | crates/klcompile/src/lib.rs:1050-1068 | `(value X)` and `(set X V)` of a free name become a load and a store |
| `Forms.TrapsRewritten` | crates/klcompile/src/lib.rs:1096-1161 | the trap around each of the three accesses becomes a call of its own `/or` primitive |
| `Leftovers.LeavesEntry` | crates/klcompile/src/lib.rs:1253-1269 | a definition leaves an entry in the table for the next one exactly when it is rejected inside the body of an inlined continuation; which entries |
| `Leftovers.StaleContinuation` | crates/klcompile/src/lib.rs:206-229 | the file `(defun g () (let X (freeze 1) (if)))`, `(defun f (X) (thaw X))` compiles to one function, which calls a procedure that is not there, whatever it is given |
| `Leftovers.VerdictOfG` | crates/klcompile/src/lib.rs:1253-1269 | the verdict on the first of them says that it leaves `X`, so the file is not well-formed |
| `Frames.AssignEach` | crates/klcompile/src/lib.rs:551-556 | assignments in sequence from temporaries leave each parameter with its own new value |
| `Fuel.MoreNamed` | crates/shen-rust/src/interp/eval.rs:971-1053 | an evaluation that ends is not changed by more fuel |
| `RustFuel.MoreCode` | crates/shen-rust/src/aot/runtime.rs:47-92 | nor is a run of compiled code |
| `Traces.CallAccounts` | crates/shen-rust/src/interp/eval.rs:808-847 | over any call, the globals and absvectors at the end are those at the start changed by the events of the trace, in order, and by nothing else |
| `RustTraces.CodeAccounts` | crates/shen-rust/src/aot/runtime.rs:47-92 | the same of compiled code |
| `Traces.EnteredFirst` | crates/shen-rust/src/interp/eval.rs:971-1053 | a defun that is entered is recorded with its arguments before anything else happens |
| `Passive.SameE` | crates/shen-rust/src/interp/eval.rs:808-847 | neither the drift mark nor the tail flag changes what the evaluator answers, writes or calls, nor its fuel |
| `Correctness.ReturnsOnce` | crates/shen-rust/src/interp/eval.rs:808-847 | an evaluation ends in one way only |
| `Divergences.SecondOperandExact` | crates/klcompile/src/lib.rs:881-905 | a compiled `and` or `or` that reaches its second operand answers as the evaluator exactly when that operand is a boolean, and raises otherwise; that is exactly when it drifts |
| `Divergences.NoBooleanParts` | crates/klcompile/src/lib.rs:881-905 | `(and true 5)` and `(or false 5)` evaluate to 5, and their code raises |
| `Divergences.UnderSaturated` | crates/klcompile/src/lib.rs:458-466 | a call of a compiled defun with at most its arguments agrees exactly when it has all of them; with fewer it raises where the evaluator makes a partial application |
| `Divergences.OneOfTwo` | crates/klcompile/src/lib.rs:458-466 | one argument for two parameters: a partial application, and an error |
| `Divergences.OverSaturated` | crates/klcompile/src/lib.rs:458-466 | with more it raises before doing anything: the outcomes agree exactly when the evaluator's run ends in a runtime error, never when it returns; the writes agree exactly when it makes none; the record of calls never does |
| `Divergences.UndefinedExact` | crates/shen-rust/src/interp/eval.rs:938-946 | an undefined callee: the errors are the same exactly when the arguments succeed or fail with a runtime error, and compiled code has by then done all that the arguments do |
| `Divergences.UndefinedParts` | crates/shen-rust/src/interp/eval.rs:938-946 | `(G (set X 1))` with no `G`: both raise, and compiled code has set `X` |
| `Divergences.DirectUnder` | crates/shen-rust/src/aot/runtime.rs:47-56 | a native override with too few arguments: compiled code agrees with the evaluator's partial application exactly when it is done before it reads a missing argument and what it found is that very partial application; where no global and no vector holds a closure, never |
| `Divergences.VectorRefAlone` | crates/shen-rust/src/primitives.rs:108 | `(<-vector V)` is a partial application, and its code panics |
| `Divergences.NoArguments` | crates/shen-rust/src/primitives.rs:36-39 | without arguments every primitive is a partial application in the evaluator; in compiled code exactly the overrides panic |
| `Divergences.VectorSetOfTwo` | crates/shen-rust/src/primitives.rs:427-452 | `(vector-> V I)` fails as with a value, if it does, and panics otherwise |
| `Divergences.DirectOver` | crates/shen-rust/src/aot/runtime.rs:47-56 | with too many: compiled code ends as the native does on those it takes; unless that is a closure, the two agree exactly when the native does not return |
| `Divergences.LimitOfTwo` | crates/shen-rust/src/primitives.rs:110 | `(limit V 1)` raises, and its code returns the limit |
| `Divergences.ComparableDecided` | crates/shen-rust/src/value.rs:905-943 | on data without closures, vectors and runtime errors `=` is answered in both engines, true exactly of values that stand for the same |
| `Divergences.TwoErrorsDrift` | crates/shen-rust/src/aot/runtime.rs:100-118 | `(= (trap-error (if 5 1 2) (lambda E E)) (trap-error (cond (5 1)) (lambda E E)))` is not held against the engines: two errors of the runtime are compared, and the step drifts |
| `Divergences.FormsOfBoolean` | crates/shen-rust/src/primitives.rs:814 | the core `symbol?`, which an override replaces after boot, of related booleans answers alike exactly when both are symbols or neither is |
| `Divergences.TrappedValueExact` | crates/klcompile/src/lib.rs:1096-1161 | a trapped `value` of something that is no symbol: the trap falls back, the code it is rewritten to raises, and they agree exactly when the fallback raises a runtime error |
| `Divergences.TrappedValueParts` | crates/shen-rust/src/primitives.rs:264-279 | `(trap-error (value 5) (lambda E 1))` is 1, and its code raises |
| `Misread.NameExact` | crates/klcompile/src/lib.rs:663-671 | a name that is evaluated gives the same in both engines exactly when the flat scope and the lexical one agree on it, or it is bound to what the symbol itself stands for |
| `Misread.HeadExact` | crates/klcompile/src/lib.rs:714-723 | a bound head that the compiler takes for a function, of which there is none: the code raises, and agrees exactly when applying the local raises a runtime error |
| `Misread.ShadowingBreaks` | crates/klcompile/src/lib.rs:823-842 | `(let X 1 (do (let X 2 X) X))` evaluates to 1, and its code to the symbol `X` |
| `Misread.RebindingIsFine` | crates/klcompile/src/lib.rs:823-842 | rebinding by itself is well-formed, as in `(let X 1 (let X 2 X))`; reading the outer name afterwards is not |
| `Misread.HeadBreaks` | crates/klcompile/src/lib.rs:714-723 | `(let G (lambda Y Y) (do (let G 2 G) (G 3)))` is 3, and its code raises |
| `SelfCalls.RoundExact` | crates/klcompile/src/lib.rs:545-557 | a self-call that is reached with its arguments computed goes round with them if no `let` of the function hides a parameter, and otherwise assigns a local that is not `mut`: never both |
| `SelfCalls.AssignsExact` | crates/klcompile/src/lib.rs:545-591 | the emitted statements assign nothing but parameters, as rustc demands, if and only if no self-call of the source stands under a `let` of a parameter, with the flat scope threaded as compilation does |
| `SelfCalls.LoopsExact` | crates/klcompile/src/lib.rs:470-484 | what a definition needs for its loop is that rustc takes the assignments of its code and that no special form is taken for a call of it: no more and no less |
| `SelfCalls.LinkedAssigns` | crates/klcompile/src/lib.rs:470-484 | rustc takes the assignments of every function of a compiled program |
| `SelfCalls.FormGoesRound` | crates/klcompile/src/lib.rs:530-536 | a special form that is taken for a call of the function goes round with its operands, where the evaluator performs the form; without fuel they never agree on a form that is answered at once |
| `Misread.HiddenParameter` | crates/klcompile/src/lib.rs:545-591 | `(defun F (X) (if X 7 (let X true (F X))))` of false is 7, and its code is refused: it assigns the `X` of the `let`, which is not `mut` |
| `Misread.NamedThaw` | crates/klcompile/src/lib.rs:530-536 | `(defun thaw (X) (thaw X))` thaws, and its code loops for ever: it takes the form for a call of itself |
| `Misread.LocalAccessExact` | crates/klcompile/src/lib.rs:1096-1161 | a rewritten trap whose operator is bound to something that is no closure: the evaluator answers the fallback, the code what the `/or` primitive finds, and they agree exactly when it finds nothing or what the fallback answers anyway |
| `Misread.LocalAccessBreaks` | crates/klcompile/src/lib.rs:1096-1161 | `(let value 1 (trap-error (value X) (lambda Y 2)))` is 2, and its code reads the global `X` |
| `Misread.FalseThawExact` | crates/klcompile/src/lib.rs:844-862 | a clause `(thaw G)` of an inlined `G`: unless its test is true the engines agree; if it is, they agree exactly when a local `G` from further out holds a value related to the continuation, and without such a local the code does not compile |
| `Misread.ThawThawExact` | crates/klcompile/src/lib.rs:844-862 | the same of the clause `(thaw thaw)` of an inlined `thaw`, whose test is no boolean |
| `Misread.FalseThawBreaks` | crates/klcompile/src/lib.rs:1449-1474 | `(let thaw true (let G (freeze 1) (cond (thaw G))))` is a closure, and its code reads a local that is not there |
| `Related.ValueEqRel` | crates/shen-rust/src/value.rs:905-943 | where equality is answered, it cannot tell related values apart; which answer is right says `PrimitiveLaws.EqualIsMeaning` |
| `Related.RunRel` | crates/shen-rust/src/aot/runtime.rs:183-455 | no modelled primitive can tell related arguments apart, or related states, except where it drifts; what each answers say the laws below |
| `PrimitiveLaws.WriteRead` | crates/shen-rust/src/primitives.rs:929-947 | `(set x v)` answers `v`; then `(value x)` is `v` and `(value y)` of any other name is what it was |
| `PrimitiveLaws.WriteKeepsVectors` | crates/shen-rust/src/primitives.rs:929-947 | and every cell of every absvector is what it was |
| `PrimitiveLaws.StoreLoad` | crates/shen-rust/src/aot/runtime.rs:450-454 | the same of the store and the load that compiled code uses for a name outright |
| `PrimitiveLaws.NewVector` | crates/shen-rust/src/primitives.rs:953-967 | `(absvector n)` is new, has the indices 0 .. n - 1 and no others, and leaves every other absvector alone; sizes out of range raise |
| `PrimitiveLaws.StoreRead` | crates/shen-rust/src/aot/runtime.rs:436-448 | what is stored in a cell is read back; every other cell and every global is what it was; out of range it raises and does nothing |
| `PrimitiveLaws.NewLimited` | crates/shen-rust/src/primitives.rs:386-403 | `(vector n)` has limit `n` and no elements |
| `PrimitiveLaws.VectorElement` | crates/shen-rust/src/primitives.rs:405-425 | an element is a cell other than slot 0 that does not hold the fail object, and nothing else |
| `PrimitiveLaws.VectorStore` | crates/shen-rust/src/primitives.rs:427-452 | storing an element is storing in its cell, but for slot 0 |
| `PrimitiveLaws.IntegersAreFixnums` | crates/shen-rust/src/value.rs:664-671 | an integer is kept as one exactly if its tagged word gives it back; the others become floats |
| `PrimitiveLaws.Difference` | crates/shen-rust/src/aot/runtime.rs:196-207 | of any two numbers, the difference and the second operand add up to the first; it is an integer exactly if both are and it fits a fixnum |
| `PrimitiveLaws.Product` | crates/shen-rust/src/aot/runtime.rs:209-220 | the product of two numbers, and when it is an integer |
| `PrimitiveLaws.Quotient` | crates/shen-rust/src/aot/runtime.rs:222-237 | the quotient times the divisor is the dividend; it is an integer exactly if both are and one divides the other; dividing by 0 raises |
| `PrimitiveLaws.MinusUndoesPlus` | crates/shen-rust/src/aot/runtime.rs:183-207 | on integers: subtracting either summand gives the other, and 0 is the unit |
| `PrimitiveLaws.TimesIsRepeatedPlus` | crates/shen-rust/src/aot/runtime.rs:209-220 | on integers: multiplication is repeated addition |
| `PrimitiveLaws.DivideUndoesTimes` | crates/shen-rust/src/aot/runtime.rs:222-237 | on integers: dividing a product by a factor gives the other |
| `PrimitiveLaws.Order` | crates/shen-rust/src/aot/runtime.rs:239-275 | `<` holds exactly if the difference is negative, `>` is `<` the other way round |
| `PrimitiveLaws.Trichotomy` | crates/shen-rust/src/aot/runtime.rs:239-280 | exactly one of `<`, `=` and `>` holds of two numbers |
| `PrimitiveLaws.ConsParts` | crates/shen-rust/src/aot/runtime.rs:282-306 | `hd` and `tl` take apart what `cons` put together, and `cons?` tells when they can |
| `PrimitiveLaws.Booleans` | crates/shen-rust/src/aot/runtime.rs:333-344 | the booleans are two, each in two forms; `not` swaps them and rejects everything else |
| `PrimitiveLaws.Predicates` | crates/shen-rust/src/aot/runtime.rs:303-331 | each kind has its predicate, which holds of that kind only |
| `PrimitiveLaws.EqualIsMeaning` | crates/shen-rust/src/value.rs:905-943 | on data without closures, vectors and runtime errors two values are equal exactly if they stand for the same: one real for a number, one truth for both forms of a boolean, part by part for pairs |
| `PrimitiveLaws.NoDrift` | crates/shen-rust/src/primitives.rs:36-39 | apart from the operands named there no primitive drifts |
| `Compiler.Codegen.CompileExpr` | crates/klcompile/src/lib.rs:656-675 | the generator's method emits, and leaves its counter, continuations and the scope, as specified |
| `Compiler.Codegen.BindArgs` | crates/klcompile/src/lib.rs:794-808 | the loop over the arguments, with its fresh temporaries |
| `Compiler.Codegen.CompileCond` | crates/klcompile/src/lib.rs:844-862 | the loop over the clauses from the last |
| `Compiler.Codegen.CompileDo` | crates/klcompile/src/lib.rs:864-879 | the loop over the operands of `do` |
| `Compiler.Codegen.CompileClosure` | crates/klcompile/src/lib.rs:907-964 | a scope of its own for the body, and the sorted captures |
| `Compiler.Codegen.CompileTrap` | crates/klcompile/src/lib.rs:1074-1161 | the rewrite when it applies, the general trap when it does not |
| `Compiler.Codegen.CompileTail` | crates/klcompile/src/lib.rs:506-543 | the dispatch in tail position |
| `Compiler.Codegen.CompileSelfTailCall` | crates/klcompile/src/lib.rs:545-557 | the assignments and `continue` |
| `Compiler.Codegen.CompileTop` | crates/klcompile/src/lib.rs:403-499 | a top-level form: its name, parameters and scope, then its body, from whatever counter and continuations came before; a rejected one leaves both as they were at that point |
| `Compiler.CompileKl` | crates/klcompile/src/lib.rs:163-235 | the driver: last definitions by name, the skip set and the budget, one generator for all forms in their order, rejected ones passed over |
| `Compiler.Sort` | crates/klcompile/src/lib.rs:915-918 | sorting gives the same list whichever way the set is walked |
| `Sanitize.SanitizeIdent` | crates/klcompile/src/lib.rs:1589-1605 | the loop over the characters builds the identifier |
| `Sanitize.AlwaysLegal` | crates/klcompile/src/lib.rs:1589-1605 | the identifier is never empty, never starts with a digit, and holds only letters, digits and underscores |
| `Sanitize.UnchangedIff` | crates/klcompile/src/lib.rs:1589-1605 | a name stays as it is if and only if it is an identifier already, by the codes of its characters |
| `Sanitize.SpeltByCode` | crates/klcompile/src/lib.rs:1593-1596 | any other character is spelt `_x`, its code in hexadecimal, `_` |
| `Sanitize.InjectiveIff` | crates/klcompile/src/lib.rs:1586-1605 | over an alphabet, non-empty names keep distinct identifiers if and only if it has no underscore, or no digit and no character that the others of its own escape can spell |
| `Sanitize.NoUnderscore` | crates/klcompile/src/lib.rs:1386-1388 | names without an underscore never share a Rust name |
| `Sanitize.Clashes` | crates/klcompile/src/lib.rs:1589-1605 | `a?` and `a_x3f_`, `1` and `_1`, the empty name and `x` do |
| `Sanitize.LocalsApart` | crates/klcompile/src/lib.rs:346-350 | user locals, temporaries and the fixed locals never share a spelling |
| `Collector.Heap.Collect` | crates/shen-rust/benches/gc_spike.rs:257-294 | it ends; afterwards the free list is exactly the nodes the roots do not reach, once each in allocation order; marks are clear and no node's words changed; the counters are exact |
| `Collector.Heap.Mark` | crates/shen-rust/benches/gc_spike.rs:259-277 | a node is marked exactly if a root reaches it (lexicographic measure: unmarked nodes, then stack length) |
| `Collector.SweepNodes` | crates/shen-rust/benches/gc_spike.rs:279-289 | one pass frees what is unmarked, counts the rest and clears marks; the sweep of both heaps |
| `Collector.Heap.Alloc` | crates/shen-rust/benches/gc_spike.rs:226-252 | a cons in a node no root reaches, everything reachable untouched; it collects exactly when the free list is empty and the heap at its cap; the heap never has more nodes than the cap, or than one more than were reachable at some allocation |
| `Collector.UnreachedIs` | crates/shen-rust/benches/gc_spike.rs:281-289 | free and reachable nodes are all the nodes, each in one of the two |
| `Mutator.CollectorIsInvisible` | crates/shen-rust/benches/gc_spike.rs:226-294 | whatever a program does with allocations, reads, moves and comparisons, with all its words as roots and any collections and growth between, it sees what it would see on a heap that never frees |
| `Running.Machine.Execute` | crates/shen-rust/benches/gc_spike.rs:226-294 | any program run on the collecting heap itself, every register a root, sees exactly that |
| `Running.Machine.Do` | crates/shen-rust/benches/gc_spike.rs:226-252 | one operation on the heap object, keeping every register a node in use |
| `Mutator.StepAlike` | crates/shen-rust/benches/gc_spike.rs:226-252 | one operation keeps a renaming of the nodes in use to those of the heap that never frees, and shows the same |
| `Mutator.CollectAlike` | crates/shen-rust/benches/gc_spike.rs:257-294 | a collection keeps that renaming on what is reachable |
| `Mutator.PartsOfNew` | crates/shen-rust/benches/gc_spike.rs:226-252 | on the heap that never frees, reading a new cons gives the two words it was made of, and nothing else changes |
| `Mutator.SeenAsPut` | crates/shen-rust/benches/gc_spike.rs:131-141 | a number put in a register is seen there, to 61 bits, and the empty list as that |
| `Mutator.NewIsNew` | crates/shen-rust/benches/gc_spike.rs:226-252 | two new conses are different, from each other and from every number |
| `Benches.GcBench` | crates/shen-rust/benches/gc_spike.rs:310-343 | on any valid heap with any cap, the total is the sum of `iters` lists of `0 .. n` with wrap-around |
| `Benches.LeakBench` | crates/shen-rust/benches/gc_spike.rs:156-182 | with nodes never freed, the same total |
| `Benches.SumIsTriangle` | crates/shen-rust/benches/gc_spike.rs:371-372 | that sum is n (n - 1) / 2 while the integers fit a fixnum |
| `Words.FixnumRoundTrip` | crates/shen-rust/src/value.rs:664-671 | a fixnum keeps the low 61 bits of its integer: all of it exactly when it is in range |
| `Words.PtrRoundTrip` | crates/shen-rust/benches/gc_spike.rs:131-141 | a node's tagged word is read back as that node |
| `ConservativeRoots.ScanHeap.Collect` | crates/shen-rust/benches/gc_roots_aot_spike.rs:213-276 | the free list is exactly the nodes that no scanned cons-tagged member word reaches; the root counters are exact |
| `ConservativeRoots.ScanHeap.TryRoot` | crates/shen-rust/benches/gc_roots_aot_spike.rs:278-300 | it accepts exactly the cons-tagged words whose address is ours and not marked yet |
| `ConservativeRoots.ScanHeap.Trace` | crates/shen-rust/benches/gc_roots_aot_spike.rs:247-256 | mark on push: it ends, and marks exactly what the scanned words reach |
| `ConservativeRoots.ScanHeap.Alloc` | crates/shen-rust/benches/gc_roots_aot_spike.rs:182-211 | as long as every live word is among those scanned, an allocation leaves everything live untouched, whatever else the scan takes for a root |
| `ConservativeRoots.FalsePositives` | crates/shen-rust/benches/gc_roots_aot_spike.rs:278-283 | a false positive only retains more: each extra node is reached from a false root |
| `ShenValue.EqTrans` | crates/shen-rust/src/value.rs:905-943 | equality is transitive across fixnums, floats, the two zeros, booleans and symbols, lists and vectors |
| `ShenValue.EqSym` | crates/shen-rust/src/value.rs:905-943 | equality is symmetric |
| `ShenValue.EqualIsMeaning` | crates/shen-rust/src/value.rs:905-943 | two values are equal exactly if they stand for the same: one real for each finite number and both zeros, each infinity by itself, one truth for both forms of a boolean, part by part for pairs and vectors |
| `ShenValue.NumbersEqual` | crates/shen-rust/src/value.rs:913-915 | for each pair of kinds of numbers, when they are equal |
| `ShenValue.Crossings` | crates/shen-rust/src/value.rs:917-929 | a fixnum equals its float, the zeros each other, the booleans their symbols; a string is no symbol and an empty vector no empty list |
| `ShenValue.EqTokens` | crates/shen-rust/src/primitives.rs:1391-1431 | equal values feed the hasher the same |
| `ShenValue.SameTokensIff` | crates/shen-rust/src/primitives.rs:1391-1431 | and values without vectors that feed it the same are equal |
| `ShenValue.EqualKeysShareBucket` | crates/shen-rust/src/primitives.rs:294-304 | equal keys share a bucket, one of 1 .. max(1, bound - 1), for every bound and every hash function |
| `ShenValue.BucketTakes` | crates/shen-rust/src/primitives.rs:294-304 | which hashes each bucket takes |
| `ShenValue.Hasher.ValueHash` | crates/shen-rust/src/primitives.rs:1391-1431 | the method feeds the hasher what the specification says |
| `PropertyStore.StoreIsMap` | crates/shen-rust/src/primitives.rs:576-618 | over every history of `put` and `unput` on a vector of limit 1 or more no operation fails, every bucket keeps at most one entry per key, slot 0 and the length never change, and each key holds its last value |
| `PropertyStore.GetAfter` | crates/shen-rust/src/primitives.rs:588-606 | `get` returns the last value put, and fails when there is none or it was removed |
| `PropertyStore.KeysApart` | crates/shen-rust/src/primitives.rs:576-618 | whatever is put or removed under one key, every key that does not stand for the same holds what it held, after any history |
| `PropertyStore.NumbersApart` | crates/shen-rust/src/primitives.rs:576-606 | so do two integers whose doubles differ |
| `PropertyStore.GetFails` | crates/shen-rust/src/primitives.rs:588-606 | which of the two errors `get` raises |
| `PropertyStore.PutUpdates` | crates/shen-rust/src/primitives.rs:576-586 | one `put`: its key, modulo equality, and no other |
| `PropertyStore.UnputRemoves` | crates/shen-rust/src/primitives.rs:608-618 | one `unput`: its key, modulo equality, and no other |
| `PropertyStore.ChangeFinds` | crates/shen-rust/src/primitives.rs:509-544 | what `change_pointer` does to every key of a bucket |
| `PropertyStore.RemoveFinds` | crates/shen-rust/src/primitives.rs:546-574 | what `remove_pointer` does to every key of a bucket with one entry per key |
| `PropertyStore.AssocIsFind` | crates/shen-rust/src/primitives.rs:491-507 | looking up the list (key prop) is looking up the key and the property |
| `PropertyStore.NoBuckets` | crates/shen-rust/src/primitives.rs:294-300 | on a vector of limit 0 every operation fails |
| `PropertyStore.Dict.HotPut` | crates/shen-rust/src/primitives.rs:576-586 | the vector after a `put` in place, errors included |
| `PropertyStore.Dict.HotUnput` | crates/shen-rust/src/primitives.rs:608-618 | the vector after an `unput` in place, errors included |
| `PropertyStore.Dict.HotGet` | crates/shen-rust/src/primitives.rs:588-606 | the answer or error of `get` |
| `PropertyStore.Dict.Bucket` | crates/shen-rust/src/primitives.rs:475-488 | the slot of a key and the bucket in it |
| `PropertyStore.AssocEntry` | crates/shen-rust/src/primitives.rs:491-507 | the loop over a bucket |
| `CodeData.CodeRoundTrip` | examples/shen-cedar-authz/src/lib.rs:169-179 | a syntax tree survives the trip through data if and only if it has no empty application and no integer outside the fixnums |
| `CodeData.DataRoundTrip` | crates/shen-rust/src/primitives.rs:1358-1389 | a value survives the trip through code if and only if it is built of atoms and proper lists |
| `CodeData.ValueToKlExpr` | crates/shen-rust/src/primitives.rs:1358-1389 | the conversion as written, over the list and then its elements |
| `CodeData.ListToVec` | crates/shen-rust/src/primitives.rs:1339-1354 | the elements of a proper list, and nothing for an improper one |
| `CodeData.ReadList` | examples/shen-cedar-authz/src/lib.rs:159-167 | the elements up to wherever the list ends; rebuilt they are the list exactly if it was proper |
| `CodeData.List` | crates/shen-rust/src/value.rs:572-582 | the list built from the last item back |
| `Interner.CacheIsTransparent` | crates/shen-rust/src/symbol.rs:102-132 | over every interleaving of both calls, collisions and evictions included, the names are the texts in order of first use and each call answers its text's place |
| `Interner.StaticIsIntern` | crates/shen-rust/src/symbol.rs:118-132 | what the cache answers is what the slow path would have |
| `Interner.NeighboursApart` | crates/shen-rust/src/symbol.rs:118-132 | literals whose addresses differ only in the bits 3 to 15 never compete for a slot |
| `Interner.Bijection` | crates/shen-rust/src/symbol.rs:102-111 | ids and names are a bijection exactly while the 32-bit ids do not wrap around |
| `Interner.ResolveInterned` | crates/shen-rust/src/symbol.rs:134-138 | a name's id resolves to it exactly if it is among the first 2^32 names |
| `Interner.IdsKeepMeaning` | crates/shen-rust/src/symbol.rs:134-138 | later calls never change what an id resolves to |
| `Interner.Interner.InternName` | crates/shen-rust/src/symbol.rs:102-111 | the table after `intern` |
| `Interner.Interner.InternLiteral` | crates/shen-rust/src/symbol.rs:118-132 | the table and the slots after `intern_static` |
| `Roles.ReachesIsClosure` | examples/shen-cedar-authz/spec/verify.shen:16-22 | on every acyclic edge list `reaches` ends and decides the reflexive-transitive closure |
| `Roles.PrologReaches` | examples/shen-cedar-authz/examples/reaches_equiv.rs:80-86 | depth-first search of the clauses ends and proves a query exactly if the closure holds |
| `Roles.AncestorsAreClosure` | examples/shen-cedar-authz/spec/authz.shen:28-29 | `ancestors` ends and lists exactly the closure |
| `Roles.ThreeWays` | examples/shen-cedar-authz/examples/reaches_equiv.rs:52-86 | the defun and the list of ancestors agree, and with the closure that the Prolog search decides |
| `Roles.ExpansionIsClosure` | examples/shen-cedar-authz/spec/authz.shen:31-39 | `expand-all` lists exactly the triples whose role is listed and is in a role that holds the base grant |
| `Roles.ParentsOfLoop` | crates/shen-rust/benches/gen/authz_served_gen.rs:10-89 | `parents-of` as compiled: skipping loops, keeping calls |
| `Roles.ReachesListLoop` | crates/shen-rust/benches/gen/authz_served_gen.rs:144-205 | `reaches-list` as compiled, a loop over the parents |
| `Roles.Mem` | crates/shen-rust/benches/gen/authz_served_gen.rs:845-901 | `mem` as compiled |
| `Roles.GFilterLoop` | crates/shen-rust/benches/gen/authz_served_gen.rs:1101-1186 | `gfilter` as compiled |
| `Scopes.ShadowedExact` | examples/shen-cedar-authz/spec/verify.shen:41-43 | the verdict is `shadowed` if and only if the forbid applies to every request the permit applies to, and no `==` scope of the forbid faces an `in` scope of the permit |
| `Scopes.CoversExact` | examples/shen-cedar-authz/spec/verify.shen:25-30 | covering is inclusion of what the scopes match, except for `==` over `in` |
| `Scopes.MissedCover` | examples/shen-cedar-authz/spec/verify.shen:25-30 | that case is a real inclusion exactly for the same entity when nothing is in it but itself |
| `Scopes.VerdictHasWitness` | examples/shen-cedar-authz/spec/verify.shen:41-43 | `overlap` and `shadowed` come with a request that both policies apply to |
| `Scopes.DisjointExactIff` | examples/shen-cedar-authz/spec/verify.shen:41-43 | `disjoint` is right for all policies if and only if any two parents of an entity are comparable |
| `Scopes.InterExactIff` | examples/shen-cedar-authz/spec/verify.shen:33-39 | the intersection of scopes is decided right for all pairs if and only if any two parents of an entity are comparable |
| `Scopes.ComparableIff` | examples/shen-cedar-authz/spec/verify.shen:33-39 | comparable parents make all ancestors comparable, and one parent each is enough |
| `Scopes.TwoParents` | examples/shen-cedar-authz/spec/verify.shen:41-43 | a member of two unrelated roles makes two overlapping policies look disjoint |

## Left out

- Codegen.CompileApp: does not model the lowering of `when`, `shen.cut`, `bind` and `shen.bind!` with 5, 4, 6 and 4 arguments of which the last is a freeze, because it is right only for the definitions in `prolog.kl`; such calls count as rejected, and other mentions of these names are compiled.
- Codegen.CompileApp: does not model `intern` of a string literal, because the model has symbols by number and no table of their texts.
- Correctness.EndsAlike: speaks of calls whose evaluation never drifts; of the steps that drift, equality of closures, equality of distinct absvectors (which the original compares cell by cell), booleans as names of globals, texts of runtime errors and nested defuns have no answer in the model.
- Correctness.CompilerCorrect: the texts of errors that the runtime raises count as one, and a call of a definition that the file skips or that is rejected is undefined on both sides.
- Correctness.SameAnswer: the texts of errors that the runtime raises count as one; results and written values that contain closures are related, not compared, because the two engines show different closures.
- Acceptance.JudgeE: calls with a Prolog lowering count as rejected, as they do in `Codegen.CompileApp`.
- Acceptance.JudgeTail: the same in tail position, except where such a call is one of the function itself.
- Compiler.CompileKl: does not model the table that seals calls inside a module: a sealed call stands only for one with exactly the callee's number of arguments, where it calls what `apply_direct` would.
- Related.ValueEqRel: the contents of two different absvectors, the identity of closures and the texts of errors that the runtime raises are not compared: there `Machine.ValueEq` has no answer.
- Related.RunRel: speaks of the primitives of `Machine.Run`, a selection; see there.
- Divergences.TwoErrorsDrift: says only that the step drifts; that the texts differ in one engine and not in the other cannot be said, because the model has no texts of errors that the runtime raises.
- Divergences.FormsOfBoolean: is about the core `symbol?`; the override that stands after boot looks at the text of the symbol.
- Machine.Arith: arithmetic is over the integers and the reals; rounding, NaN and the overflow of intermediate results are not modelled.
- SimExpr.SimTry: the texts of errors that the runtime raises are one `Runtime` error, told apart from those a program raises itself; a step that would show such a text drifts.
- Helpers that the compiler inlines, and sealed calls inside a module: they stand only for calls with exactly the callee's number of arguments, where they call what `apply_direct` would; calls with any other number go through `apply_direct` and are modelled.
- Programs of which some definitions are compiled and others left to the evaluator: `Linking.Program` holds the compiled ones, and a call of any other is undefined on both sides.
- Step budgets and cancellation, which compiled `trap-error` does not tell apart from errors.
- Machine.Run: a selection of the primitives, each with the arity it has. Of the others, most add cases of the same kind or are I/O; `fn`, `apply` and `eval-kl` would call back into the evaluator, and the override of `symbol?` needs the texts of symbols.
- The redefinition of functions at run time, overlays and their manifests.
- Names as strings in the compiler: names are numbers there, captures are sorted by number, and `Sanitize.dfy` treats spelling by itself.
- Flat `do` blocks: `{ let _ = a; let _ = b; c }` is written as nested blocks.
- The text layout of the emitted module: headers, installers and the arity check are the call rule of the model.
- The borrow checker: that an emitted local procedure does not outlive the parameters it reads, and that no two mutable borrows of the interpreter overlap. They do in the code of a thaw whose operand is itself a call, as in `(thaw (f X))`, because its operand is not bound to a local first (crates/klcompile/src/lib.rs:1023); the model runs the operand and then applies its value.
- RustRun.Writable: of the rules of rustc only the scope of locals and the assignment of locals that are not `mut` are modelled, each at the run that reaches it; `SelfCalls.AssignsMut` is the assignment rule for a whole function.
- Collector.Heap.Alloc: nodes are entries of a map from addresses, not separate objects; running out of memory aborts the original and does not happen here.
- ConservativeRoots.ScanHeap.Alloc: the words of the stack and of the flushed registers are a sequence that the caller supplies.
- The production heap of `gc/heap.rs` and the kinds of `gc/node.rs`: the benches are modelled, with one kind of node.
- The reference-counted bench: its total is the same arithmetic.
- Property keys that are mutable or cyclic, and NaN.
- Interner.Interner.InternLiteral: hashing of names is left to the map.
- Roles.ReachesIsClosure: on a cyclic edge list the original does not end, and nothing is claimed.
- The batch driver `classify-all`: it maps `classify` over two lists.
- The rendering of scopes and grants from and to Cedar, and everything that boots or calls a host.
