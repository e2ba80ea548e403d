# Glisp in Dafny

A Dafny model of a small Lisp interpreter written in Go: its reader and printer, the compiler
from s-expressions to bytecode, the stack machine that runs the bytecode and is re-entered by
its own builtins, the ordered hash table, and the run queue with the batched delivery built on
it. `dafny verify dfyconfig.toml` checks the whole project.

## How the parts fit together

**Compiler and machine.** `Codegen` is the code the generator emits, as a function of an
expression and of the generator's `funcname`, `tail` and `scopes`. `Machines` is the machine,
as a function on machine states; `k` bounds the nesting and the length of runs that builtins
start inside one instruction. `GeneratorObjects` and `VmObjects` have the generator and the
machine as classes that update their fields and array-backed stacks (`Stacks`), each method
proved against these functions.

*What programs mean.* `Evaluator` is a big-step evaluator that knows nothing of instructions:
its closures hold source text and the whole environment. `Wellformed` says which source shapes
are meant (`Loadable` for programs, `Preserved` for functions); `Translation` says what the
evaluator's values look like in the machine. `Simulation` and `Correctness` prove that where the
evaluator gives a well-formed expression a value, the machine runs its code to the end with
exactly that value pushed, the evaluator's scopes, and every other stack as it was. `Loading`
lifts this to programs loaded one after another. There the evaluator applies preserved functions
only; `Policies` shows that this takes values away and changes none, and `Programs` shows, from a
condition on the text of the programs alone (`CarefulText`), that it takes none away. `Regularity`
has that condition: every function is well-formed and mentions itself what functions nested in it
need from outside; functions that loop are defined in the global scope, by a `defn` anywhere in a
form that is evaluated there; and their names are bound to nothing else from that form on.
`TailCalls` compares jumps with the calls they replace, one by one and for whole environments:
`Renaming` shows that a function may be compiled under another name, `Erasure` that the language
does not see the names of functions. `Limits` shows where the code departs from the language, with
exact conditions.

*What the shared definitions mean.* The evaluator and the machine agree on what is true, on
parameter vectors, and on what the builtins do because they share these definitions; so they
agree whatever the definitions say. What they say is proved apart, of the values and texts
themselves: `Parameters` says which argument each symbol of a vector receives, `Meanings` what
branches, builtins and a new environment do, and `Language` what each form means by its own name.

*What runs keep.* These results use no evaluator and hold of every run, with any nesting of
script functions and builtins. `Sealing` has the functions that control leaves only through a
`return`; `ClosedCode` proves that every function the generator builds is one, also where it
drops errors or leaves `tail` set, and `Calls` that calls and returns then match. `StackTypes`
gives code a shape per instruction, the slots on its part of the data stack and the number of its
scopes; `TypedCode` proves that the code of every regular text has such shapes; `Troubles` lists
the errors that they exclude, `Activations` and `Safety` prove that typed code never raises one
and keeps to its part of the stacks, and `SafePrograms` says so of expressions, calls, jumps and
programs.

**Reader and printer.** `Lexing` and `Parsing` specify the lexer's state machine with its
one-token look-ahead and the recursive-descent parser; `TwoPhase` proves that together they
read every input as a lexer followed by a parser would, although a last token that was only
peeked at is dropped. `Printing` has `SexpString` and the round trip; `Exactness` says exactly
which strings, symbols and characters survive it; `ReaderForms` covers comments, the quoting
prefixes, escapes and other bases. The round trip alone would leave the printed text open:
`PrintedText` says which it is. `Encoding` has UTF-8. `ReaderObjects` has the lexer, the parser and the printing loops as
methods, and `Symbols` the interning of symbols. `Interpreter` joins reading and running.

**Hash table.** `Comparison` has `Compare` and its laws, `Ordering` the order that it decides, said
without it, `HashTables` the refinement of the
table to a map on keys up to `Compare == 0`, `HashCounting` the counter and the key order,
`HashObjects` the table as an object.

**Run queue.** `Delivery` is a state machine over the atomic steps of any number of producers
and of the machine thread; its theorems hold for every interleaving. `Progress` shows that it never
gets stuck and that everything submitted is done in the end; `Endings`, how a stream ends.

Scopes of the machine are values: the global scope apart, then the local ones. The builtins
are a parameter (`Host`): a table by symbol number, and one pure function for all those that
compute on data without functions; `list`, `array`, `cons`, `map` and `apply` are modelled.
Unicode's table of printable characters beyond ASCII is a parameter of the printer.

## Model

| member | source | states |
|---|---|---|
| Sexps.MakeListElems | listutils.go:26-32 | the list made of elements is proper and has exactly these elements, in order |
| Sexps.ElemsMakeList | listutils.go:11-24 | taking a proper list apart and making it again gives the list |
| Sexps.TruthExact | expressions.go:198-210 | false, the integer and the character zero and null count as false, and nothing else does |
| Sexps.ElemsInOrder | listutils.go:11-24 | the element numbered `i` is the head after `i` tails, and null comes after the last |
| Sexps.MakeListInOrder | listutils.go:26-32 | so it is in the list that is made of elements |
| Sexps.ListExact | typeutils.go:16-25 | a proper list is a chain of pairs that ends in null |
| Scoping.LookupAppend | scopes.go:39-54 | a name in a stack of scopes is looked up in the upper ones first and below only when they do not bind it |
| Scoping.VisibleLookup | scopes.go:39-54 | lookup over many scopes is lookup in the one scope that merges them, inner bindings winning |
| Scoping.LookupExact | scopes.go:39-58 | a name has a value if and only if the last local scope that binds it, or, where none does, the global scope gives it that value |
| Scoping.BindAllAt | generator.go:99-101 | after the compiled prologue a parameter that no earlier one repeats is bound to the argument in its own position |
| Scoping.BindAllOther | generator.go:99-101 | the prologue leaves every name that is no parameter as it was |
| Scoping.BindAllForgets | generator.go:99-101 | binding all parameters again leaves nothing of the arguments bound before, when nothing else was bound |
| Instructions.MentionsExact | vm.go:92-107 | the capture scan looks for a symbol if and only if some instruction of the function gets, puts or calls it by name |
| Parameters.ParamsExact | generator.go:77-101 | a parameter vector holds symbols only; they are the parameters, each in its own place, except a `&` in the last place but one, after which the last one collects |
| Parameters.BindingsExact | generator.go:353-376 | a binding vector has symbols in the even places of an even number; each goes with the expression after it |
| Parameters.CallExact | environment.go:177-191 | a call of the function compiled from a vector is accepted if and only if there are as many arguments as symbols, or, with `&`, at least as many as stand before it |
| Parameters.ArgumentsReceived | environment.go:159-214 | end to end: after the call and the compiled prologue the first symbol of each name in the vector is bound to the argument in its own place and the one after `&` to the list of the arguments left, and nothing is left on the stack |
| Parameters.ApplicationReceives | generator.go:66-110 | the same of an application in the language |
| Meanings.BranchExact | vm.go:63-73 | the branch for false jumps if and only if the value on top, which it takes, is false, a zero or null, the branch for true if and only if it is none of these; both fail where they would jump out |
| Meanings.ApplyExact | functions.go:713-743 | the builtin `apply` passes on the elements of an array or a proper list in their order, and nothing for a sentinel |
| Meanings.ApplyMeans | functions.go:713-743 | the same in the language |
| Meanings.ApplyRefuses | functions.go:727-743 | it refuses what is no array, no sentinel and no chain of pairs that ends in null |
| Meanings.MapMeans | functions.go:871-893 | `map` gives, in its place, what the function gives each element, as an array for an array and a list for a list |
| Meanings.ConstructorsExact | functions.go:991-1001 | `array` and `list` have their arguments as elements, by the name they are called by, and `cons` makes the pair of two |
| Meanings.OthersExact | environment.go:239-271 | the other builtins are given every argument in its place |
| Meanings.NewExact | environment.go:49-77 | a new environment binds the number of each builtin to it and nothing else, and all its stacks are empty |
| Language.CallMeans | generator.go:554-572 | a symbol that names no form is called: operands from left to right, then a builtin of that number, or else the innermost binding |
| Language.ComputedCallMeans | generator.go:575-580 | of a computed call the operands come first, then the head |
| Language.AtomsMean | generator.go:600-624 | a symbol means its innermost binding, an array the array of the values, other data itself |
| Language.AllInOrder | generator.go:626-634 | expressions are evaluated from left to right, each in the scopes that the one before it leaves |
| Language.AndMeans | generator.go:272-293 | `and` gives the first value that counts as false, else the last one, and evaluates nothing after it |
| Language.OrMeans | generator.go:272-293 | `or` gives the first value that does not count as false, else the last one, and evaluates nothing after it |
| Language.CondMeans | generator.go:295-339 | `cond` gives the clause after the first test that does not count as false, else the default, and evaluates no other clause |
| Language.BeginMeans | generator.go:46-64 | `begin` gives the last value |
| Language.QuoteMeans | generator.go:341-346 | `quote` gives the datum as it stands |
| Language.AssertMeans | generator.go:410-425 | `assert` gives null if the value does not count as false, and has no value otherwise |
| Language.BindMeans | scopes.go:69-75 | binding changes one name of the innermost scope and nothing else |
| Language.DefMeans | generator.go:136-157 | `def` evaluates, binds the name and gives null |
| Language.FnMeans | generator.go:112-134 | `fn` keeps its text and the local bindings visible where it is made, and no others |
| Language.DefnMeans | generator.go:159-190 | `defn` binds a function of its text that keeps no local bindings |
| Language.LetMeans | generator.go:348-408 | `let` evaluates all expressions in the new scope before it binds any name; of several bindings of one name the first stays; the scope is closed after the body |
| Language.LetStarMeans | generator.go:348-408 | `let*` binds each name before it evaluates the next expression |
| Language.TemplateMeans | generator.go:671-741 | a list template is the list, and an array template the array, of all that its parts contribute, from left to right |
| Language.UnquotesMean | generator.go:671-719 | an unquoted part contributes its value, a spliced one the elements of its value, which must be a list |
| Language.UnquoteMeans | generator.go:671-719 | an unquoted template is its expression |
| Language.ConstantMeans | generator.go:644-669 | a template that is neither a list nor an array is a constant |
| Language.Refused | generator.go:272-347 | without operands `and` and `or` panic and `begin` fails; an even `cond`, a `def` without a name and a value, an `assert` or template without its one operand fail; none emits code |
| Language.RefusedFunctions | generator.go:66-190 | a function without a vector of symbols or without a body fails and emits nothing |
| Language.RefusedLets | generator.go:348-376 | so does a `let` without a vector of names and expressions in turn or without a body |
| Runs.RunReaches | environment.go:589-601 | a machine that can step to its end is brought there by its loop, which pops the value on top |
| Runs.RunUnique | environment.go:589-601 | the bound on nested runs changes no result: two successful runs of one machine agree |
| Correctness.CExpr | generator.go:600-624 | compiler correctness for expressions at any offset of any function: the value is pushed, the scopes are the evaluator's, everything else is as it was; or a self tail call takes the function to its return with the value |
| Correctness.CAll | generator.go:626-634 | the operands' values are pushed in order |
| Correctness.CBegin | generator.go:46-64 | of a sequence only the last value stays on the stack |
| Correctness.CShort | generator.go:272-293 | the relative branches of `and` and `or` leave exactly one value and skip what the language does not evaluate |
| Correctness.CCond | generator.go:295-339 | the branches and jumps of `cond`, which is built from the last clause to the first, select the language's clause |
| Correctness.CLet | generator.go:348-408 | `let` and `let*` open one scope, evaluate the right-hand sides inside it, bind in the language's order and close it again |
| Correctness.CDef | generator.go:136-157 | `def` binds in the innermost scope and leaves null |
| Correctness.CDefn | generator.go:159-190 | `defn` binds a function without captured scope and leaves null |
| Correctness.CaptureMatches | vm.go:83-117 | flat closure conversion: the scanned capture holds exactly the visible local bindings that the function's own instructions name |
| Correctness.CFn | vm.go:83-117 | the closure the machine creates is what the evaluator's closure, which keeps every visible binding, translates to |
| Correctness.CAssert | generator.go:410-425 | a true assertion leaves null and does not return |
| Correctness.COrdinary | generator.go:554-572 | calls by name: operands first, a builtin name wins over every binding, a self call in tail position becomes a jump |
| Correctness.CDispatch | generator.go:575-580 | calls of computed functions |
| Correctness.CQuasi | generator.go:671-741 | quasi-quotation pushes exactly the values of the template's expansion: one for an unquote, the elements for a splice, rebuilt lists and arrays; markers never reach what lies below |
| Correctness.CQuasiEach | generator.go:731-741 | squashing each element of an array template and exploding it again contributes exactly its values |
| Correctness.ArgumentsMatch | environment.go:159-175 | the rest parameter's argument is the list of all the arguments left over, in order, null when there are none |
| Correctness.Prologue | generator.go:99-101 | the compiled prologue binds all arguments in the innermost scope and takes them off the data stack |
| Correctness.InvokeClosure | environment.go:177-237 | a call runs to its return, which leaves the value and restores function, next instruction, scope stack, address stack and saved scope stacks |
| Correctness.ApplyRuns | environment.go:506-527 | `Apply` inside a builtin returns the value that the evaluator, where it applies preserved functions, gives the application, and the very same machine, at any nesting |
| Correctness.BuiltinRuns | functions.go:713-743 | a builtin that re-enters the machine returns the language's value and leaves the machine as it found it; which arguments `apply` passes on is in Meanings.ApplyExact |
| Correctness.MapRuns | functions.go:871-893 | mapping a script function over the elements, each a nested run, gives the mapped values |
| Correctness.ListLikeArray | listutils.go:104-132 | mapping over a list visits what mapping over the array of its elements visits, in that order |
| Correctness.LoopScope | generator.go:564-566 | at an emitted jump the counted scope removals leave exactly what the function captured and its own scope, which binds nothing but parameters |
| Correctness.SelfJump | generator.go:554-572 | the jump re-enters the function with unchanged address and saved scope stacks |
| Correctness.CSelf | generator.go:554-572 | the looping function reaches its return with the value the language gives the call |
| Loading.ProgramCorrect | environment.go:348-362 | a whole program loaded into an idle machine runs to its evaluator value, and the machine is idle again with the evaluator's global scope |
| Loading.LoadableAppend | generator.go:46-64 | the code of two programs in one is their codes with a `pop` between |
| Loading.IncrementalLoading | environment.go:375-382 | programs loaded one after another give the same last value and global scope as one load of all of them |
| TailCalls.SelfTailCallIsCall | generator.go:558-567 | the emitted jump and an ordinary call in its place give the same value and change no stack below |
| TailCalls.SelfLookup | vm.go:205-223 | where a loop was compiled, the machine finds the looping function under its name |
| TailCalls.JumpsLikeCalls | generator.go:558-567 | the looping function and the same text compiled under another name, which calls the looping function where that one jumps, return the same value to the same caller, for any arguments to which the language gives the call a value |
| TailCalls.JumpsAreCalls | generator.go:558-567 | at every depth: when, everywhere in an environment that careful programs made, each looping function is replaced by the same text compiled under a name that it does not say, every application by a builtin that has a value in the language has that value in both environments, up to the names that functions carry, and leaves the machine as it was |
| TailCalls.CallingNeverJumps | generator.go:558-567 | after that replacement no function has a jump to its start |
| Renaming.Renamed | generator.go:558-567 | under a name that its text does not say a regular function compiles as well, and is well-formed as one that does not loop |
| TailCalls.NoJumps | generator.go:558-567 | a function compiled under a name that it does not call in tail position has no jump to its start |
| ClosedCode.GenClosed | generator.go:600-624 | every jump and branch of the code of any expression stays within that code, whatever errors were dropped and wherever `tail` was left set |
| ClosedCode.BuildClosed | generator.go:66-110 | every compiled function, and every function in it, can be left only through its `return` |
| Calls.CallEnters | environment.go:197-213 | a call saves one address and one scope stack |
| Calls.BuiltinBalanced | environment.go:239-271 | a call of a builtin, whatever it runs, adds no saved scope stack, takes its address away again, and resumes its caller at the next instruction with the same scopes |
| Calls.ExecInCall | vm.go:205-258 | every instruction of a run inside a script call stays inside it, one entry of each stack per active call, or returns to exactly the function, next instruction and scope stack of the caller |
| Calls.ApplyRestores | environment.go:506-527 | whatever `Apply` runs inside a builtin, function, instruction, scopes and both stacks are afterwards as they were |
| Calls.CallsMatch | environment.go:216-237 | in every error-free run, builtins that re-enter the machine included, a call that is left is left by the return that restores its caller; until then saved scope stacks and active script calls are equal in number |
| Programs.GoodPreserved | generator.go:66-110 | a function made of a regular text is one whose compiled code stands for it, under the global scope as it is when it is applied |
| Programs.CarefulRun | generator.go:554-572 | evaluating a careful program without any restriction applies preserved functions only, and keeps every looping function, wherever in a form of the global scope it was defined, under its name |
| Programs.TextCorrect | environment.go:348-362 | compiler correctness by a condition on the text alone: where the unrestricted language gives a program with a careful text a value, the machine comes to rest with that value and global scope |
| Programs.TextsCorrect | environment.go:375-382 | the same for programs loaded one after another, and for one load of all of them, which leaves the same value and global scope |
| Programs.ApplyCorrect | environment.go:506-527 | `Apply` inside a builtin, for the unrestricted language: the value that it gives the application of a function that careful programs made is what the machine returns, unchanged itself |
| Programs.NewWaits | environment.go:49-77 | a new environment, with every builtin bound to its name in the global scope, is one that the first program may be loaded into |
| TypedCode.TExpr | generator.go:600-624 | the code of every expression whose functions are regular has a stack typing that leads to one value more at the same scope depth |
| TypedCode.TOrdinary | generator.go:554-572 | at every emitted jump the typing has exactly the new arguments on the function's part of the stack and, after the counted removals, only its own scope |
| TypedCode.TQuasi | generator.go:671-741 | the code of a template leads to one value, or to any number for a splice, and its marker is always found |
| TypedCode.TFun | generator.go:66-110 | a regular function has a typed body, and so has every function in it |
| Troubles.PlainFails | vm.go:23-398 | an instruction that neither calls nor returns fails if and only if it lacks values, a scope or a marker, jumps out, names something unbound, or splices what is no list |
| Troubles.FailsExactly | vm.go:23-398 | where no value, scope or marker is lacking and nothing jumps out, an instruction fails if and only if the program is wrong: an unbound name, a bad splice, a failed assertion, a call of no function or with a wrong number of arguments, or a builtin that refuses |
| Activations.PlainAt | vm.go:23-398 | such an instruction of typed code lacks nothing and jumps nowhere out, and leaves the stacks as the shape of the next one says |
| Safety.BuiltinSafe | functions.go:713-743 | a builtin, through all script functions it runs and all builtins they call, raises no jump, stack, marker or scope error, and gives back the very machine it was given |
| Safety.ApplySafe | environment.go:506-527 | re-entrancy of every error-free `Apply`, to any nesting: the same machine afterwards, data included |
| Safety.StackSafe | environment.go:589-601 | in every state of every run typed code stays above what it was started on, which is neither read nor changed, has the height and scope depth of its typing, and raises no jump, stack, marker or scope error; it ends with one value on what was there |
| SafePrograms.ExpressionSafe | generator.go:600-624 | the code of one well-formed expression, started in any state of any function: it reads nothing below, and ends one value higher with the same scopes open |
| SafePrograms.FunctionSafe | environment.go:177-237 | a call of a regular function stays above its arguments' place until it returns, and gives back the caller's machine with the value |
| SafePrograms.JumpExact | generator.go:558-567 | every jump back to the start that a run comes to finds exactly the new arguments on the function's part of the data stack and exactly its own scope open, and the address and saved scope stacks as at every other one |
| SafePrograms.ProgramSafe | environment.go:348-362 | every state of every run of a loaded regular program is its end, with exactly its value, or raises none of these errors |
| SafePrograms.NewAtRest | environment.go:49-77 | a new environment is at rest |
| SafePrograms.LoadKeepsRest | environment.go:375-382 | a regular program that ends without error leaves every stack empty and the machine ready for the next |
| SafePrograms.LoadsKeepRest | environment.go:375-382 | so do regular programs loaded one after another |
| Limits.FlatClosureExact | vm.go:92-103 | a closure's code resolves every name as over the full environment if and only if it mentions itself whatever its nested functions need from there |
| Limits.JumpArity | environment.go:187-191 | a jump back checks no number of arguments: the prologue after it leaves the stack below the arguments intact if and only if their number is that of the parameters |
| Limits.ReusedScopeExact | generator.go:566-567 | re-entering by jump binds the same scope as a call if and only if the old scope binds parameters only |
| Limits.MisplacedJump | generator.go:558-567 | a self call compiled to a jump while values are pending is a new call by the caller of the function, on top of them: the function returns the value of that call with the pending values left below, which is right if and only if there are none and the value is the one the function should return |
| Limits.ArrayElement | generator.go:591-598 | a function whose self call stands inside an array, which the generator turns into a jump: `[[true]]` in the language, `[true]` in the machine |
| Limits.JumpsWhereNeeded | generator.go:554-598 | with `tail` set a self call becomes a jump also where its value is still needed: in an array, as an operand of a computed call, under `assert` and in a template |
| Limits.JumpsOrCalls | generator.go:348-408 | it stays a call as an operand of a call by name, in a definition and before the end of a sequence, and is a jump on the right of a `let` |
| Interpreter.PrintedProgramRuns | environment.go:375-382 | printing a careful program, reading it back, compiling and running it gives the value that the language gives it |
| Stacks.Stack.Push | stack.go:55-63 | the element is on top, whether or not the array had to grow |
| Stacks.Stack.Pop | stack.go:72-79 | the top element is returned and removed; an empty stack is left alone |
| Stacks.Stack.Get | stack.go:65-70 | the element `n` below the top, or nothing below the bottom |
| Stacks.Stack.Top | stack.go:35-37 | the index of the top, -1 when there is none |
| Stacks.Stack.IsEmpty | stack.go:51-53 | whether there is no element |
| Stacks.Stack.Clone | stack.go:24-33 | a new stack with equal contents |
| Stacks.Stack.PushAllTo | stack.go:39-49 | the target has all elements on top, in order; this stack is unchanged |
| Stacks.Stack.GetExpressions | datastack.go:26-36 | the topmost `n` values, lowest first, or nothing if there are fewer |
| Stacks.Stack.PopExpressions | datastack.go:38-45 | the same values, removed; nothing is removed if there are fewer |
| GeneratorObjects.Generator.Generate | generator.go:600-624 | appends exactly the specified code and leaves `tail` and `scopes` as specified, or fails as specified |
| GeneratorObjects.Generator.GenerateAll | generator.go:626-634 | the loop over operands emits their codes one after another and stops at the first error |
| GeneratorObjects.Generator.GenerateBegin | generator.go:46-64 | the loop that saves and restores `tail` and emits pops |
| GeneratorObjects.Generator.BuildSexpFun | generator.go:66-110 | parameters in place, the rest parameter recognised, prologue, body in tail position, return |
| GeneratorObjects.Generator.GeneratePuts | generator.go:99-101 | the descending loop emits one `put` per name, last name first |
| GeneratorObjects.Generator.GenerateFn | generator.go:112-134 | a closure of the function that a generator of its own compiled |
| GeneratorObjects.Generator.GenerateDef | generator.go:136-157 | the value outside tail position, `put`, null; `tail` stays cleared |
| GeneratorObjects.Generator.GenerateDefn | generator.go:159-190 | the compiled function as a constant, `put`, null |
| GeneratorObjects.Generator.GenerateShortCircuit | generator.go:272-293 | the backward loop over sub-generators emits the specified branches |
| GeneratorObjects.Generator.GenerateCond | generator.go:295-339 | the backward loop over clauses emits the specified branches and jumps, and nothing on an error |
| GeneratorObjects.Generator.CondClauses | generator.go:300-335 | the loop from the last clause to the first, with the offsets of branches and jumps |
| GeneratorObjects.Generator.GenerateQuote | generator.go:341-346 | pushes every argument, however many there are |
| GeneratorObjects.Generator.GenerateLet | generator.go:348-408 | scope count, bindings in order, body, and an error that leaves the scope counted |
| GeneratorObjects.Generator.ReadBindings | generator.go:353-376 | names and right-hand sides in pairs; an odd count or a name that is no symbol is an error |
| GeneratorObjects.Generator.GenerateAssert | generator.go:410-425 | a branch over an error return |
| GeneratorObjects.Generator.GenerateNamedCall | generator.go:554-572 | clears and restores `tail` around the operands, then a call, or removals and a jump |
| GeneratorObjects.Generator.GenerateCallBySymbol | generator.go:506-573 | the special forms by name, otherwise a call or, in tail position, removals and a jump |
| GeneratorObjects.Generator.GenerateDispatch | generator.go:575-580 | goes on after errors in operands and operator |
| GeneratorObjects.Generator.GenerateCall | generator.go:582-589 | by symbol, or computed |
| GeneratorObjects.Generator.GenerateArray | generator.go:591-598 | the elements and a call of `array` |
| GeneratorObjects.Generator.GenerateSyntaxQuote | generator.go:644-669 | templates of lists and arrays; errors inside are dropped |
| GeneratorObjects.Generator.GenerateSyntaxQuoteList | generator.go:671-719 | unquote, splice, or a marker, the elements and a squash |
| GeneratorObjects.Generator.GenerateSyntaxQuoteArray | generator.go:721-741 | a marker, each element squashed and exploded, and a vectorize |
| VmObjects.Glisp.Jump | vm.go:23-30 | moves within the function, and fails past either end |
| VmObjects.Glisp.Goto | vm.go:40-46 | likewise to an absolute place |
| VmObjects.Glisp.Branch | vm.go:63-73 | pops the condition and jumps or goes on |
| VmObjects.Glisp.PushInstrClosure | vm.go:83-117 | pushes the function with what it captures |
| VmObjects.Glisp.CaptureScope | vm.go:92-107 | the scan loop captures exactly the local bindings that the instructions name |
| VmObjects.Glisp.LookupSymbolNonGlobal | scopes.go:39-63 | the index loop finds the innermost local binding |
| VmObjects.Glisp.LookupSymbol | scopes.go:39-58 | the global scope comes last |
| VmObjects.Glisp.BindSymbol | scopes.go:69-75 | binds in the innermost scope |
| VmObjects.Glisp.ExecExplode | vm.go:296-312 | a proper list is replaced by its elements in order; anything else fails |
| VmObjects.Glisp.PopToMarker | vm.go:320-336 | the popping loop takes the values above the topmost marker, in order, and the marker, and fails only where there is none |
| VmObjects.Glisp.ExecSquash | vm.go:320-336 | what stands above the marker becomes one list |
| VmObjects.Glisp.ExecVectorize | vm.go:382-398 | what stands above the marker becomes one array |
| VmObjects.Glisp.WrangleOptargs | environment.go:159-175 | the arguments beyond the fixed ones become one list on the stack |
| VmObjects.Glisp.CallFunction | environment.go:177-214 | argument check, new scope stack from the capture, saved address and scope stack |
| VmObjects.Glisp.ReturnFromFunction | environment.go:216-237 | the caller's function, instruction and scope stack |
| VmObjects.Glisp.CallUserFunction | environment.go:239-271 | arguments popped, address saved around the builtin, result pushed |
| VmObjects.Glisp.CallNamed | vm.go:205-223 | a builtin name wins over every binding |
| VmObjects.Glisp.CallTop | vm.go:233-247 | calls the function on top of the stack |
| VmObjects.Glisp.MapArray | arrayutils.go:7-19 | the loop of nested runs |
| VmObjects.Glisp.MapList | listutils.go:104-132 | head first, then the tail |
| VmObjects.Glisp.Apply | environment.go:506-527 | builtins directly, script functions by a nested run |
| VmObjects.Glisp.Step | environment.go:546-562 | one instruction; at the end of the run the value is popped |
| VmObjects.Glisp.Run | environment.go:589-601 | the loop until the machine is done |
| VmObjects.Glisp.Execute | vm.go:23-398 | every instruction changes the fields and stacks as the specification's machine does, and fails where it does |
| VmObjects.Glisp.LoadExpressions | environment.go:348-362 | the program's code is appended to the main function, after a `pop` if a run is unfinished |
| VmObjects.Glisp.EvalString | environment.go:375-382 | read, load, run |
| Symbols.MakeSymbolKeeps | environment.go:135-145 | interning keeps the two tables inverse to each other and renumbers nothing |
| Symbols.NumbersDense | environment.go:135-145 | names are numbered from 1 in the order in which they are first seen, without gaps |
| Symbols.SameSymbolSameName | environment.go:135-145 | two symbols made by one environment are the same if and only if their names are |
| Symbols.SymbolTable.MakeSymbol | environment.go:135-145 | interns in place |
| TwoPhase.PeekStands | lexer.go:342-365 | peeking shows the next token and moves nothing, except that a last atom at the end of the input is lost |
| TwoPhase.GetStands | lexer.go:367-374 | getting takes exactly the next token |
| TwoPhase.ExpressionAgrees | parser.go:140-223 | one expression is read, or refused, as from the complete list of tokens |
| TwoPhase.ListAgrees | parser.go:18-76 | likewise lists and dotted pairs, open or closed |
| TwoPhase.ItemsAgree | parser.go:78-138 | likewise arrays and hash literals |
| TwoPhase.ReadsInTwoPhases | parser.go:225-240 | every input is read as if it were lexed completely first: same expressions, same failure, same symbols |
| Printing.FeedValue | expressions.go:54-76 | lexing a printed value, whatever follows, gives exactly its tokens |
| Printing.TakeValue | parser.go:140-223 | parsing these tokens, whatever follows, gives the value and leaves the symbols alone |
| Printing.ItoaAtom | expressions.go:135-137 | a printed integer is one decimal token, and 64-bit integers are read back |
| Printing.RoundTrip | expressions.go:54-108 | any number of readable values, printed and separated by spaces, are read back as exactly these values |
| Exactness.StringExact | expressions.go:147-149 | a string is read back if and only if its characters are printable or one of newline, carriage return, tab, bell |
| Exactness.SymbolExact | lexer.go:159-196 | a symbol is read back if and only if its name has no special character and is classified as a symbol |
| Exactness.DigitFreeNames | lexer.go:100-110 | names without digits that are no keyword and have no special character are classified as symbols |
| Exactness.LiteralExact | expressions.go:143-145 | an ASCII character is read back if and only if it is one of four controls, or visible and not special |
| PrintedText.SignExact | expressions.go:135-137 | an integer prints as its decimal digits without a leading zero, after a minus sign if it is negative |
| PrintedText.WorthExact | expressions.go:135-137 | a string of digits is worth the sum of its digits by the powers of the base, the last one lowest |
| PrintedText.DigitWorth | parser.go:188-211 | the worth of each digit in base 10 and of each hexadecimal digit in either case |
| PrintedText.HexExact | expressions.go:147-149 | a code point is escaped by its lower-case hexadecimal digits, filled with zeros to the width |
| PrintedText.EscapesExact | expressions.go:147-149 | which escape each character of a string prints as |
| PrintedText.StringPrints | expressions.go:147-149 | a string prints character by character |
| PrintedText.StringMarks | expressions.go:147-149 | it stands between quotation marks, and a mark or a backslash in it behind a backslash |
| PrintedText.StringIsPrintable | expressions.go:147-149 | whatever it holds, a string prints as printable characters only |
| PrintedText.ConstantsPrint | expressions.go:23-196 | the fixed texts, symbols as their names, functions by their names |
| PrintedText.CharactersPrint | expressions.go:143-145 | a printable character behind a number sign, four controls by their letters, and what is no character as the replacement character |
| PrintedText.ItemsPrint | expressions.go:97-108 | elements are separated by single spaces |
| PrintedText.SequencesPrint | expressions.go:54-108 | arrays in brackets, lists in parentheses, and a pair whose tail is no list with a dot |
| ReaderForms.CommentVanishes | lexer.go:237-243 | a comment outside strings changes nothing of what is read, and does not end the atom before it |
| ReaderForms.PrefixReads | parser.go:156-183 | before a printed value `'` reads as the list of the symbol `quote` and the value, a backquote as that of `syntax-quote`, and `~@` as that of `unquote-splicing` |
| ReaderForms.TildeExact | lexer.go:263-274 | tilde before a printed value reads as the value unquoted if and only if it prints as an atom that does not begin with `@` |
| ReaderForms.NumeralExact | parser.go:194-211 | a string of digits in base 16, 8 or 2, in either case and with leading zeros, reads as its positional value if that is below 2 to the 63, and is an error otherwise |
| ReaderForms.HashReads | parser.go:108-138 | printed values in braces read as the list of the symbol `hash` and the values, in order |
| ReaderForms.EscapeReads | lexer.go:124-144 | in a string a backslash and one of eight letters read as one character, and any other character behind a backslash is an error |
| ReaderForms.MarksInAtoms | lexer.go:279-315 | inside an atom a quotation mark, quote, backquote or tilde is an error of its own |
| ReaderForms.WordsRead | parser.go:148-187 | `nil` reads as the empty list, `true` and `false` as the booleans |
| Encoding.Utf8Exact | parser.go:212-213 | the bytes of a character are its UTF-8 encoding: the first announces their number, and they stand for its code point |
| ReaderObjects.Lexer.LexNextRune | lexer.go:237-340 | the state machine in place |
| ReaderObjects.Lexer.DumpBuffer | lexer.go:198-211 | the buffer becomes one token, or stays when it is none |
| ReaderObjects.Lexer.DumpString | lexer.go:213-217 | the buffer becomes one string token |
| ReaderObjects.Lexer.PeekNextToken | lexer.go:342-365 | the loop that reads until there is a token, or the input ends |
| ReaderObjects.Lexer.GetNextToken | lexer.go:367-374 | the same, and the token is removed |
| ReaderObjects.Parser.ParseExpression | parser.go:140-223 | one expression off the shared lexer |
| ReaderObjects.Parser.ParseList | parser.go:18-76 | lists, with look-ahead for the dot |
| ReaderObjects.Parser.ParseItems | parser.go:78-138 | the appending loop of arrays and hashes |
| ReaderObjects.Parser.ParseArray | parser.go:78-106 | the elements up to the closing bracket |
| ReaderObjects.Parser.ParseHash | parser.go:108-138 | the list of the symbol `hash` and the elements |
| ReaderObjects.ParseTokens | parser.go:225-240 | all expressions, or those before an error |
| ReaderObjects.ShowPair | expressions.go:54-76 | the printing loop over a chain of pairs |
| ReaderObjects.ShowArray | expressions.go:97-108 | the printing loop over an array |
| ReaderObjects.Show | expressions.go:54-149 | every value prints as specified |
| Comparison.CompareArray | comparisons.go:105-132 | the index loop compares element by element, then lengths |
| Comparison.CompareIntsExact | comparisons.go:42-53 | comparing integers by subtraction is right if and only if the difference fits in 64 bits |
| Comparison.CompareCharsExact | comparisons.go:42-66 | comparing two characters is right if and only if the difference fits in 32 bits, and a character and an integer if and only if it fits in 64 |
| Comparison.CompareSign | comparisons.go:166-195 | a comparison gives -1, 0 or 1 |
| Comparison.CompareFlips | comparisons.go:166-195 | swapping the arguments flips the sign, through nested pairs and arrays |
| Comparison.CompareTransitive | comparisons.go:166-195 | two steps up are one step up, which succeeds, and is strict if either of them is |
| Ordering.CompareExact | comparisons.go:166-195 | where the differences fit, -1 means below, 1 above and 0 level, said without `Compare`: numbers by size, false below true, symbols by number, pairs by head and then tail, arrays by the first difference and then by length, null below all else; and no result if and only if none of these holds |
| Ordering.StringsBelow | comparisons.go:68-75 | a string is below another if and only if it ends or has the smaller character where they first differ |
| Ordering.StringsByBytes | comparisons.go:68-75 | comparing strings by characters is comparing their UTF-8 bytes |
| HashTables.FnvStarts | hashutils.go:16-22 | the hash of strings has the published values of 32-bit FNV-1 |
| HashTables.HashExact | hashutils.go:9-26 | numbers, characters and symbols hash to their numbers, strings to the hash of their bytes, and nothing else can be a key |
| HashTables.SameKeyIsCanon | hashutils.go:9-26 | on keys `Compare == 0` is an equivalence, and equal keys hash alike |
| HashTables.GetRefines | hashutils.go:146-164 | lookup in the buckets is lookup in the map |
| HashTables.SetRefines | hashutils.go:166-198 | setting changes the map at the key and nowhere else |
| HashTables.DeleteRefines | hashutils.go:200-222 | deleting removes the key from the map and nothing else |
| HashTables.HistoryRefines | hashutils.go:146-230 | after every history of sets, deletes and clears the table represents the map of that history, one entry per key |
| HashTables.LookupAfterHistory | hashutils.go:146-164 | lookup after a history gives what the abstract map holds, or the default |
| HashCounting.CounterExact | hashutils.go:200-222 | the counter is the number of entries if and only if no delete missed a key whose bucket exists |
| HashCounting.DeletedTwice | hashutils.go:200-222 | deleting a key twice makes the counter wrong |
| HashCounting.OrderIsFirstSets | hashutils.go:166-198 | after sets only, the key order is the order of first insertion, each key once |
| HashCounting.FoldsVisitAll | hashutils.go:52-99 | after sets only, folds and maps visit every entry once and report no inconsistency |
| HashCounting.FoldExact | hashutils.go:52-99 | after any history of sets, deletes and clears a fold or map succeeds if and only if every key that was ever set is there, with another value than the one that stands for a missing key; it then visits the entries in the order in which keys were added, and each of them once if and only if no key was added again after it had gone |
| HashCounting.FoldAfterDelete | hashutils.go:52-99 | after deleting a key, a fold fails if and only if the key had been there |
| HashObjects.Hash.HashGetDefault | hashutils.go:146-164 | the search loop in the bucket |
| HashObjects.Hash.HashSet | hashutils.go:166-198 | replaces in place or appends, and keeps order and counter |
| HashObjects.Hash.HashDelete | hashutils.go:200-222 | removes from the bucket and counts down even when nothing was found |
| HashObjects.Hash.Clear | hashutils.go:224-230 | empties the buckets and the counter |
| HashObjects.Hash.HashCountKeys | hashutils.go:232-241 | counts the entries of all buckets and stops on a wrong counter |
| HashObjects.Hash.FoldlHash | hashutils.go:52-72 | folds over the entries in key order |
| HashObjects.Hash.MapHash | hashutils.go:74-99 | maps over the entries in key order |
| HashObjects.MakeHash | hashutils.go:101-127 | sets the pairs one after another, from the first to the last |
| HashObjects.LiteralMeans | hashutils.go:101-127 | a hash literal has, under each key, the value after the last key equal to it, and nothing under any other |
| HashObjects.FoldMeans | hashutils.go:52-72 | a fold calls the function for each entry in turn with the pair of its key and value and what the call before gave; its result is what the last call gives, and there is none if and only if a call fails |
| HashObjects.MapMeans | hashutils.go:74-99 | a map gives, in its place, what the function gives the pair of each key and value |
| Delivery.NextInv | environment.go:494-587 | every atomic step of every thread keeps the invariant of queue, buffers and locks |
| Delivery.BytesConserved | extensions/os.go:245-275 | in every interleaving delivered batches, the batch in hand and the buffer are the added bytes, in order |
| Delivery.OneRunner | extensions/os.go:245-275 | a buffer never has two runners outstanding, and has one whenever it is unlocked and not empty |
| Delivery.CallbacksConserved | environment.go:494-587 | called callbacks, those left in the drained copy and those queued are the submissions, once each and in order |
| Delivery.FlagExact | environment.go:494-500 | with the lock free the flag is set if and only if the queue is not empty |
| Delivery.DrainingNeverNests | environment.go:568-587 | draining is never active twice, although callbacks may start it |
| Progress.RunNeverStuck | environment.go:494-587 | no deadlock: in every interleaving, whenever something is left to be done, some thread inside an operation can go on, or a drain can begin |
| Progress.RunDrains | environment.go:568-587 | whatever the threads did before, once the producers rest the machine thread alone comes to rest, with every submitted callback called, in order, and every added byte delivered |
| Endings.ClosedExact | extensions/os.go:245-253 | a buffer is closed if and only if some producer has added no bytes to it |
| Endings.EndDelivered | extensions/os.go:255-271 | no empty batch is delivered from a buffer that is not closed, and when nothing is left to be done a closed buffer has delivered an empty batch last |
| Endings.StreamEnds | extensions/os.go:255-271 | whatever the threads did before, once the producers rest the machine thread alone delivers every byte of a closed buffer and then an empty batch |
| Endings.EndsCounted | extensions/os.go:255-271 | each call of a runner delivers at most one empty batch |

## Left out

- Macros, `eval`, `macexpand`, `defmac`, `include`, `import` and sourcing of files: they run the machine at compile time in a copy of the environment, or read files. Programs are taken as already expanded.
- GeneratorObjects.Generator.BuildSexpFun: one constant stands for the generated names of all anonymous functions, which are not interned here, so a program that calls something by that name is outside the well-formed ones.
- VmObjects.Glisp.EvalString: for the same reason says that the symbol table is the one after reading, while the source has interned one name more per anonymous function.
- GeneratorObjects.Generator.GenerateCallBySymbol: the forms of the first line end generation with a fault of their own.
- GeneratorObjects.Generator.GenerateSyntaxQuote: a hash inside a template is not modelled, since hashes are no values of programs here.
- VmObjects.Glisp.Execute: `BindlistInstr`, which the generator never emits, and `HashizeInstr`, which only hash templates emit, are left out.
- VmObjects.Glisp.Run: a function value without any instruction and a program that emits none do not occur; entering one fails here where the source returns nothing.
- VmObjects.Glisp.Apply: likewise for a script function without code.
- Floats, binary data, events, and hashes as values of programs: float literals read as an error of their own. Arithmetic and the other computing builtins are one abstract function.
- `set!`: scopes are values, so the aliasing of scope maps that only `set!` can observe is not there; the saved scope stacks are sequences, not stack objects.
- Hooks before and after calls: treated as none.
- Removing the global scope: the source's stack allows it and fails later, the machine here fails at once; by Safety.StackSafe regular code never does it.
- `AppendList`, `ConcatList` and the folds over lists and arrays: they would add easy members.
- What an erroneous run leaves on the stacks: results are stated for runs without error, and failure only as failure.
- Runs that do not end: correctness speaks of expressions to which the evaluator gives a value; safety and call matching hold of every run, ended or not. The bounds `fuel` and `k` limit depth only; results do not depend on them.
- Stack safety supposes that no text holds the marker, which the reader cannot produce, and that no builtin makes one from arguments without.
- ReaderObjects.Parser.ParseExpression: a float literal is an error of its own here.
- ReaderObjects.Show: hashes, floats, data and events have no printed form here. Reading of invalid UTF-8 is left out.
- HashObjects.Hash.FoldlHash: the callback is a pure function; one that changes the hash it is folded over is not modelled.
- HashObjects.Hash.MapHash: likewise.
- `SetHashKeyOrder`, `FoldrHash` and the other folds.
- Wake-ups through `WaitCond`, `WaitFunction` and `ReadWatcher`, and where empty batches stand among data that is added after a buffer was closed: the last batch is empty, but each call of a runner may deliver one, so there may be several. A callback that itself queues is one more producer.
- File system, process, time, random, regular-expression and channel extensions, the REPL and logging.
