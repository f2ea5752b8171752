# gifttt rules and the twik interpreter, modelled in Dafny

gifttt is a small "if this then that" engine. Each rule is a program in twik,
a tiny Lisp. A rule runs in a scope whose root holds the builtin table of twik
plus a `run` builtin. Above that root sits a global scope. It answers every
symbol the program does not declare from the variable manager, which is a
cache in front of a BoltDB key-value store. So undeclared symbols are
persistent variables that all rules share, kept under the key `var~<name>`.

The model has these modules:

- `Values` holds the syntax tree, the runtime values and the errors.
  - Go's `int64` is modelled with explicit two's-complement wrap-around.
  - Go's `==` on `interface{}` is modelled with its panics on slices and functions.
  - `errorAt` is modelled as well.
- `Builtins` holds the plain builtins of `globals.go`.
  - Each is a specification function.
  - The arithmetic and comparison builtins are also methods with the accumulator loops of the source, proved to compute their specification.
- `Variables` holds the variable manager and the store.
  - `Lookup` and `Assign` are the pure specification.
  - The classes `KvStore` and `VariableManager` update their fields in place.
- `Commands` holds the argument checking of `run`.
- `Scope` models the default scopes.
  - Every `DefaultScope` object is a frame in an arena, named by its index. It holds its own map of variables and a link to its parent: none, another frame, or the global scope.
  - `Get`, `Create`, `Set`, `Branch` and `Enclose` are functions on that state. They are also methods of the class `Scopes`, which updates the frames in place.
- `Eval` is the evaluator: `Eval`, `call` and every special form.
  - It works on a `World`: the frames, the variable manager, and one cell per closure.
  - A closure made by `func` reassigns its captured `scope` variable on every call. Go captures that variable by reference, so all copies of a closure share one cell.
  - Every evaluation is bounded by a `fuel` count.
  - Every evaluation keeps the world's invariant `WorldOk`.
  - Every evaluation changes the world only as `Grows` allows: no scope is removed, and only the scopes it was given gain symbols.
- `EvalLaws` proves what the language promises about evaluation order, short-circuiting, binding and looping.
- `Rules` holds `NewGlobalScope` and the class `Rule`, with its constructor (`NewRule`) and `Run`.

Paths in the table are relative to the repository root.

## Model

| member | source | states |
|---|---|---|
| Values.WrapFacts | Godeps/_workspace/src/github.com/drtoful/twik/globals.go:157-177 | an int64 result equals the exact result when it is in range, and otherwise differs from it by a multiple of 2^64 (Go's wrap-around) |
| Values.WrapOfWrap | Godeps/_workspace/src/github.com/drtoful/twik/globals.go:157-211 | wrapping after every addition, as the accumulator loop does, gives the same int64 as wrapping the exact sum once |
| Values.WrapOfWrapTimes | Godeps/_workspace/src/github.com/drtoful/twik/globals.go:213-233 | wrapping after every multiplication gives the same int64 as wrapping the exact product once |
| Values.GoEqual | Godeps/_workspace/src/github.com/drtoful/twik/globals.go:54-66 | Go's `==` on interface values: it panics exactly when both operands have the same uncomparable dynamic type, and it is true exactly when they are equal and comparable |
| Values.GoEqualSymmetric | Godeps/_workspace/src/github.com/drtoful/twik/globals.go:54-66 | `a == b` and `b == a` agree, including on panics |
| Values.ErrorAtWrapsOnce | Godeps/_workspace/src/github.com/drtoful/twik/scope.go:101-106 | errorAt gives a plain error the position and leaves an already positioned error (or a panic) alone, so a second errorAt changes nothing |
| Builtins.FirstNonInt64 | Godeps/_workspace/src/github.com/drtoful/twik/globals.go:157-177 | the operand an arithmetic loop stops at is the first one that is not an int64, and every operand before it is an int64 |
| Builtins.TruncDivIsGoDivision | Godeps/_workspace/src/github.com/drtoful/twik/globals.go:235-267 | the modelled `/` truncates toward zero, as Go does: the remainder is smaller than the divisor in magnitude and has the dividend's sign |
| Builtins.DivideFrom | Godeps/_workspace/src/github.com/drtoful/twik/globals.go:235-267 | a successful chain of divisions yields an int64 |
| Builtins.QuotientOfTwo | Godeps/_workspace/src/github.com/drtoful/twik/globals.go:235-267 | `(/ a b)` panics with Go's integer-divide-by-zero exactly when b is 0; otherwise it is the wrapped truncated quotient |
| Builtins.Add | Godeps/_workspace/src/github.com/drtoful/twik/globals.go:157-177 | the `+` loop returns the wrapped sum of the int64 operands (0 for none), or an error at the first non-int64 operand |
| Builtins.Subtract | Godeps/_workspace/src/github.com/drtoful/twik/globals.go:179-211 | the `-` loop fails with no operands, negates a single operand, and otherwise subtracts the rest from the first, with wrap-around |
| Builtins.Multiply | Godeps/_workspace/src/github.com/drtoful/twik/globals.go:213-233 | the `*` loop returns the wrapped product (1 for none), or an error at the first non-int64 operand |
| Builtins.Divide | Godeps/_workspace/src/github.com/drtoful/twik/globals.go:235-267 | the `/` loop needs two or more operands and divides the first by each later one in order; a zero divisor panics |
| Builtins.Comparison | Godeps/_workspace/src/github.com/drtoful/twik/globals.go:68-115 | `>`, `>=`, `<` and `<=` succeed exactly on two int64 operands, and then answer the comparison of the two |
| Builtins.Compare | Godeps/_workspace/src/github.com/drtoful/twik/globals.go:68-99 | cmpFn's loop (add the first operand, subtract the second, test the sign) computes the comparison |
| Builtins.Equal | Godeps/_workspace/src/github.com/drtoful/twik/globals.go:54-59 | `==` needs exactly two values; when it does not panic, it is true exactly when they are equal |
| Builtins.NotEqual | Godeps/_workspace/src/github.com/drtoful/twik/globals.go:61-66 | `!=` needs exactly two values; when it does not panic, it is true exactly when they differ |
| Builtins.EqualAndNotEqualAgree | Godeps/_workspace/src/github.com/drtoful/twik/globals.go:54-66 | on two values, `==` and `!=` succeed together and give opposite answers |
| Builtins.RaiseError | Godeps/_workspace/src/github.com/drtoful/twik/globals.go:45-52 | `error` always fails; the message is the caller's exactly when it gets one string argument |
| Builtins.Nth | Godeps/_workspace/src/github.com/drtoful/twik/globals.go:133-146 | `nth` succeeds exactly on a list and an in-range int64 index, and returns that element; an index at or past the end is "index out of bounds" |
| Builtins.Length | Godeps/_workspace/src/github.com/drtoful/twik/globals.go:148-155 | `length` succeeds exactly on one list argument and returns its element count |
| Builtins.Explode | Godeps/_workspace/src/github.com/drtoful/twik/globals.go:117-131 | splitting on the empty separator gives one piece per character: piece k is exactly the k-th character |
| Builtins.ExplodeJoins | Godeps/_workspace/src/github.com/drtoful/twik/globals.go:117-131 | joining the characters of an empty-separator split gives back the text |
| Builtins.SplitOn | Godeps/_workspace/src/github.com/drtoful/twik/globals.go:117-131 | a split on a non-empty separator has at least one piece; no piece contains the separator; the separator after each piece is its first occurrence from that piece on; a single piece is the whole text, and otherwise the text starts with the first piece and the separator |
| Builtins.GlueFirst | Godeps/_workspace/src/github.com/drtoful/twik/globals.go:117-131 | a character that does not start the separator, glued onto the first piece of a split, keeps every piece free of the separator and every cut at the first occurrence |
| Builtins.SplitOnJoins | Godeps/_workspace/src/github.com/drtoful/twik/globals.go:117-131 | joining the pieces of a split on a non-empty separator with that separator gives back the text |
| Builtins.SplitJoins | Godeps/_workspace/src/github.com/drtoful/twik/globals.go:117-131 | for every separator, joining the pieces of a split gives back the text |
| Builtins.Split | Godeps/_workspace/src/github.com/drtoful/twik/globals.go:117-131 | `split` succeeds exactly when its first two arguments are strings, and otherwise fails with its message; its list of strings joined with the separator gives back the text; an empty separator gives one item per character; a non-empty one gives at least one item, none containing the separator, each cut at the first occurrence |
| Builtins.Texts | Godeps/_workspace/src/github.com/drtoful/twik/globals.go:117-131 | the texts of a list of strings, item by item |
| Builtins.Apply | Godeps/_workspace/src/github.com/drtoful/twik/globals.go:45-267 | every plain builtin except `nth` returns data, never a function |
| Commands.CommandLine | gifttt/rule.go:111-124 | runFn accepts exactly one or more string arguments, and the command line is those strings in order; it rejects no arguments and non-strings with the source's messages |
| Commands.Run | gifttt/rule.go:111-137 | `run` returns nil once its arguments are accepted, and otherwise returns the argument error |
| Commands.CollectCommand | gifttt/rule.go:116-123 | the loop collects exactly the accepted command line before anything is executed |
| Variables.StoreKeyInjective | gifttt/rule.go:15-18 | with the `var~` prefix, two variables share a store key exactly when they have the same name |
| Variables.LookupPrefersCache | gifttt/rule.go:37-41 | a cached variable is answered from the cache, whatever the store holds |
| Variables.LookupReadsStore | gifttt/rule.go:43-48 | an uncached variable is read from the store under its prefixed key; a miss or a failing store is "undefined symbol" |
| Variables.AssignSameIsNoOp | gifttt/rule.go:60-64 | setting a variable to the comparable value it already holds changes nothing and writes nothing |
| Variables.AssignWritesThrough | gifttt/rule.go:66-74 | setting a new value caches it and writes it to the store; if the store fails, the error is returned but the cache is updated anyway |
| Variables.AssignRefusesFunctions | gifttt/rule.go:66-70 | a value that JSON cannot encode (a function) is refused, and neither the cache nor the store changes, when the name is unset or holds a value of another kind |
| Variables.AssignThenLookup | gifttt/rule.go:37-75 | after a set that got as far as the cache, a get returns the value set |
| Variables.AssignLeavesOthers | gifttt/rule.go:59-75 | a set leaves every other variable's lookup and cache entry as they were |
| Variables.AssignKeepsVarsOk | gifttt/rule.go:59-75 | the cache and the store only ever hold encodable data |
| Variables.LookupIsData | gifttt/rule.go:37-57 | a successful get returns encodable data |
| Variables.KvStore.constructor | gifttt/store.go:30-61 | a store with the given contents and failure mode |
| Variables.KvStore.Get | gifttt/store.go:85-101 | the store's read: the stored value, or nothing when the key is missing or the database fails |
| Variables.KvStore.Set | gifttt/store.go:70-82 | the store's write: the key is updated unless the database fails, which is reported |
| Variables.VariableManager.constructor | gifttt/rule.go:28-35 | the manager starts with an empty cache over the store |
| Variables.VariableManager.Get | gifttt/rule.go:37-57 | the manager's get returns `Lookup` of its state and changes nothing |
| Variables.VariableManager.Set | gifttt/rule.go:59-75 | the manager's set leaves the cache and the store as `Assign` says, and returns its error |
| Scope.SetVar | Godeps/_workspace/src/github.com/drtoful/twik/scope.go:67-78 | a set adds or removes no symbol in any scope and changes no parent; the variable manager either stays as it was or receives exactly this assignment |
| Scope.Chain | Godeps/_workspace/src/github.com/drtoful/twik/scope.go:82-92 | the scopes a lookup visits start at the scope itself and are all existing scopes |
| Scope.ChainEnd | Godeps/_workspace/src/github.com/drtoful/twik/scope.go:82-92 | every chain of parents ends, either with no parent or at the global scope |
| Scope.GetFindsShallowest | Godeps/_workspace/src/github.com/drtoful/twik/scope.go:82-92 | Get returns the binding of the first scope along the parents that defines the symbol |
| Scope.GetPastChain | Godeps/_workspace/src/github.com/drtoful/twik/scope.go:82-92 | a symbol no default scope defines is answered by the variable manager past the global scope, and is "undefined symbol" otherwise |
| Scope.SetChangesShallowest | Godeps/_workspace/src/github.com/drtoful/twik/scope.go:67-78 | Set overwrites the symbol in the first scope that defines it and changes nothing else |
| Scope.SetPastChain | Godeps/_workspace/src/github.com/drtoful/twik/scope.go:67-78 | a symbol no default scope defines is assigned through the variable manager past the global scope, and is "cannot set undefined symbol" otherwise |
| Scope.CreateThenGet | Godeps/_workspace/src/github.com/drtoful/twik/scope.go:54-63 | Create succeeds exactly when the scope does not bind the symbol yet, fails without changing anything otherwise, and a Get then finds the value |
| Scope.CreateLeavesOthers | Godeps/_workspace/src/github.com/drtoful/twik/scope.go:54-63 | Create touches only the one symbol in the one scope |
| Scope.GetIgnoresNewFrames | Godeps/_workspace/src/github.com/drtoful/twik/scope.go:82-97 | scopes created later do not change what Get finds from an older scope |
| Scope.BranchShadows | Godeps/_workspace/src/github.com/drtoful/twik/scope.go:94-97 | a new branch sees its parent's bindings; a symbol created in the branch shadows the parent's and leaves the parent as it was |
| Scope.TableMapKeys | Godeps/_workspace/src/github.com/drtoful/twik/scope.go:44-50 | the map built from a table binds exactly the table's names |
| Scope.TableMapLastWins | Godeps/_workspace/src/github.com/drtoful/twik/scope.go:44-50 | writing a table entry by entry binds each name to the value of its last entry |
| Scope.GlobalsInstalled | Godeps/_workspace/src/github.com/drtoful/twik/scope.go:44-50 | a new default scope binds every name of the builtin table, and does not bind `run` |
| Scope.Scopes.constructor | Godeps/_workspace/src/github.com/drtoful/twik/scope.go:27-31 | no scopes yet, over the given variable manager |
| Scope.Scopes.NewDefaultScope | Godeps/_workspace/src/github.com/drtoful/twik/scope.go:44-50 | the loop adds one parentless scope holding the builtin table, written entry by entry |
| Scope.Scopes.Create | Godeps/_workspace/src/github.com/drtoful/twik/scope.go:54-63 | the new state and the error are those of `CreateVar` |
| Scope.Scopes.Set | Godeps/_workspace/src/github.com/drtoful/twik/scope.go:67-78 | the recursive set over the parents leaves the state and the error that `SetVar` gives |
| Scope.Scopes.Branch | Godeps/_workspace/src/github.com/drtoful/twik/scope.go:94-97 | a new empty scope whose parent is the given scope |
| Scope.Scopes.Enclose | Godeps/_workspace/src/github.com/drtoful/twik/scope.go:166-169 | the scope's parent is replaced, and the result is never an error |
| Eval.GetIn | Godeps/_workspace/src/github.com/drtoful/twik/scope.go:82-92 | what Get returns in a sound world refers only to existing closure cells |
| Eval.CreateIn | Godeps/_workspace/src/github.com/drtoful/twik/scope.go:54-63 | Create keeps the world sound and touches only its own scope |
| Eval.SetIn | Godeps/_workspace/src/github.com/drtoful/twik/scope.go:67-78 | Set keeps the world sound and adds or removes no symbol anywhere |
| Eval.BranchIn | Godeps/_workspace/src/github.com/drtoful/twik/scope.go:94-97 | Branch keeps the world sound, adds the new scope at the end, and touches no existing scope |
| Eval.CallBranchIn | Godeps/_workspace/src/github.com/drtoful/twik/globals.go:434 | a call's new branch of the captured scope, with the closure's cell moved to it, keeps the world sound |
| Eval.BuiltinIn | Godeps/_workspace/src/github.com/drtoful/twik/globals.go:45-267 | a plain builtin returns no closure it was not given |
| Eval.Eval | Godeps/_workspace/src/github.com/drtoful/twik/scope.go:109-146 | evaluating any node keeps the world sound, only adds scopes and cells, and gives symbols only to the scope it runs in |
| Eval.RootSeq | Godeps/_workspace/src/github.com/drtoful/twik/scope.go:136-143 | the top-level loop keeps the world sound and changes only its own scope |
| Eval.RootSeqNext | Godeps/_workspace/src/github.com/drtoful/twik/scope.go:137-141 | one step of the top-level loop keeps the world sound |
| Eval.Call | Godeps/_workspace/src/github.com/drtoful/twik/scope.go:148-164 | call keeps the world sound, whatever it calls |
| Eval.EvalArgs | Godeps/_workspace/src/github.com/drtoful/twik/scope.go:152-161 | the argument loop keeps the world sound and gives one value per argument |
| Eval.EvalArgsNext | Godeps/_workspace/src/github.com/drtoful/twik/scope.go:154-159 | one argument step keeps the world sound and keeps the count of values |
| Eval.Apply | Godeps/_workspace/src/github.com/drtoful/twik/scope.go:152-161 | applying a builtin, `run` or a closure to values keeps the world sound and gives no existing scope a symbol |
| Eval.ApplyClosure | Godeps/_workspace/src/github.com/drtoful/twik/globals.go:419-448 | a closure call keeps the world sound and gives symbols only to scopes it creates |
| Eval.BindParams | Godeps/_workspace/src/github.com/drtoful/twik/globals.go:435-440 | parameter binding keeps the world sound and touches only the new branch |
| Eval.ClosureBody | Godeps/_workspace/src/github.com/drtoful/twik/globals.go:441-447 | the body loop keeps the world sound and changes only the scope its cell holds |
| Eval.EvalBody | Godeps/_workspace/src/github.com/drtoful/twik/globals.go:476-481 | a body loop in one scope keeps the world sound and changes only that scope |
| Eval.Special | Godeps/_workspace/src/github.com/drtoful/twik/globals.go:269-544 | every special form keeps the world sound and changes only the calling scope |
| Eval.AndSeq | Godeps/_workspace/src/github.com/drtoful/twik/globals.go:269-283 | `and` keeps the world sound |
| Eval.OrSeq | Godeps/_workspace/src/github.com/drtoful/twik/globals.go:285-299 | `or` keeps the world sound |
| Eval.IfForm | Godeps/_workspace/src/github.com/drtoful/twik/globals.go:301-316 | `if` keeps the world sound |
| Eval.WhenForm | Godeps/_workspace/src/github.com/drtoful/twik/globals.go:318-332 | `when` keeps the world sound |
| Eval.UnlessForm | Godeps/_workspace/src/github.com/drtoful/twik/globals.go:334-348 | `unless` keeps the world sound |
| Eval.VarForm | Godeps/_workspace/src/github.com/drtoful/twik/globals.go:350-367 | `var` keeps the world sound and binds only in the calling scope |
| Eval.SetForm | Godeps/_workspace/src/github.com/drtoful/twik/globals.go:369-382 | `set` keeps the world sound and adds no symbol |
| Eval.DoForm | Godeps/_workspace/src/github.com/drtoful/twik/globals.go:384-393 | `do` keeps the world sound and gives no existing scope a symbol |
| Eval.Names | Godeps/_workspace/src/github.com/drtoful/twik/globals.go:409-414 | the parameter names are the names of the parameter symbols, in order |
| Eval.FuncForm | Godeps/_workspace/src/github.com/drtoful/twik/globals.go:395-455 | `func` keeps the world sound and binds only in the calling scope |
| Eval.ForForm | Godeps/_workspace/src/github.com/drtoful/twik/globals.go:457-489 | `for` keeps the world sound and gives no existing scope a symbol |
| Eval.ForLoop | Godeps/_workspace/src/github.com/drtoful/twik/globals.go:467-487 | the `for` loop keeps the world sound and changes only its own branch |
| Eval.CreateQuietly | Godeps/_workspace/src/github.com/drtoful/twik/globals.go:516 | `range`'s Create, with its error ignored, keeps the world sound and touches only the loop's scope |
| Eval.RangeForm | Godeps/_workspace/src/github.com/drtoful/twik/globals.go:491-544 | `range` keeps the world sound and gives no existing scope a symbol |
| Eval.RangeOver | Godeps/_workspace/src/github.com/drtoful/twik/globals.go:515-543 | the dispatch on the collection keeps the world sound and changes only the loop's scope |
| Eval.SetQuietly | Godeps/_workspace/src/github.com/drtoful/twik/globals.go:518 | `range`'s Set, with its error ignored, keeps the world sound; only a panic gets through |
| Eval.RangeInt | Godeps/_workspace/src/github.com/drtoful/twik/globals.go:517-525 | the integer loop keeps the world sound and changes only the loop's scope |
| Eval.RangeIntNext | Godeps/_workspace/src/github.com/drtoful/twik/globals.go:518-524 | one integer iteration keeps the world sound |
| Eval.RangeList | Godeps/_workspace/src/github.com/drtoful/twik/globals.go:531-540 | the list loop keeps the world sound and changes only the loop's scope |
| Eval.RangeListNext | Godeps/_workspace/src/github.com/drtoful/twik/globals.go:532-539 | one list iteration keeps the world sound |
| Eval.EvalRoot | Godeps/_workspace/src/github.com/drtoful/twik/scope.go:136-143 | the imperative top-level loop computes exactly `RootSeq` |
| Eval.CallArgs | Godeps/_workspace/src/github.com/drtoful/twik/scope.go:152-161 | the imperative argument loop, filling one slot per argument, computes exactly `EvalArgs` |
| Eval.EvalProgram | Godeps/_workspace/src/github.com/drtoful/twik/scope.go:109-146 | evaluation as a rule runs it computes `Eval`, keeps the world sound and removes no scope |
| EvalLaws.LiteralsEvaluateToThemselves | Godeps/_workspace/src/github.com/drtoful/twik/scope.go:117-126 | an int, a string or the empty list evaluates to itself and changes nothing |
| EvalLaws.SymbolsAreLookedUp | Godeps/_workspace/src/github.com/drtoful/twik/scope.go:111-116 | a symbol evaluates to what Get finds, changes nothing, and a failed lookup is reported at the symbol's position |
| EvalLaws.RootSeqAppend | Godeps/_workspace/src/github.com/drtoful/twik/scope.go:136-143 | a program's forms run in order: the rest runs in the world the prefix leaves, and an error in the prefix ends the program there |
| EvalLaws.RootSeqStep | Godeps/_workspace/src/github.com/drtoful/twik/scope.go:137-141 | the first top-level form runs first, and the rest run in the world it leaves |
| EvalLaws.RootLocatesErrors | Godeps/_workspace/src/github.com/drtoful/twik/scope.go:138-141 | an error in a top-level form is reported at that form unless it already has a position |
| EvalLaws.EvalArgsAppend | Godeps/_workspace/src/github.com/drtoful/twik/scope.go:152-161 | arguments are evaluated left to right, each in the world the earlier ones leave; the first error stops the rest |
| EvalLaws.EvalArgsStep | Godeps/_workspace/src/github.com/drtoful/twik/scope.go:154-159 | the first argument is evaluated first, and its value is placed before the later ones |
| EvalLaws.NonFunctionHead | Godeps/_workspace/src/github.com/drtoful/twik/scope.go:123-135 | a call evaluates its head first; an error of the head or of the call is reported at the head's position, and a head whose value is not a function fails there, in the world the head's evaluation left |
| EvalLaws.CallDispatches | Godeps/_workspace/src/github.com/drtoful/twik/scope.go:148-163 | a special form receives its argument nodes unevaluated; any other function gets its arguments evaluated left to right and is applied to them, and an argument error ends the call |
| EvalLaws.AndStopsAtFalse | Godeps/_workspace/src/github.com/drtoful/twik/globals.go:269-283 | `and` evaluates no argument after the first `false` |
| EvalLaws.OrStopsAtTrue | Godeps/_workspace/src/github.com/drtoful/twik/globals.go:285-299 | `or` evaluates no argument after the first value that is not `false`, and returns that value |
| EvalLaws.EmptyAndOr | Godeps/_workspace/src/github.com/drtoful/twik/globals.go:269-299 | `(and)` is true and `(or)` is false |
| EvalLaws.IfEvaluatesOneBranch | Godeps/_workspace/src/github.com/drtoful/twik/globals.go:301-316 | `if` evaluates the test, then only the branch the test selects; only `false` selects the else branch |
| EvalLaws.ZeroAndEmptyAreTrue | Godeps/_workspace/src/github.com/drtoful/twik/globals.go:305-315 | 0 and the empty string select the then branch |
| EvalLaws.SkippedBodyIsFalse | Godeps/_workspace/src/github.com/drtoful/twik/globals.go:318-348 | `when` with a false test and `unless` with a non-false test return `false` without evaluating the body |
| EvalLaws.ConditionalArity | Godeps/_workspace/src/github.com/drtoful/twik/globals.go:301-348 | `if`, `when` and `unless` reject a wrong argument count with their messages, before evaluating anything |
| EvalLaws.VarDeclares | Godeps/_workspace/src/github.com/drtoful/twik/globals.go:350-367 | `var x` binds nil and `var x e` the value of e in the calling scope; if the scope already binds x, `var x` fails changing nothing and `var x e` fails in the world e left; an error of e is returned as it is |
| EvalLaws.BindingFormsCheckArguments | Godeps/_workspace/src/github.com/drtoful/twik/globals.go:350-382 | `var` and `set` reject wrong argument counts and a non-symbol first argument with their messages |
| EvalLaws.SetAssigns | Godeps/_workspace/src/github.com/drtoful/twik/globals.go:369-382 | `set x e` assigns the value of e exactly as the scope's Set does |
| EvalLaws.DoHidesDeclarations | Godeps/_workspace/src/github.com/drtoful/twik/globals.go:384-393 | `do` runs in a new branch, so no scope that existed before gains or loses a symbol |
| EvalLaws.FuncBindsItsName | Godeps/_workspace/src/github.com/drtoful/twik/globals.go:449-454 | a named `func` binds its closure in the calling scope and returns it, and fails if the scope already binds the name |
| EvalLaws.AnonymousFunc | Godeps/_workspace/src/github.com/drtoful/twik/globals.go:395-455 | an anonymous `func` binds nothing and returns a closure over the calling scope |
| EvalLaws.ClosureChecksArity | Godeps/_workspace/src/github.com/drtoful/twik/globals.go:420-433 | a closure called with the wrong number of arguments fails with its arity error before doing anything |
| EvalLaws.ParamMapKeys | Godeps/_workspace/src/github.com/drtoful/twik/globals.go:435-440 | the parameter map binds only parameter names |
| EvalLaws.BindParamsBinds | Godeps/_workspace/src/github.com/drtoful/twik/globals.go:435-440 | binding distinct parameters adds exactly the parameter-to-argument map to the new scope |
| EvalLaws.ClosureBindsParams | Godeps/_workspace/src/github.com/drtoful/twik/globals.go:434-447 | a call with the right arity makes a branch of the captured scope, moves the cell to it, binds the parameters there, and runs the body there |
| EvalLaws.RepeatedParamPanics | Godeps/_workspace/src/github.com/drtoful/twik/globals.go:435-439 | a closure with a repeated parameter name panics when called |
| EvalLaws.ForRunsInBranch | Godeps/_workspace/src/github.com/drtoful/twik/globals.go:457-466 | `for` rejects fewer than four arguments; otherwise it runs the init in a new, empty branch of the calling scope, stops on its error, and loops there from nil |
| EvalLaws.ForFalseTestIsNil | Godeps/_workspace/src/github.com/drtoful/twik/globals.go:462-474 | for any init, step and body, a `for` whose test is `false` right after the init returns nil |
| EvalLaws.ForLoopStep | Godeps/_workspace/src/github.com/drtoful/twik/globals.go:467-487 | one round of the loop: a test error ends it; a `false` test returns the last body value; otherwise the body runs, then the step, then the loop again with the body's value, and an error of either ends it |
| EvalLaws.BodyReadsSymbol | Godeps/_workspace/src/github.com/drtoful/twik/globals.go:476-481 | a body that reads a bound symbol returns its value and changes nothing |
| EvalLaws.Rebind | Godeps/_workspace/src/github.com/drtoful/twik/globals.go:518 | the world with one name rebound in one scope |
| EvalLaws.RangeRunsInBranch | Godeps/_workspace/src/github.com/drtoful/twik/globals.go:491-514 | `range` rejects fewer than three arguments and a first argument that is not a name or a pair of names, with their messages; otherwise it evaluates the collection in a new, empty branch of the calling scope, stops on its error, and loops over it there |
| EvalLaws.RangeWithoutIterations | Godeps/_workspace/src/github.com/drtoful/twik/globals.go:514-543 | over an int64 that is not positive, or the empty list, `range` returns the collection after creating its names; over anything else it fails with its message |
| EvalLaws.RangeIntStep | Godeps/_workspace/src/github.com/drtoful/twik/globals.go:517-525 | for any body, one integer iteration sets the index to the int64 i in the loop's scope, runs the body there, and goes on with i+1 and the body's value; a body error ends the loop |
| EvalLaws.RangeIntEndsWithLast | Godeps/_workspace/src/github.com/drtoful/twik/globals.go:517-526 | a `range` over i .. n-1 whose body reads the index ends with n-1 |
| EvalLaws.RangeOverInt | Godeps/_workspace/src/github.com/drtoful/twik/globals.go:509-527 | `range i n i` gives n-1 for a positive n, and n itself when the body never runs |
| EvalLaws.RangeListStep | Godeps/_workspace/src/github.com/drtoful/twik/globals.go:531-540 | for any body, one list iteration sets the index to the int i and then the element to item i in the loop's scope, runs the body there, and goes on with the next item and the body's value; a body error ends the loop |
| EvalLaws.RangeListEndsWithLast | Godeps/_workspace/src/github.com/drtoful/twik/globals.go:528-541 | a `range` over a list whose body reads the element ends with the last item |
| Rules.GlobalFrames | gifttt/rule.go:139-146 | a rule starts with one root scope whose parent is the global scope |
| Rules.GlobalScopeDelegates | gifttt/rule.go:80-96 | the root binds every builtin and `run`; any other symbol is read from and assigned through the variable manager, and the root holds no closure |
| Rules.NewGlobalScope | gifttt/rule.go:139-146 | a default scope enclosed by the global scope, with `run` created in it, over the given manager |
| Rules.Rule.constructor | gifttt/rule.go:154-173 | a rule holds its name and its program, and starts in a fresh global scope over the manager |
| Rules.Rule.Run | gifttt/rule.go:175-178 | running a rule leaves the scopes, the cells, the cache and the store as evaluating the program leaves them, returns its error, and keeps the rule valid |

## Left out

- Floating point: the `float64` paths of the comparisons and of `+`, `-`, `*` and `/`, and the `Float` literal, are not modelled. Only int64 arithmetic is.
- Builtins.Comparison: cmpFn converts to `float64` before comparing. The model compares the exact int64 difference, so it does not model the rounding of very large operands.
- Builtins.Length: states the result only for lists of at most 2^63-1 elements. Longer lists cannot occur in Go.
- JSON: `encoding/json` is modelled as the identity on data values. The model leaves out that decoding turns every stored number into a `float64`. It also leaves out decode errors from corrupt store entries.
- The parser (`twik.Parse`, `ioutil.ReadAll`) is not part of this model. `Rule.constructor` takes an already parsed program, so the read and parse errors of `NewRule` are not modelled.
- Commands.Run: only the argument checks of `run` are modelled. Executing the command (`os/exec`) is I/O and is left out, and its result is ignored as in the source.
- BoltDB is reduced to a map plus a "failing" flag. A missing bucket or key is a read miss, and a failing database refuses all reads and writes.
- The global `_manager` singleton and `GetStore` are passed as explicit objects.
- The global scope's `Create`, `Branch` and `Enclose` only panic with "never reached", and no evaluation calls them. Its `Eval` delegates to the root scope. None of these is modelled.
- Eval.Eval: every evaluation is bounded by a fuel count and ends in `OutOfFuel` when the count runs out. A Go program that loops forever has no modelled result.
- Rules.Rule.Run: takes the fuel bound as a parameter.
- Scope.Scopes.Enclose: accepts only a parent that is an older scope, so every chain of parents ends. The Go method accepts any scope, but the source only ever encloses a new scope by the global scope.
- Source positions are plain numbers, not `FileSet` positions, and error messages are abstracted to one case per kind of message.
- The "not yet implemented" error for an unknown node type is not modelled, because the model's node type has no other cases.
- Concurrency is not modelled: the rule manager, its goroutines and locking, `api.go` and `main.go` are outside this model.
- `VariableManager.Get` reports a store miss as "undefined symbol" (gifttt/rule.go:44-47), and so does the model.
- `VariableManager.Set` emits no change event (gifttt/rule.go:59-75), and neither does the model.
- Rules.Rule.Run: Go panics are modelled as `Err(Panic)` values that end the evaluation. These are division by zero, a negative `nth` index, `==` on slices or functions, and a repeated parameter name. In Go such a panic unwinds out of `Run` without it returning an error value, into the goroutine that runs the rule manager (main.go:43), which is not part of this model.
- Scope.GlobalsInstalled: states that every name of the builtin table is bound, not which value it is bound to. `TableMapLastWins` gives the value for a name with no later entry of the same name, but the distinctness of the 28 names is not proved.
