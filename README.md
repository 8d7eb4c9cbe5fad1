# deco.py decorators in Dafny

This project models the four function decorators of `deco.py`:

- `countcalls` counts the calls it receives.
- `memo` caches results, keyed by the argument values.
- `n_ary` turns a binary function into a variadic one by folding from the right.
- `trace(indent)` prints an enter line and an exit line around each call, indented by the call depth.

Each of the four modelled decorators copies the wrapped function's attribute dictionary onto its wrapper (`wrap.__dict__ = f.__dict__`). So all layers of a stack share ONE dictionary: a counter, a cache and a depth set through one layer are seen by all the others. The model makes that sharing explicit.

- `Decorators` holds the model's two central pieces:
  - `Wrapper`, a datatype for a stack of layers around a base function.
  - `Eval`, the reference semantics of one call. It works on a single value `State`: the shared `calls`, `cache` and `depth` plus the lines printed so far.
  - `Decorators` also proves the frame facts every call obeys.
- `Variadic` holds the pure fold that `n_ary_wrap` computes, with its algebra.
- `CallCounter`, `Memoizer`, `NAryLayer` and `Tracer` hold what each decorator promises inside a stack.
- `SharedBag` holds the heap side: `Bag` is the shared dictionary and `Stdout` is standard output. Each wrapper closure is a method that updates the bag in place and prints through `Stdout`. Each method is proved to leave exactly the state and return exactly the result that `Eval` gives.
- `Scenarios` works through the demonstration stacks `foo` (`n_ary(memo(countcalls(add)))`) and `bar` (`memo(n_ary(countcalls(mul)))`) on integers, one trace line format, and the memo truthiness finding on `foo(0, 0)`.

Python's truth value and `str()` of a value are parameters (`ValueOps`), because the decorators work on any type. `Scenarios.Ints` gives them for Python ints.

The decorators' intended behaviour, as documented for this library, differs from the code in a few places; the model follows the code:

- **Memo lookup.** A memoizer is meant to return any cached result, including 0, an empty value or None, so the lookup is meant to test whether the key is present. The code tests the truth of `cache.get(key, None)` (`deco.py:44-46`). `Memo` models the code; `MemoPresent` is the presence lookup (see Findings).
- **Fold direction.** One phrase of the library's overview calls the n-ary generalizer a pairwise left fold. Its detailed contract, g(x, y, z, ...) = f(x, g(y, z, ...)), and the docstring (`deco.py:60`) both describe the right fold the code performs (`deco.py:69`), and the model follows them. `Variadic.NAryIsLeftFold` shows the two agree for an associative function; `Variadic.RightFoldOfSubtraction` shows they differ otherwise.
- **Name and doc.** Every wrapper is meant to carry the innermost function's `__name__` and `__doc__`. None of the four modelled decorators copies `__name__` or `__doc__`; they copy only `__dict__` (only `decorator`, which is not modelled, copies `__doc__`, `deco.py:23`). So `trace` prints the `__name__` of the function it directly wraps: for `fib` that is `memo_wrap`, not `fib`. The traced name is therefore an input of the `Trace` layer.
- **Depth on error.** `trace` is meant to restore the depth even when the wrapped function raises. The code has no `try`/`finally` (`deco.py:100-102`). Exceptions are not modelled (see Left out).
- **Order of bar's decorators.** The documented example for `bar` applies n_ary first, then memo, then countcalls, which builds countcalls(memo(n_ary(mul))). The code decorates `bar` the other way round, as memo(n_ary(countcalls(mul))) (`deco.py:118-122`), and that is the stack modelled. The results 12, 24 and 24 are the same for both; the counts differ.

## Model

| member | source | states |
|---|---|---|
| Variadic.NAry | deco.py:62-69 | one argument is returned unchanged, two are passed to f, more give f(args[0], n_ary(args[1..])); the result is the right fold of f over all arguments but the last, starting from the last |
| Variadic.NAryAppend | deco.py:62-69 | for an associative f, n_ary over a concatenation is f of n_ary over each half |
| Variadic.FoldLeftShift | deco.py:62-69 | for an associative f, a left fold started from f(a, b) is f(a, left fold from b) |
| Variadic.NAryIsLeftFold | deco.py:57-69 | for an associative binary function, the right fold of n_ary_wrap equals the left fold |
| Variadic.RightFoldOfSubtraction | deco.py:69 | for subtraction over (1, 2, 3) the right fold gives 2 and the left fold gives -4, so the fold direction is observable |
| Decorators.Values | deco.py:43 | `kwargs.values()`, defined by recursion on the keyword list: as many values as keyword arguments, the i-th being the i-th argument's value |
| Decorators.Strs | deco.py:97 | `str(x) for x in args`, defined by recursion on the arguments: one string per argument, the i-th being `str` of the i-th argument |
| Decorators.EvalFrame | deco.py:27-107 | for every stack, a call restores the depth, only appends output, only adds cache keys, never lowers the counter, and leaves untouched each kind of state no layer keeps |
| Decorators.CallsIrrelevant | deco.py:29-31 | the counter is write-only: a different starting counter changes nothing but the counter |
| Decorators.CacheDetermines | deco.py:42-50 | a call's result and resulting cache depend only on the cache it starts from, not on counter, depth or output |
| Decorators.RunAll | deco.py:133-145 | a sequence of calls, each in the state the previous one left, gives one result per call |
| CallCounter.CountCallsTransparent | deco.py:29-31 | countcalls returns the wrapped result unchanged; the rest of the state is what the wrapped function leaves; with no inner counter the count becomes getattr(calls, 0) + 1 |
| CallCounter.CountsEveryCall | deco.py:27-34 | N calls, whatever their arguments, raise the counter by exactly N; from an absent counter it reads N |
| NAryLayer.NAryOverBase | deco.py:62-69 | n_ary around a plain function computes the pure right fold and changes no state |
| NAryLayer.NAryCountsEveryPair | deco.py:62-69 | n_ary around countcalls returns the fold and counts one call per folded pair, one fewer than the arguments; a single argument is returned with the state, an absent counter included, untouched; nothing else changes |
| NAryLayer.CountedBasePair | deco.py:29-31 | one pair through countcalls around the base function is one counted call of it |
| NAryLayer.CountedNAryCountsOnce | deco.py:29-31 | countcalls outside n_ary counts one call however many pairs are folded |
| Memoizer.MemoHit | deco.py:43-50 | a key holding a truthy value returns that value and changes nothing |
| Memoizer.MemoMiss | deco.py:43-49 | an absent key or a falsy entry calls the wrapped function, returns its result and stores it under the key in the state the wrapped function leaves; with no inner cache, that entry is the only change to the starting cache |
| Memoizer.MemoStoresResult | deco.py:47-48 | after any call the cache holds the returned result under the call's key |
| Memoizer.SameKeyServedFromCache | deco.py:43-50 | a later call whose positional arguments followed by keyword values equal the first call's is served from the cache with nothing changed, when the first result is truthy |
| Memoizer.KeywordNamesIgnored | deco.py:43-46 | renaming keyword arguments leaves the key unchanged, so the renamed call is served from the first call's entry when the first result is truthy |
| Memoizer.FalsyResultRecounted | deco.py:46-48 | as written: after a falsy result the same call runs the wrapped function again, and an inner countcalls counts it |
| Memoizer.PresenceSameKeyServed | deco.py:43-50 | corrected lookup: a later call with the same key is always served from the cache, whatever the result's truth |
| Memoizer.PresenceCountsOnce | deco.py:43-50 | corrected lookup: n repetitions of an uncached call run the counted function exactly once |
| Memoizer.RepeatsChangeNothing | deco.py:43-50 | corrected lookup: repeating a cached call leaves the state unchanged |
| Tracer.TraceLines | deco.py:96-104 | a traced call prints first `indent*depth + " --> " + name + args` and last `indent*depth + " <-- " + name + args + " == " + str(result)`, restores the depth, and prints exactly those two lines when no inner layer traces |
| Tracer.TraceTransparent | deco.py:96-104 | tracing leaves the result, the cache and the counter as the wrapped function alone gives them |
| Decorators.CallsMatch | deco.py:29-50 | the counter a call leaves depends only on the starting counter and cache |
| Tracer.NestedTraces | deco.py:96-106 | two trace layers share one depth: the inner one's lines are indented one level deeper and nest inside the outer one's |
| Tracer.NestedTracePrefixes | deco.py:99-103 | the four nested lines written out from the outer prefix P: the inner lines begin with P followed by one more indent |
| Tracer.OuterTraceExit | deco.py:101-104 | the outer trace returns the inner result and appends its exit line at its own depth after the inner output |
| Tracer.RepeatOneMore | deco.py:99 | one more level of depth adds one more indent to the prefix |
| SharedBag.Stdout.constructor | deco.py:99 | standard output starts empty |
| SharedBag.Stdout.Print | deco.py:99-103 | `print` appends exactly one line |
| SharedBag.Bag.constructor | deco.py:30 | a fresh dictionary has no counter, and the cache and depth start at their decoration values |
| SharedBag.Bag.DecorateMemo | deco.py:52-54 | memo(f) wraps f and resets the shared cache to empty, even one an inner memo created; nothing else changes |
| SharedBag.Bag.DecorateTrace | deco.py:105-107 | trace(indent)(f) wraps f and resets the shared depth to 0; nothing else changes |
| SharedBag.Bag.Call | deco.py:29-104 | calling a stack updates the shared dictionary and output and returns exactly what Eval gives |
| SharedBag.Bag.CountCallsWrap | deco.py:29-31 | countcalls_wrap, in place: the counter is raised before the call; state and result as Eval gives them |
| SharedBag.Bag.MemoWrap | deco.py:42-50 | memo_wrap, in place, with the truthiness test as written; state and result as Eval gives them |
| SharedBag.Bag.MemoPresentWrap | deco.py:42-50 | memo_wrap with a presence test; state and result as Eval gives them |
| SharedBag.Bag.NAryWrap | deco.py:62-69 | n_ary_wrap, in place, recursing on args[1..]; state and result as Eval gives them |
| SharedBag.Bag.TraceWrap | deco.py:96-104 | trace_wrap2, in place: two prints and the depth raised and lowered around the call; state and result as Eval gives them |
| Scenarios.CountedMemoMiss | deco.py:43-49 | a miss in memo(countcalls(g)) counts one call and stores g's result under the arguments |
| Scenarios.AddArity | deco.py:114 | add takes two arguments: memo(countcalls(add)) called with three has no normal outcome, while n_ary around it accepts three |
| Scenarios.AddWithKeyword | deco.py:114-115 | add(1, b=2) through memo(countcalls(add)) returns 3, counts one call and caches 3 under the key (1, 2) |
| Scenarios.FooScenario | deco.py:111-115 | foo(4, 3, 2), foo(4, 3) and foo(4) return 9, 7 and 4, and foo.calls is 3 |
| Scenarios.MemoOverNAryMiss | deco.py:118-122 | a miss of memo(n_ary(countcalls(g))) runs the whole fold, counts one call fewer than the arguments and caches the fold under the whole argument list |
| Scenarios.BarFolds | deco.py:118-122 | the products bar folds are 12, 24 and 24 |
| Scenarios.BarScenario | deco.py:118-122 | bar(4, 3), bar(4, 3, 2) and bar(4, 3, 2, 1) return 12, 24 and 24, and bar.calls is 6 |
| Scenarios.TraceFormat | deco.py:96-104 | trace("____") around add, called with (4, 3) at depth 0, prints " --> add(4, 3)" and " <-- add(4, 3) == 7" and returns 7 |
| Scenarios.FooZeroRecounted | deco.py:44-48 | as written: foo(0, 0) twice returns 0 both times and add runs twice |
| Scenarios.FooZeroCachedByPresence | deco.py:44-48 | corrected: foo(0, 0) twice returns 0 both times and add runs once |

## Left out

- Exceptions are not modelled. A call that raises has no outcome in `Eval`; `Admits` is the set of argument counts that return normally. The base function must get exactly as many arguments as it has parameters (`Base(f, arity)`), n_ary needs at least one positional argument and no keyword arguments, and n_ary passes its inner function exactly two. So these are not modelled: a raised error propagating, countcalls keeping its increment when the wrapped function raises, and trace leaving the depth raised after an error, since the code has no `try`/`finally`.
- Base: only the number of arguments is checked against the parameters. Keyword names that do not match a parameter, or that name one already bound positionally, and errors raised inside the base function itself, are not modelled; the base function is total. `Scenarios.Add` and `Scenarios.Mul` bind the positional arguments followed by the keyword values, so `add(1, b=2)` is 3 as in Python; the names are ignored, which for these commutative functions gives Python's result whenever Python binds the call. The 0 of their other branch is never reached under `Admits`, since the total argument count is then 2.
- Eval, Bag.NAryWrap: Python's recursion limit is not modelled. n_ary_wrap recurses once per argument (`deco.py:69`), so a call with about a thousand arguments raises RecursionError in Python, while the model returns the fold for any length.
- Eval: a memo layer above n_ary can serve a cached value even for a call n_ary would reject (keyword arguments). `Admits` excludes such calls for every layer, so that corner of memo's behaviour is not covered.
- `disable` and `decorator` (`deco.py:4-24`) are not modelled. Neither is used by the decorated functions, and both wrappers drop the wrapped function's result.
- `__name__` and `__doc__` are not modelled as attributes. None of the four modelled decorators copies them (only `decorator`, not modelled, copies `__doc__`), so the name `trace` prints is an input of the `Trace` layer.
- `str()` and Python's truth value are parameters (`ValueOps`), not derived from Python's data model. `Scenarios.IntString` gives `str()` for ints only.
- `print` is modelled as appending a line to `Stdout.lines`. Flushing and the underlying stream are not.
- `fib` (`deco.py:125-130`) is not modelled: its body calls the decorated binding recursively, which a `Wrapper` around a fixed base function cannot express. `main`'s printing is not modelled either; only the results and counters that `foo` and `bar` produce are.
- The absence of `cache` and `depth` before decoration is not modelled. Both are created when memo and trace decorate (`deco.py:53`, `deco.py:106`), before any call reads them; only the `calls` attribute can be absent (`Option`).
- Dictionary hashing and the unhashable-argument error of a cache key are not modelled. Keys are sequences of values compared by equality.
- Dynamic typing is not modelled: arguments and results share one value type `V`.
- Concurrency is not modelled. The shared dictionary is not safe under threads, and the model is single-threaded.
- Integers are unbounded, as Python's are.

## Findings

| source | as written | input that shows it | evidently intended | confidence | as-written member | corrected member |
|---|---|---|---|---|---|---|
| deco.py:44-46 | `if not val` treats a cached falsy result as a miss, so the wrapped function runs again on every call whose result is 0, empty or None | `foo(0, 0)` called twice: add runs twice and `foo.calls` is 2 | a cached result is returned whatever its truth value: the lookup tests presence of the key, so add runs once | not executed | Scenarios.FooZeroRecounted, Memoizer.FalsyResultRecounted, SharedBag.Bag.MemoWrap | Scenarios.FooZeroCachedByPresence, Memoizer.PresenceCountsOnce, Memoizer.PresenceSameKeyServed, SharedBag.Bag.MemoPresentWrap |
