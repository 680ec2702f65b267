# comps — Racket-style `for/…` comprehensions, modelled in Dafny

`comps` is a family of Python functions in the style of Racket's `for/…`
forms. Each one walks a few named sequences, either in lock-step (`zip`) or
over their cross product (`itertools.product`, the `_nest` variants). A
filter `when` decides which steps count, and caller-supplied callbacks
(keyword-argument functions over the step's variables) compute what each
accepted step contributes. This project models the core of the library:

* **The by-name fold builder** (`comps/comprehension_builder.py`,
  `comps/operations.py`, `comps/for_fold.py`). A `ComprehensionBuilder`
  collects accumulators, iterables, a filter, a body and a result function
  through `>>`, then `run` folds over the zipped iterables. The body returns a
  partial dict of accumulator updates, and an unknown key raises. The final
  accumulators go to the result function, with every iterable name bound to
  None. The default result is the **list** of final accumulator values.
* **The by-position fold engines** (`comps/generator_comprehension.py`,
  `comps/for_fold_nest.py`). The body returns a tuple with one new value per
  accumulator. A non-tuple raises TypeError and a wrong length raises
  ValueError. The default result is a **dict** of the accumulators.
* **The short-circuit searches** `for_and`, `for_or`, `for_first`, `for_last`
  and their `_nest` variants.
* **The collectors** `for_generator`, `for_generator_nest`, `for_list_nest`,
  `for_tuple_nest`, `for_dict_nest`, `for_sum_nest` and `for_product_nest`.

## How the model is organised

| file | module | contents |
|---|---|---|
| `values.dfy` | `Values` | Python values as a datatype, the environment `map<string, Value>`, `Option`/`Result`, error kinds |
| `pydict.dfy` | `PyDict` | an insertion-ordered dict as a sequence of entries; `d[k] = v` and its laws |
| `traversal.dfy` | `Traversal` | `zip`, `itertools.product`, `dict(zip(names, row))`, the two traversals as sequences of environments, and the accepted positions of a filter |
| `operations.dfy` | `Operations` | the five operation records as one datatype |
| `builder.dfy` | `Builder` | the by-name fold as functions, the in-place loops as methods, the `ComprehensionBuilder` class |
| `for_fold.dfy` | `ForFold` | the `for_fold` front end and its worked examples |
| `positional.dfy` | `Positional` | the by-position fold, the `GeneratorComprehension` class, `for_fold_nest` |
| `search.dfy` | `Search` | the and/or/first/last loops over both traversals |
| `collectors.dfy` | `Collectors` | the generator, list, tuple, dict, sum and product comprehensions |

The design follows a few rules:

* Callbacks are total Dafny functions over the environment.
* `{**env, **step}` is `env + Bind(names, row)`. Dafny's map union is
  right-biased, like the Python merge, so an iterable name shadows an
  accumulator of the same name.
* Exceptions are `Failure(e)` values of `Result`. The error kind is kept, and
  the offending key is kept where the message names it.
* A loop that updates state (the builder's run, the update loop, the scans
  and the accumulating collectors) is a Dafny `method` with a `while` loop. Its
  `ensures` ties the result to a specification function, and lemmas state the
  properties of that function. The generator loops of for_generator and
  for_generator_nest only yield, so `Collectors.ForGenerator` and
  `Collectors.ForGeneratorNest` are functions of the sequence they yield.
* Short-circuiting is stated with ghost out-parameters. `AllSteps`,
  `AnySteps` and `FirstStep` return the positions at which the predicate or
  body ran and how many steps were examined. `LastStep` examines every step
  and returns the positions at which the body ran.

## Notes on the source

The inline comments of three examples do not match what the code computes:

* `for_fold_nest` (comps/for_fold_nest.py:52) and `for_sum_nest`
  (comps/for_sum_nest.py:35) print 585 (97 + 98 + 194 + 196), not 390. 390 is
  only the i = 2 share.
* `for_product_nest` (comps/for_product_nest.py:37) gives 1 · 1 · 8 · 16 = 128,
  not 4096.
* for_fold's four examples (comps/for_fold.py:37-100) all pass `result=`. As
  written, each raises "Unsupported operation" before any step runs (see
  "## Findings"), so none of them prints anything. The lemmas prove the two
  runs that do compute a value: the run with the result omitted (default list
  result; `ForFold.ExampleSum`, `ForFold.ExamplePairs`,
  `ForFold.ExampleSumProduct`) and the run with the result function stored in
  the builder (`ForFold.ExampleSumResult`, `ForFold.ExamplePairsResult`). In
  those runs the fourth example's product is 24, not the 2 that its comment at
  comps/for_fold.py:100 gives.

The other examples are proved against what the code computes.

## Model

| member | source | states |
|---|---|---|
| `Builder.ComprehensionBuilder.constructor` | comps/comprehension_builder.py:14-19 | a fresh builder has no accumulators or iterables, no body, no result, and a filter that accepts every environment |
| `Builder.ComprehensionBuilder.Shift` | comps/comprehension_builder.py:21-35 | `>>` appends AddAccumulator/AddIterable pairs at the end of their lists in call order. SetFilter and SetBody replace only that field. The builder itself is returned. SetResult never matches and yields UnsupportedOperation, changing nothing. |
| `Builder.ComprehensionBuilder.Run` | comps/comprehension_builder.py:36-71 | no body: MissingBody before any step, nothing changed. Otherwise it installs the default result when none is set and returns the by-name fold's outcome over the zipped iterables (`Evaluate`). |
| `Builder.ApplyUpdates` | comps/comprehension_builder.py:61-65 | a successful update never adds or removes an accumulator |
| `Builder.ApplyUpdatesErrors` | comps/comprehension_builder.py:61-65 | the updates succeed iff every returned key is an accumulator. Otherwise the error names the first returned key, in dict order, that is not one. |
| `Builder.ApplyUpdatesValues` | comps/comprehension_builder.py:61-63 | keys not returned keep their value. Each returned key takes its returned value. |
| `Builder.UpdateAccumulators` | comps/comprehension_builder.py:61-65 | the in-place update loop computes `ApplyUpdates`, stopping at the first unknown key |
| `Builder.StepByName` | comps/comprehension_builder.py:54-65 | a successful step keeps the accumulator key set |
| `Builder.FoldByName` | comps/comprehension_builder.py:52-65 | a successful fold keeps the accumulator key set |
| `Builder.FoldRows` | comps/comprehension_builder.py:52-65 | the step loop, with the filter and body seeing `env + step`, computes `FoldByName`. The first error ends it. |
| `Builder.FoldTrace` | comps/comprehension_builder.py:52-65 | a chain of successful steps is the fold's outcome (left fold, in row order) |
| `Builder.FoldFailureSticks` | comps/comprehension_builder.py:64-65 | once a step raises, later rows never run and the run ends with that error |
| `Builder.RejectedStepsAreInert` | comps/comprehension_builder.py:56-57 | if the filter rejects every step, every accumulator keeps its initial value |
| `Builder.FinalVars` | comps/comprehension_builder.py:68 | the result function sees every accumulator and every iterable name. Iterable names are None. Other accumulators have their final values. |
| `Builder.DefaultResult` | comps/comprehension_builder.py:39-41 | the default result is a list with one entry per accumulator, in declaration order. Each entry is the final value, or None when an iterable shares the name. |
| `ForFold.Configure` | comps/for_fold.py:17-29 | accumulators are registered before iterables, each in the order given. Then body and filter are set. No result is set. |
| `ForFold.ForFold` | comps/for_fold.py:6-34 | with a result function: UnsupportedOperation before any step runs. Without one: MissingBody when the body is None, otherwise `run`'s default list outcome, errors included. |
| `ForFold.ForFoldWithResult` | comps/for_fold.py:31-34 | with the result function stored directly in the builder, the outcome is MissingBody when the body is None, otherwise the fold with that result function |
| `ForFold.ExampleSum` | comps/for_fold.py:37-82 | summing [1..5] gives [15]; summing only its even numbers gives [6] (default list result) |
| `ForFold.ExampleSumResult` | tests/test_for_fold.py:62-79 | with the result `sum` stored in the builder, summing [1..5] gives 15 (the test at tests/test_for_fold.py:5-18) and 6 under the even filter (this test) |
| `ForFold.ExamplePairs` | comps/for_fold.py:52-65 | two running sums over [1,2,3] and [10,20,30] give [6, 60] |
| `ForFold.ExamplePairsResult` | tests/test_for_fold.py:33-47 | with the tuple result stored in the builder, the same run gives (6, 60) |
| `ForFold.ExampleSumProduct` | comps/for_fold.py:85-100 | sum and product over [1..4] give [10, 24] |
| `ForFold.ExampleUnknownKey` | tests/test_for_fold.py:20-30 | a body returning `total` raises at the first step, naming `total` |
| `ForFold.ExampleUnknownKeys` | tests/test_for_fold.py:49-59 | with two unknown keys the error names the first, `total1` |
| `ForFold.ResultRecordDiscrepancy` | comps/for_fold.py:31-32 | the tests' first case raises UnsupportedOperation as written, and gives 15 with the result stored in the builder |
| `Positional.GeneratorComprehension.constructor` | comps/generator_comprehension.py:4-16 | stores its arguments unchanged |
| `Positional.GeneratorComprehension.Run` | comps/generator_comprehension.py:18-52 | the by-position fold over the zipped iterables, then the result function or the default dict (`EvaluateByPosition`) |
| `Positional.ForFoldNest` | comps/for_fold_nest.py:5-35 | the same fold over the cross product of the iterables |
| `Positional.FoldRowsByPosition` | comps/generator_comprehension.py:26-45 | the step loop computes `FoldByPosition`. It stops at the first non-tuple (NotATuple) or wrong-length tuple (ArityMismatch). |
| `Positional.AssignAccumulators` | comps/generator_comprehension.py:44-45 | the assignment loop writes the i-th value to the i-th accumulator: `env + Bind(names, values)` |
| `Positional.StepByPositionOutcome` | comps/generator_comprehension.py:28-45 | a rejected step changes nothing. A non-tuple gives TypeError and a wrong length gives ValueError. Otherwise the i-th value replaces the i-th accumulator, other variables keep their values, and none is added or removed. |
| `Positional.FoldByPositionKeys` | comps/for_fold_nest.py:30-31 | a successful fold keeps the accumulator key set |
| `Positional.RejectedStepsAreInertByPosition` | comps/for_fold_nest.py:24 | if the filter rejects every combination, the accumulators keep their initial values |
| `Positional.FoldTraceByPosition` | comps/for_fold_nest.py:21-31 | a chain of successful steps is the fold's outcome |
| `Positional.FoldByPositionFailureSticks` | comps/generator_comprehension.py:37-41 | once a step raises, the run ends with that error |
| `Positional.DefaultDictMeaning` | comps/generator_comprehension.py:50-52 | the default dict's keys are exactly the accumulator names, each mapped to its final value. With distinct names, the entries are in declaration order. |
| `Positional.ExampleNest` | comps/for_fold_nest.py:39-52 | `sum + ord(j) * i` over [1,2] × ['a','b'] with the result `sum` gives 585 |
| `Positional.ExampleNestDefault` | comps/for_fold_nest.py:32-35 | the same run without a result gives the dict {"sum": 585} |
| `Search.AllSteps` | comps/for_and.py:15-20 | true iff every accepted step satisfies the predicate. It stops at the first failing accepted step. The predicate ran only on the accepted steps before it, in order. |
| `Search.AnySteps` | comps/for_or.py:15-20 | true iff some accepted step satisfies the predicate. It stops at the first such step. The predicate ran only on accepted steps, in order. |
| `Search.FirstStep` | comps/for_first.py:16-20 | the body at the first accepted step, or None. The scan stops right after that step, having examined it and all earlier steps, and the body ran at most once, at that step. |
| `Search.LastStep` | comps/for_last.py:13-23 | the body ran at every accepted step, in order. The result is its value at the last one, or None. |
| `Search.ForAnd` | comps/for_and.py:3-20 | for_and over the zipped steps: true iff no accepted step fails the predicate |
| `Search.ForOr` | comps/for_or.py:3-20 | for_or over the zipped steps: true iff some accepted step satisfies the predicate |
| `Search.ForFirst` | comps/for_first.py:3-20 | for_first: the body at the first accepted zipped step, or None |
| `Search.ForLast` | comps/for_last.py:3-23 | for_last: the body at the last accepted zipped step, or None |
| `Search.ForAndNest` | comps/for_and_nest.py:4-20 | for_and_nest over the combinations in product order |
| `Search.ForOrNest` | comps/for_or_nest.py:4-20 | for_or_nest over the combinations in product order |
| `Search.ForFirstNest` | comps/for_first_nest.py:4-20 | for_first_nest: the body at the first accepted combination, or None |
| `Search.ForLastNest` | comps/for_last_nest.py:4-23 | for_last_nest: the body at the last accepted combination, or None |
| `Search.LastPassing` | comps/for_last.py:20-23 | no accepted step iff no passing index. The last passing index is accepted, with no accepted step after it. |
| `Search.FirstPassing` | comps/for_first.py:16-20 | for_first's step is the first passing index, so for_first and for_last agree when one step is accepted |
| `Search.LastAccepted` | comps/for_last.py:18-23 | an accepted step followed by no accepted step is the one for_last reports |
| `Search.ExampleForAnd` | comps/for_and.py:24-33 | [2,4,6,8] are all even |
| `Search.ExampleForAndOdd` | comps/for_and.py:35-40 | [2,3,6,8] are not all even |
| `Search.ExampleForOr` | comps/for_or.py:24-33 | none of [1,3,5,7] is even |
| `Search.ExampleForOrEven` | comps/for_or.py:35-40 | some of [1,3,4,7] is even |
| `Search.ExampleForFirst` | comps/for_first.py:24-37 | the first even of [1,3,5,6,7], squared, is 36 |
| `Search.ExampleForLast` | comps/for_last.py:27-40 | the last odd of [2,4,5,7,8], cubed, is 343 |
| `Search.ExampleForAndNest` | comps/for_and_nest.py:24-34 | every i of [2,4] is even, for every j |
| `Search.ExampleForOrNest` | comps/for_or_nest.py:24-34 | (2, 'b') is among [1,2] × ['a','b'] |
| `Search.ExampleForFirstNest` | comps/for_first_nest.py:24-38 | the first combination with i == 2 and j == 'b' gives (2, 'b') |
| `Search.ExampleForLastNest` | comps/for_last_nest.py:27-41 | the last of all combinations gives (2, 'b') |
| `Collectors.CollectMeaning` | comps/for_generator_nest.py:17-20 | what is collected is the body at each accepted position, in order |
| `Collectors.CollectGrows` | comps/for_list_nest.py:21 | collecting only appends: the items of the first i steps are a prefix of all items |
| `Collectors.CollectAccepted` | comps/for_list_nest.py:8 | with every step accepted, there is exactly one item per step, in step order |
| `Collectors.CollectSteps` | comps/for_list_nest.py:17-21 | the append loop computes `Collect` |
| `Collectors.NothingCollected` | comps/for_tuple_nest.py:15-19 | with no accepted step, nothing is collected |
| `Collectors.NothingAccepted` | comps/for_sum_nest.py:13-21 | with no accepted combination: nothing is yielded, the dict is empty, the sum is 0 and the product is 1 |
| `Collectors.ForGenerator` | comps/for_generator.py:3-20 | one item per zipped step, in order. There are as many items as the shortest source has, and none for zero sources. |
| `Collectors.ForGeneratorNest` | comps/for_generator_nest.py:4-21 | item k is the body at the k-th accepted combination, in product order, and there are exactly as many items as accepted combinations. So there is at most one item per combination, and exactly one per combination, in product order, when all are accepted. |
| `Collectors.ForListNest` | comps/for_list_nest.py:4-22 | the list of what for_generator_nest yields |
| `Collectors.ForTupleNest` | comps/for_tuple_nest.py:4-22 | the same items in the same order, as a tuple |
| `Collectors.Write` | comps/for_dict_nest.py:20-21 | by the value's shape: a two-element tuple or list with a hashable head is written as (key, value); a two-character string writes its characters; a two-entry dict writes its two keys. A tuple, list, string or dict of another length raises the count error, None, a bool or an int raises the unpacking error, and an unhashable key raises the hashing error. A written key is always hashable. |
| `Collectors.WritesMeaning` | comps/for_dict_nest.py:17-21 | all writes succeed iff each value can be written, and they are then those writes in order. Otherwise the error is the first failing value's. |
| `Collectors.WritesFailureSticks` | comps/for_dict_nest.py:20 | once a write raises, the run ends with that error |
| `Collectors.ForDictNest` | comps/for_dict_nest.py:4-22 | the loop computes `DictOf` of the collected body values: writes in order, or the first error |
| `Collectors.DictFailure` | comps/for_dict_nest.py:20 | a write that raises at step i decides the whole run |
| `Collectors.DictOfMeaning` | comps/for_dict_nest.py:15-21 | the dict's keys are distinct and are exactly the keys written. Each key holds its last written value. |
| `Collectors.SumOfAppend` | comps/for_sum_nest.py:20 | the running total over a concatenation is the sum of the two totals |
| `Collectors.ForSumNest` | comps/for_sum_nest.py:4-21 | the running total from 0 is `SumOf` of the accepted combinations' body values |
| `Collectors.Reduce` | comps/for_product_nest.py:23 | `reduce(mul, xs, acc)` is acc times the product of xs |
| `Collectors.ForProductNest` | comps/for_product_nest.py:6-23 | the body values of the accepted combinations are collected in product order, then multiplied from 1 |
| `Collectors.ExampleGeneratorSquares` | comps/for_generator.py:24-34 | squaring [1..5] yields 1, 4, 9, 16, 25 |
| `Collectors.PairsOfEqualLength` | comps/for_generator.py:16-18 | pairing two equal-length sources yields the pair of their i-th elements at position i |
| `Collectors.ExampleGeneratorPairs` | comps/for_generator.py:36-47 | pairing [1,2,3] with [10,20,30] yields (1,10), (2,20), (3,30) |
| `Collectors.ExampleListNest` | comps/for_list_nest.py:24-36 | [1,2] × ['a','b'] gives [(1,'a'), (1,'b'), (2,'a'), (2,'b')] |
| `Collectors.PairsOfTwoByTwo` | comps/for_generator_nest.py:23-43 | for_generator_nest over [1,2] × ['a','b'] yields (1,'a'), (1,'b'), (2,'a'), (2,'b') |
| `Collectors.ExampleTupleNest` | comps/for_tuple_nest.py:24-37 | concatenation gives ('1a', '1b', '2a', '2b') |
| `Collectors.ExampleDictNest` | comps/for_dict_nest.py:24-37 | keys ['x','y'] × values [10,20] give {'x': 20, 'y': 20} |
| `Collectors.ExampleSumNest` | comps/for_sum_nest.py:24-35 | i · ord(j) over [1,2] × ['a','b'] totals 585 |
| `Collectors.ExampleProductNest` | comps/for_product_nest.py:25-37 | i ** j over [1,2] × [3,4] multiplies to 128 |
| `Traversal.ShortestLength` | comps/comprehension_builder.py:52 | the minimum of the lengths: 0 for no sources, at most each length, and equal to one of them |
| `Traversal.Zip` | comps/generator_comprehension.py:26 | `zip(*sources)`: as many rows as the shortest source. Row i holds every source's i-th element, in source order. |
| `Traversal.CrossProduct` | comps/for_fold_nest.py:21 | `itertools.product`: as many rows as the product of the lengths |
| `Traversal.CrossProductOrder` | comps/for_and_nest.py:16 | row a·R + b is the first source's a-th element followed by row b of the rest, so the last source varies fastest |
| `Traversal.CrossProductRows` | comps/for_fold_nest.py:21 | each row picks one element from each source, in source order |
| `Traversal.CrossProductComplete` | comps/for_fold_nest.py:21 | every such pick occurs as a row |
| `Traversal.CrossProductOfNothing` | comps/for_or_nest.py:16 | zero sources give exactly one, empty, step |
| `Traversal.CrossProductTwoByTwo` | comps/for_generator_nest.py:17 | two two-element sources give four rows, the second source varying fastest |
| `Traversal.BindMeaning` | comps/comprehension_builder.py:54 | `dict(zip(names, values))` defines exactly the paired names. Each holds the value paired with its last occurrence. |
| `Traversal.InitialEnv` | comps/comprehension_builder.py:44 | the initial environment defines exactly the accumulator names, each with its initial value (the last one, if a name repeats) |
| `Traversal.ZipSteps` | comps/for_and.py:15-16 | one step per zipped row |
| `Traversal.ProductSteps` | comps/for_and_nest.py:16-17 | one step per combination |
| `Traversal.ZipStepMeaning` | comps/for_and.py:16 | a zipped step binds exactly the source names, each to that source's i-th element |
| `Traversal.SingleSourceSteps` | comps/for_generator.py:16-17 | one source gives one step per element, binding only that name |
| `Traversal.ProductStepsTwoByTwo` | comps/for_first_nest.py:16-17 | the four steps of a two-by-two product, in product order |
| `Traversal.PassingMeaning` | comps/for_list_nest.py:17-21 | the passing positions are exactly the accepted steps, each once, in increasing order |
| `Traversal.IndexOfFirst` | comps/for_first.py:16-19 | the first position satisfying the filter, or the length: no earlier position satisfies it |
| `Traversal.AllPassing` | comps/for_list_nest.py:8 | with every step accepted, the passing positions are 0, 1, …, n-1 |
| `PyDict.Put` | comps/for_dict_nest.py:21 | `d[k] = v`: k now maps to v and every other key keeps its lookup. The key set gains k. An existing key keeps its position, and a new key goes at the end. Distinct keys stay distinct. |
| `PyDict.FromPairsKeys` | comps/for_dict_nest.py:15-21 | a dict built by writes has distinct keys, exactly the keys written |
| `PyDict.FromPairsLastWriteWins` | comps/for_dict_nest.py:21 | each key holds the value of its last write |
| `PyDict.FromDistinctPairs` | comps/generator_comprehension.py:52 | writes with distinct keys give the entries in write order |

## Left out

- Keyword-argument binding of callbacks is not modelled. Callbacks are total functions over the environment, so the TypeError for an unexpected name does not arise.
- A KeyError raised inside a callback is not modelled, for the same reason. This includes the undefined-variable and missing-key failure paths of tests/test_for_fold.py:81-92 and 113-123.
- Generators are modelled as the finite sequence they yield. Laziness, suspension and infinite sources are not modelled, so `ForGenerator` and `ForGeneratorNest` are functions of the whole input.
- Body calls are not observable side effects. Since callbacks are pure, a body call after an error has no effect. Where a callback runs is stated through ghost traces instead.
- A body that returns something other than a dict is not modelled: `Operations.Updates` is always a sequence of key/value pairs, so the AttributeError that `updates.items()` (comps/comprehension_builder.py:61) raises on such a value does not arise in `Builder.ComprehensionBuilder.Run` or `ForFold.ForFold`. A body of None is modelled (`SetBody` takes an optional body) and gives MissingBody.
- Error message text is not modelled. Only the kind is kept, plus the offending key where the message names it.
- `Search.ForAnd`, `Search.ForOr`, `Search.ForFirst`, `Search.ForLast` and their `_nest` variants: the public methods do not state which steps the callbacks ran on. Those properties are the ghost outputs of the scans they call.
- `Collectors.ForSumNest` and `Collectors.ForProductNest` take an integer-valued body. The TypeError from `+` or `*` on non-numbers is not modelled, nor are floats.
- Python's `1 == True` equality of dict keys is not modelled. `Int(1)` and `Bool(true)` are distinct keys here.
- The example helpers are modelled only as far as the examples need them:
  - `f"{i}{j}"` is modelled only for an integer and a string.
  - `ord` is modelled only for one-character strings.
  - `i ** j` is modelled only for non-negative exponents; a negative one gives a float.
- for_fold's fourth example and the matching test build a formatted string. Its projection to [10, 24] under the default list result is proved instead.
- `ForFold.ForFoldWithResult` stores the result function directly in the builder's field. It does not model a corrected `SetResult` dispatch through `>>`.
- comps/for_list.py, for_sum.py, for_product.py, for_set.py, for_dict.py and for_tuple.py are not part of this model. Each passes a result to `for_fold` and so always ends in the UnsupportedOperation error, which `ForFold.ForFold` covers.
- scripts/speed_test.py (a benchmark) is not part of this model.

## Findings

| source | as written | input that shows it | evidently intended | confidence | as-written member | corrected member |
|---|---|---|---|---|---|---|
| comps/operations.py:19-20, comps/comprehension_builder.py:29 | `SetResult` declares only `result_name`, but `>>` matches `SetResult(result_function=…)`. So every result record falls through to "Unsupported operation". | `for_fold(accumulators=[("sum", 0)], iterables=[("n", [1, 2, 3, 4, 5])], body=…, result=lambda **kw: kw["sum"])` raises ValueError where tests/test_for_fold.py:18 expects 15 | `>>` stores the result function in `result_function` | high, not executed | `ForFold.ForFold` | `ForFold.ForFoldWithResult` |
