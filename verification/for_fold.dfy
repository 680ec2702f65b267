/**
 * `for_fold` (comps/for_fold.py): the front end that feeds a fresh builder its
 * accumulators, its iterables, the body and the filter, and the result
 * function when one is given, then runs it.
 */
module ForFold {
  import opened Values
  import opened Operations
  import opened Traversal
  import opened Builder

  /**
   * The registration part of `for_fold`: accumulators go in before iterables,
   * each in the order given, then the body and the filter.
   */
  method Configure(accumulators: seq<(string, Value)>, iterables: seq<(string, seq<Value>)>,
                   body: Option<Env -> Updates>, when: Env -> bool)
    returns (builder: ComprehensionBuilder)
    ensures fresh(builder)
    ensures builder.accumulators == accumulators && builder.iterables == iterables
    ensures builder.filterFunction == when && builder.bodyFunction == body
    ensures builder.resultFunction == None
  {
    builder := new ComprehensionBuilder();
    var i := 0;
    while i < |accumulators|
      invariant 0 <= i <= |accumulators|
      invariant builder.accumulators == accumulators[..i] && builder.iterables == []
      invariant builder.resultFunction == None && builder.bodyFunction == None
    {
      var _ := builder.Shift(AddAccumulator(accumulators[i].0, accumulators[i].1));
      i := i + 1;
    }
    assert accumulators[..i] == accumulators;
    i := 0;
    while i < |iterables|
      invariant 0 <= i <= |iterables|
      invariant builder.accumulators == accumulators && builder.iterables == iterables[..i]
      invariant builder.resultFunction == None && builder.bodyFunction == None
    {
      var _ := builder.Shift(AddIterable(iterables[i].0, iterables[i].1));
      i := i + 1;
    }
    assert iterables[..i] == iterables;
    var _ := builder.Shift(SetBody(body));
    var _ := builder.Shift(SetFilter(when));
  }

  /**
   * `for_fold`: a given result function is sent as a result record, which the
   * builder rejects before any step runs; without one, `run` returns its
   * default list of final accumulator values, and its errors pass through.
   */
  method ForFold(accumulators: seq<(string, Value)>, iterables: seq<(string, seq<Value>)>,
                 body: Option<Env -> Updates>, when: Env -> bool, result: Option<Env -> Value>)
    returns (r: Result<Value, Error>)
    ensures result.Some? ==> r == Failure(UnsupportedOperation)
    ensures result.None? && body.None? ==> r == Failure(MissingBody)
    ensures result.None? && body.Some? ==> r == Evaluate(accumulators, iterables, when, body.value, AccumulatorList)
  {
    var builder := Configure(accumulators, iterables, body, when);
    if result.Some? {
      var shifted := builder.Shift(SetResult(Projector(result.value)));
      if shifted.Failure? {
        return Failure(shifted.error);
      }
    }
    r := builder.Run();
  }

  /**
   * `for_fold` as its callers and tests expect it to behave: the result
   * function is stored in the builder's field (what the unmatched result
   * record was meant to do), and `run` applies it to the final variables.
   */
  method ForFoldWithResult(accumulators: seq<(string, Value)>, iterables: seq<(string, seq<Value>)>,
                           body: Option<Env -> Updates>, when: Env -> bool, result: Env -> Value)
    returns (r: Result<Value, Error>)
    ensures body.None? ==> r == Failure(MissingBody)
    ensures body.Some? ==> r == Evaluate(accumulators, iterables, when, body.value, Custom(result))
  {
    var builder := Configure(accumulators, iterables, body, when);
    builder.resultFunction := Some(Custom(result));
    assert builder.bodyFunction == body && builder.filterFunction == when;
    assert builder.accumulators == accumulators && builder.iterables == iterables;
    r := builder.Run();
  }

  // ---- The worked examples ----------------------------------------------------------

  /** `{"sum": sum + n}` */
  function SumBody(e: Env): Updates {
    [("sum", Int(IntOf(Arg(e, "sum")) + IntOf(Arg(e, "n"))))]
  }

  /** `n % 2 == 0` */
  function EvenN(e: Env): bool {
    IntOf(Arg(e, "n")) % 2 == 0
  }

  /** One step of the running sum, when the filter accepts it. */
  lemma SumStep(filter: Env -> bool, s: int, x: int)
    requires filter(map["sum" := Int(s), "n" := Int(x)])
    ensures StepByName(map["sum" := Int(s)], ["n"], [Int(x)], filter, SumBody) == Success(map["sum" := Int(s + x)])
  {
    assert Bind(["n"], [Int(x)]) == map["n" := Int(x)];
    var current := map["sum" := Int(s), "n" := Int(x)];
    assert map["sum" := Int(s)] + map["n" := Int(x)] == current;
    var updates := SumBody(current);
    assert updates == [("sum", Int(s + x))];
    assert updates[1..] == [];
    assert map["sum" := Int(s)]["sum" := Int(s + x)] == map["sum" := Int(s + x)];
    assert ApplyUpdates(map["sum" := Int(s + x)], []) == Success(map["sum" := Int(s + x)]);
  }

  /** A step the filter rejects. */
  lemma SkipStep(filter: Env -> bool, s: int, x: int)
    requires !filter(map["sum" := Int(s), "n" := Int(x)])
    ensures StepByName(map["sum" := Int(s)], ["n"], [Int(x)], filter, SumBody) == Success(map["sum" := Int(s)])
  {
    assert Bind(["n"], [Int(x)]) == map["n" := Int(x)];
    assert map["sum" := Int(s)] + map["n" := Int(x)] == map["sum" := Int(s), "n" := Int(x)];
  }

  lemma SumRows(k: nat)
    requires k < 5
    ensures |Zip([Ints([1, 2, 3, 4, 5])])| == 5
    ensures Zip([Ints([1, 2, 3, 4, 5])])[k] == [Int(k + 1)]
  {
    assert Zip([Ints([1, 2, 3, 4, 5])])[k][0] == Int(k + 1);
  }

  /** Step k of the running sum: it adds k + 1 when the filter accepts it. */
  lemma SumStepAt(filter: Env -> bool, partial: seq<int>, k: nat)
    requires filter == AcceptAll || filter == EvenN
    requires partial == if filter == AcceptAll then [0, 1, 3, 6, 10, 15] else [0, 0, 2, 2, 6, 6]
    requires k < 5
    ensures StepByName(map["sum" := Int(partial[k])], ["n"], [Int(k + 1)], filter, SumBody)
            == Success(map["sum" := Int(partial[k + 1])])
  {
    if filter(map["sum" := Int(partial[k]), "n" := Int(k + 1)]) {
      SumStep(filter, partial[k], k + 1);
    } else {
      SkipStep(filter, partial[k], k + 1);
    }
  }

  lemma SumFold(filter: Env -> bool, partial: seq<int>)
    requires filter == AcceptAll || filter == EvenN
    requires partial == if filter == AcceptAll then [0, 1, 3, 6, 10, 15] else [0, 0, 2, 2, 6, 6]
    ensures FoldByName(map["sum" := Int(0)], ["n"], Zip([Ints([1, 2, 3, 4, 5])]), filter, SumBody)
            == Success(map["sum" := Int(partial[5])])
  {
    var rows := Zip([Ints([1, 2, 3, 4, 5])]);
    var envs := seq(6, k requires 0 <= k < 6 => map["sum" := Int(partial[k])]);
    SumRows(0);
    forall k | 0 <= k < 5 ensures StepByName(envs[k], ["n"], rows[k], filter, SumBody) == Success(envs[k + 1]) {
      SumRows(k);
      SumStepAt(filter, partial, k);
    }
    FoldTrace(map["sum" := Int(0)], ["n"], rows, filter, SumBody, envs);
  }

  lemma SumDeclarations(accs: seq<(string, Value)>, its: seq<(string, seq<Value>)>)
    requires accs == [("sum", Int(0))] && its == [("n", Ints([1, 2, 3, 4, 5]))]
    ensures Names(accs) == ["sum"] && Names(its) == ["n"]
    ensures Payloads(its) == [Ints([1, 2, 3, 4, 5])]
    ensures InitialEnv(accs) == map["sum" := Int(0)]
  {
    assert Names(its) == ["n"] && Names(accs) == ["sum"];
    assert Payloads(its) == [Ints([1, 2, 3, 4, 5])];
  }

  /** The sum examples' runs, from the declarations: the fold ends with the expected sum. */
  lemma SumRun(accs: seq<(string, Value)>, its: seq<(string, seq<Value>)>, filter: Env -> bool, total: int)
    requires accs == [("sum", Int(0))] && its == [("n", Ints([1, 2, 3, 4, 5]))]
    requires filter == AcceptAll || filter == EvenN
    requires total == if filter == AcceptAll then 15 else 6
    ensures Names(accs) == ["sum"] && Names(its) == ["n"]
    ensures FoldByName(InitialEnv(accs), Names(its), Zip(Payloads(its)), filter, SumBody) == Success(map["sum" := Int(total)])
  {
    SumDeclarations(accs, its);
    SumFold(filter, if filter == AcceptAll then [0, 1, 3, 6, 10, 15] else [0, 0, 2, 2, 6, 6]);
  }

  /** Summing [1, 2, 3, 4, 5] gives [15]; summing only its even numbers gives [6]. */
  lemma ExampleSum(accs: seq<(string, Value)>, its: seq<(string, seq<Value>)>, filter: Env -> bool, total: int)
    requires accs == [("sum", Int(0))] && its == [("n", Ints([1, 2, 3, 4, 5]))]
    requires filter == AcceptAll || filter == EvenN
    requires total == if filter == AcceptAll then 15 else 6
    ensures Evaluate(accs, its, filter, SumBody, AccumulatorList) == Success(List([Int(total)]))
  {
    SumRun(accs, its, filter, total);
    DefaultResult(accs, its, filter, SumBody);
    assert Evaluate(accs, its, filter, SumBody, AccumulatorList).value.items == [Int(total)];
  }

  /** With the result function `sum` stored in the builder, the same runs give 15 and 6. */
  lemma ExampleSumResult(accs: seq<(string, Value)>, its: seq<(string, seq<Value>)>, filter: Env -> bool, total: int)
    requires accs == [("sum", Int(0))] && its == [("n", Ints([1, 2, 3, 4, 5]))]
    requires filter == AcceptAll || filter == EvenN
    requires total == if filter == AcceptAll then 15 else 6
    ensures Evaluate(accs, its, filter, SumBody, Custom(e => Arg(e, "sum"))) == Success(Int(total))
  {
    SumRun(accs, its, filter, total);
  }

  /** `{"sum1": sum1 + a, "sum2": sum2 + b}` */
  function PairBody(e: Env): Updates {
    [("sum1", Int(IntOf(Arg(e, "sum1")) + IntOf(Arg(e, "a")))), ("sum2", Int(IntOf(Arg(e, "sum2")) + IntOf(Arg(e, "b"))))]
  }

  function Sums(s1: int, s2: int): Env {
    map["sum1" := Int(s1), "sum2" := Int(s2)]
  }

  lemma PairStep(s1: int, s2: int, x: int, y: int)
    ensures StepByName(Sums(s1, s2), ["a", "b"], [Int(x), Int(y)], AcceptAll, PairBody) == Success(Sums(s1 + x, s2 + y))
  {
    assert Bind(["a", "b"], [Int(x), Int(y)]) == map["a" := Int(x), "b" := Int(y)] by {
      assert ["a", "b"][1..] == ["b"] && [Int(x), Int(y)][1..] == [Int(y)];
      assert Bind(["b"], [Int(y)]) == map["b" := Int(y)];
    }
    var current := map["sum1" := Int(s1), "sum2" := Int(s2), "a" := Int(x), "b" := Int(y)];
    assert Sums(s1, s2) + map["a" := Int(x), "b" := Int(y)] == current;
    var updates := PairBody(current);
    assert updates == [("sum1", Int(s1 + x)), ("sum2", Int(s2 + y))];
    var mid := Sums(s1 + x, s2);
    assert Sums(s1, s2)["sum1" := Int(s1 + x)] == mid;
    assert updates[1..] == [("sum2", Int(s2 + y))] && updates[1..][1..] == [];
    assert mid["sum2" := Int(s2 + y)] == Sums(s1 + x, s2 + y);
    assert ApplyUpdates(Sums(s1 + x, s2 + y), []) == Success(Sums(s1 + x, s2 + y));
    assert ApplyUpdates(mid, updates[1..]) == Success(Sums(s1 + x, s2 + y));
    assert ApplyUpdates(Sums(s1, s2), updates) == Success(Sums(s1 + x, s2 + y));
    assert AcceptAll(current);
  }

  lemma PairRows(k: nat)
    requires k < 3
    ensures |Zip([Ints([1, 2, 3]), Ints([10, 20, 30])])| == 3
    ensures Zip([Ints([1, 2, 3]), Ints([10, 20, 30])])[k] == [Int(k + 1), Int(10 * (k + 1))]
  {
    var rows := Zip([Ints([1, 2, 3]), Ints([10, 20, 30])]);
    assert rows[k][0] == Int(k + 1) && rows[k][1] == Int(10 * (k + 1));
  }

  /** The two running sums over a = [1, 2, 3] and b = [10, 20, 30], in lock-step. */
  lemma PairFold()
    ensures FoldByName(Sums(0, 0), ["a", "b"], Zip([Ints([1, 2, 3]), Ints([10, 20, 30])]), AcceptAll, PairBody)
            == Success(Sums(6, 60))
  {
    var rows := Zip([Ints([1, 2, 3]), Ints([10, 20, 30])]);
    var first, second := [0, 1, 3, 6], [0, 10, 30, 60];
    var envs := seq(4, k requires 0 <= k < 4 => Sums(first[k], second[k]));
    PairRows(0);
    forall k | 0 <= k < 3 ensures StepByName(envs[k], ["a", "b"], rows[k], AcceptAll, PairBody) == Success(envs[k + 1]) {
      PairRows(k);
      PairStep(first[k], second[k], k + 1, 10 * (k + 1));
    }
    FoldTrace(Sums(0, 0), ["a", "b"], rows, AcceptAll, PairBody, envs);
  }

  lemma PairDeclarations(accs: seq<(string, Value)>, its: seq<(string, seq<Value>)>)
    requires accs == [("sum1", Int(0)), ("sum2", Int(0))] && its == [("a", Ints([1, 2, 3])), ("b", Ints([10, 20, 30]))]
    ensures Names(accs) == ["sum1", "sum2"] && Names(its) == ["a", "b"]
    ensures Payloads(its) == [Ints([1, 2, 3]), Ints([10, 20, 30])]
    ensures InitialEnv(accs) == Sums(0, 0)
  {
    assert Names(its) == ["a", "b"] && Names(accs) == ["sum1", "sum2"];
    assert Payloads(its) == [Ints([1, 2, 3]), Ints([10, 20, 30])];
    assert Payloads(accs) == [Int(0), Int(0)];
    assert Bind(["sum2"], [Int(0)]) == map["sum2" := Int(0)];
  }

  lemma PairRun(accs: seq<(string, Value)>, its: seq<(string, seq<Value>)>)
    requires accs == [("sum1", Int(0)), ("sum2", Int(0))] && its == [("a", Ints([1, 2, 3])), ("b", Ints([10, 20, 30]))]
    ensures Names(accs) == ["sum1", "sum2"] && Names(its) == ["a", "b"]
    ensures FoldByName(InitialEnv(accs), Names(its), Zip(Payloads(its)), AcceptAll, PairBody) == Success(Sums(6, 60))
  {
    PairDeclarations(accs, its);
    PairFold();
  }

  lemma PairVars()
    ensures var vars := FinalVars(Sums(6, 60), ["a", "b"]);
            "sum1" in vars && "sum2" in vars && vars["sum1"] == Int(6) && vars["sum2"] == Int(60)
  {
    assert "sum1" !in ["a", "b"] && "sum2" !in ["a", "b"];
  }

  lemma PairList()
    ensures Project(AccumulatorList, ["sum1", "sum2"], FinalVars(Sums(6, 60), ["a", "b"])) == List([Int(6), Int(60)])
  {
    PairVars();
    var vars := FinalVars(Sums(6, 60), ["a", "b"]);
    assert Project(AccumulatorList, ["sum1", "sum2"], vars).items == [Int(6), Int(60)];
  }

  /** Two accumulators over two iterables give [6, 60]. */
  lemma ExamplePairs(accs: seq<(string, Value)>, its: seq<(string, seq<Value>)>)
    requires accs == [("sum1", Int(0)), ("sum2", Int(0))] && its == [("a", Ints([1, 2, 3])), ("b", Ints([10, 20, 30]))]
    ensures Evaluate(accs, its, AcceptAll, PairBody, AccumulatorList) == Success(List([Int(6), Int(60)]))
  {
    PairRun(accs, its);
    EvaluateOutcome(accs, its, AcceptAll, PairBody, AccumulatorList, Sums(6, 60));
    PairList();
  }

  /** With the result function `(sum1, sum2)` stored in the builder, the same run gives (6, 60). */
  lemma ExamplePairsResult(accs: seq<(string, Value)>, its: seq<(string, seq<Value>)>)
    requires accs == [("sum1", Int(0)), ("sum2", Int(0))] && its == [("a", Ints([1, 2, 3])), ("b", Ints([10, 20, 30]))]
    ensures Evaluate(accs, its, AcceptAll, PairBody, Custom(e => Tuple([Arg(e, "sum1"), Arg(e, "sum2")])))
            == Success(Tuple([Int(6), Int(60)]))
  {
    PairRun(accs, its);
    EvaluateOutcome(accs, its, AcceptAll, PairBody, Custom(e => Tuple([Arg(e, "sum1"), Arg(e, "sum2")])), Sums(6, 60));
    PairVars();
  }

  /** `{"sum": sum + n, "product": product * n}` */
  function SumProductBody(e: Env): Updates {
    [("sum", Int(IntOf(Arg(e, "sum")) + IntOf(Arg(e, "n")))), ("product", Int(IntOf(Arg(e, "product")) * IntOf(Arg(e, "n"))))]
  }

  function SumProduct(s: int, p: int): Env {
    map["sum" := Int(s), "product" := Int(p)]
  }

  lemma SumProductStep(s: int, p: int, x: int)
    ensures StepByName(SumProduct(s, p), ["n"], [Int(x)], AcceptAll, SumProductBody) == Success(SumProduct(s + x, p * x))
  {
    assert Bind(["n"], [Int(x)]) == map["n" := Int(x)];
    var current := map["sum" := Int(s), "product" := Int(p), "n" := Int(x)];
    assert SumProduct(s, p) + map["n" := Int(x)] == current;
    var updates := SumProductBody(current);
    assert updates == [("sum", Int(s + x)), ("product", Int(p * x))];
    var mid := SumProduct(s + x, p);
    assert SumProduct(s, p)["sum" := Int(s + x)] == mid;
    assert updates[1..] == [("product", Int(p * x))] && updates[1..][1..] == [];
    assert mid["product" := Int(p * x)] == SumProduct(s + x, p * x);
    assert ApplyUpdates(SumProduct(s + x, p * x), []) == Success(SumProduct(s + x, p * x));
    assert ApplyUpdates(mid, updates[1..]) == Success(SumProduct(s + x, p * x));
    assert ApplyUpdates(SumProduct(s, p), updates) == Success(SumProduct(s + x, p * x));
    assert AcceptAll(current);
  }

  lemma SumProductRows(k: nat)
    requires k < 4
    ensures |Zip([Ints([1, 2, 3, 4])])| == 4
    ensures Zip([Ints([1, 2, 3, 4])])[k] == [Int(k + 1)]
  {
    assert Zip([Ints([1, 2, 3, 4])])[k][0] == Int(k + 1);
  }

  /** The running sum and product over [1, 2, 3, 4]. */
  lemma SumProductFold()
    ensures FoldByName(SumProduct(0, 1), ["n"], Zip([Ints([1, 2, 3, 4])]), AcceptAll, SumProductBody)
            == Success(SumProduct(10, 24))
  {
    var rows := Zip([Ints([1, 2, 3, 4])]);
    var sums, products := [0, 1, 3, 6, 10], [1, 1, 2, 6, 24];
    var envs := seq(5, k requires 0 <= k < 5 => SumProduct(sums[k], products[k]));
    SumProductRows(0);
    forall k | 0 <= k < 4 ensures StepByName(envs[k], ["n"], rows[k], AcceptAll, SumProductBody) == Success(envs[k + 1]) {
      SumProductRows(k);
      SumProductStep(sums[k], products[k], k + 1);
    }
    FoldTrace(SumProduct(0, 1), ["n"], rows, AcceptAll, SumProductBody, envs);
  }

  lemma SumProductDeclarations(accs: seq<(string, Value)>, its: seq<(string, seq<Value>)>)
    requires accs == [("sum", Int(0)), ("product", Int(1))] && its == [("n", Ints([1, 2, 3, 4]))]
    ensures Names(accs) == ["sum", "product"] && Names(its) == ["n"]
    ensures Payloads(its) == [Ints([1, 2, 3, 4])]
    ensures InitialEnv(accs) == SumProduct(0, 1)
  {
    assert Names(its) == ["n"] && Names(accs) == ["sum", "product"];
    assert Payloads(its) == [Ints([1, 2, 3, 4])];
    assert Payloads(accs) == [Int(0), Int(1)];
    assert Bind(["product"], [Int(1)]) == map["product" := Int(1)];
  }

  lemma SumProductList()
    ensures Project(AccumulatorList, ["sum", "product"], FinalVars(SumProduct(10, 24), ["n"])) == List([Int(10), Int(24)])
  {
    assert "sum" !in ["n"] && "product" !in ["n"];
    var vars := FinalVars(SumProduct(10, 24), ["n"]);
    assert Project(AccumulatorList, ["sum", "product"], vars).items == [Int(10), Int(24)];
  }

  /** A sum and a product over [1, 2, 3, 4] give [10, 24]. */
  lemma ExampleSumProduct(accs: seq<(string, Value)>, its: seq<(string, seq<Value>)>)
    requires accs == [("sum", Int(0)), ("product", Int(1))] && its == [("n", Ints([1, 2, 3, 4]))]
    ensures Evaluate(accs, its, AcceptAll, SumProductBody, AccumulatorList) == Success(List([Int(10), Int(24)]))
  {
    SumProductDeclarations(accs, its);
    SumProductFold();
    EvaluateOutcome(accs, its, AcceptAll, SumProductBody, AccumulatorList, SumProduct(10, 24));
    SumProductList();
  }

  // ---- Bodies that return a key that is not an accumulator -----------------------------

  /** `{"total": sum + n}` */
  function TotalBody(e: Env): Updates {
    [("total", Int(IntOf(Arg(e, "sum")) + IntOf(Arg(e, "n"))))]
  }

  /** `{"total1": sum1 + a, "total2": sum2 + b}` */
  function TotalsBody(e: Env): Updates {
    [("total1", Int(IntOf(Arg(e, "sum1")) + IntOf(Arg(e, "a")))), ("total2", Int(IntOf(Arg(e, "sum2")) + IntOf(Arg(e, "b"))))]
  }

  lemma TotalStep()
    ensures StepByName(map["sum" := Int(0)], ["n"], [Int(1)], AcceptAll, TotalBody) == Failure(InvalidAccumulatorName("total"))
  {
    assert Bind(["n"], [Int(1)]) == map["n" := Int(1)];
    var current := map["sum" := Int(0), "n" := Int(1)];
    assert map["sum" := Int(0)] + map["n" := Int(1)] == current;
    assert TotalBody(current)[0].0 == "total";
  }

  /** The first step already raises, naming `total`; nothing after it runs. */
  lemma ExampleUnknownKey(accs: seq<(string, Value)>, its: seq<(string, seq<Value>)>, result: ResultFunction)
    requires accs == [("sum", Int(0))] && its == [("n", Ints([1, 2, 3, 4, 5]))]
    ensures Evaluate(accs, its, AcceptAll, TotalBody, result) == Failure(InvalidAccumulatorName("total"))
  {
    SumDeclarations(accs, its);
    var rows := Zip(Payloads(its));
    SumRows(0);
    FoldStep(map["sum" := Int(0)], ["n"], rows, AcceptAll, TotalBody, 0, map["sum" := Int(0)]);
    TotalStep();
    FoldFailureSticks(map["sum" := Int(0)], ["n"], rows, AcceptAll, TotalBody, 1);
  }

  /** With two unknown keys, the error names the first one in the dict's order, `total1`. */
  lemma ExampleUnknownKeys(accs: seq<(string, Value)>, its: seq<(string, seq<Value>)>, result: ResultFunction)
    requires accs == [("sum1", Int(0)), ("sum2", Int(0))] && its == [("a", Ints([1, 2, 3])), ("b", Ints([10, 20, 30]))]
    ensures Evaluate(accs, its, AcceptAll, TotalsBody, result) == Failure(InvalidAccumulatorName("total1"))
  {
    PairDeclarations(accs, its);
    var rows := Zip(Payloads(its));
    PairRows(0);
    FoldStep(Sums(0, 0), ["a", "b"], rows, AcceptAll, TotalsBody, 0, Sums(0, 0));
    assert StepByName(Sums(0, 0), ["a", "b"], rows[0], AcceptAll, TotalsBody) == Failure(InvalidAccumulatorName("total1"));
    FoldFailureSticks(Sums(0, 0), ["a", "b"], rows, AcceptAll, TotalsBody, 1);
  }

  /**
   * The tests' first case, both ways: passing the result function to
   * `for_fold` raises "Unsupported operation", while storing it in the
   * builder gives the 15 the tests expect.
   */
  method ResultRecordDiscrepancy() returns (asWritten: Result<Value, Error>, intended: Result<Value, Error>)
    ensures asWritten == Failure(UnsupportedOperation)
    ensures intended == Success(Int(15))
  {
    var accs, its := [("sum", Int(0))], [("n", Ints([1, 2, 3, 4, 5]))];
    var result := (e: Env) => Arg(e, "sum");
    asWritten := ForFold(accs, its, Some(SumBody), AcceptAll, Some(result));
    intended := ForFoldWithResult(accs, its, Some(SumBody), AcceptAll, result);
    ExampleSumResult(accs, its, AcceptAll, 15);
  }
}
