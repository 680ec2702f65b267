/**
 * The collecting comprehensions. Each maps `body` over the accepted steps of
 * a traversal, in order, and combines what it gets:
 *   for_generator       the values yielded over the synchronized traversal (no filter);
 *   for_generator_nest  the values yielded over the exhaustive traversal;
 *   for_list_nest, for_tuple_nest   those values as a list / a tuple;
 *   for_dict_nest       each value unpacked into a key and a value and written into a dict;
 *   for_sum_nest        0 plus the values;
 *   for_product_nest    1 times the values, by `reduce(operator.mul, ..., 1)`.
 */
module Collectors {
  import opened Values
  import opened PyDict
  import opened Traversal
  import Search

  // ---- What the accepted steps yield ---------------------------------------------------

  /** `[body(s) for s in steps if when(s)]`. */
  function Collect<T>(steps: seq<Env>, when: Env -> bool, body: Env -> T): seq<T> {
    if |steps| == 0 then []
    else
      var n := |steps| - 1;
      Collect(steps[..n], when, body) + (if when(steps[n]) then [body(steps[n])] else [])
  }

  /** What is collected is the body at each passing index, in order. */
  lemma {:induction false} CollectMeaning<T>(steps: seq<Env>, when: Env -> bool, body: Env -> T)
    ensures var idx := PassingIndices(steps, when);
            var items := Collect(steps, when, body);
            |items| == |idx| && forall k :: 0 <= k < |items| ==> items[k] == body(steps[idx[k]])
  {
    if |steps| > 0 {
      var n := |steps| - 1;
      CollectMeaning(steps[..n], when, body);
      assert forall i :: 0 <= i < n ==> steps[..n][i] == steps[i];
    }
  }

  lemma CollectSnoc<T>(steps: seq<Env>, when: Env -> bool, body: Env -> T, i: nat)
    requires i < |steps|
    ensures Collect(steps[..i + 1], when, body)
            == Collect(steps[..i], when, body) + (if when(steps[i]) then [body(steps[i])] else [])
  {
    assert steps[..i + 1][..i] == steps[..i];
  }

  /** Collecting only appends: what the first i steps yield is a prefix of what all steps yield. */
  lemma {:induction false} CollectGrows<T>(steps: seq<Env>, when: Env -> bool, body: Env -> T, i: nat)
    requires i <= |steps|
    ensures Collect(steps[..i], when, body) <= Collect(steps, when, body)
    decreases |steps| - i
  {
    if i < |steps| {
      CollectGrows(steps, when, body, i + 1);
      CollectSnoc(steps, when, body, i);
    } else {
      assert steps[..i] == steps;
    }
  }

  /** When every step is accepted, one item is collected per step, in order. */
  lemma CollectAccepted<T>(steps: seq<Env>, when: Env -> bool, body: Env -> T)
    requires forall i :: 0 <= i < |steps| ==> when(steps[i])
    ensures |Collect(steps, when, body)| == |steps|
    ensures forall i :: 0 <= i < |steps| ==> Collect(steps, when, body)[i] == body(steps[i])
  {
    AllPassing(steps, when);
    CollectMeaning(steps, when, body);
  }

  /** for_generator: one value per synchronized step, in order, as many as the shortest source. */
  function ForGenerator(iterables: seq<(string, seq<Value>)>, generatorFn: Env -> Value): (items: seq<Value>)
    ensures |items| == ShortestLength(Payloads(iterables))
    ensures |iterables| == 0 ==> items == []
    ensures forall i :: 0 <= i < |items| ==> items[i] == generatorFn(ZipSteps(iterables)[i])
  {
    AllPassing(ZipSteps(iterables), AcceptAll);
    CollectMeaning(ZipSteps(iterables), AcceptAll, generatorFn);
    Collect(ZipSteps(iterables), AcceptAll, generatorFn)
  }

  /**
   * for_generator_nest: the body of each accepted combination, in product
   * order, one item per accepted combination; at most one value per
   * combination, exactly one when all are accepted.
   */
  function ForGeneratorNest(iterables: seq<(string, seq<Value>)>, body: Env -> Value, when: Env -> bool): (items: seq<Value>)
    ensures |items| <= ProductLength(Payloads(iterables))
    ensures var steps := ProductSteps(iterables);
            var idx := PassingIndices(steps, when);
            |items| == |idx| && forall k :: 0 <= k < |items| ==> items[k] == body(steps[idx[k]])
    ensures (forall i :: 0 <= i < |ProductSteps(iterables)| ==> when(ProductSteps(iterables)[i])) ==>
              |items| == ProductLength(Payloads(iterables)) &&
              forall i :: 0 <= i < |items| ==> items[i] == body(ProductSteps(iterables)[i])
  {
    var steps := ProductSteps(iterables);
    CollectMeaning(steps, when, body);
    if forall i :: 0 <= i < |steps| ==> when(steps[i]) then
      AllPassing(steps, when);
      Collect(steps, when, body)
    else
      Collect(steps, when, body)
  }

  // ---- Lists and tuples --------------------------------------------------------------

  /** The loop of for_list_nest, for_tuple_nest and for_product_nest: append the body of each accepted step. */
  method CollectSteps<T>(steps: seq<Env>, when: Env -> bool, body: Env -> T) returns (result: seq<T>)
    ensures result == Collect(steps, when, body)
  {
    result := [];
    var i := 0;
    while i < |steps|
      invariant 0 <= i <= |steps|
      invariant result == Collect(steps[..i], when, body)
    {
      CollectSnoc(steps, when, body, i);
      if when(steps[i]) {
        var item := body(steps[i]);
        result := result + [item];
      }
      i := i + 1;
    }
    assert steps[..i] == steps;
  }

  /** for_list_nest: the list of what for_generator_nest yields. */
  method ForListNest(iterables: seq<(string, seq<Value>)>, body: Env -> Value, when: Env -> bool) returns (r: Value)
    ensures r == List(ForGeneratorNest(iterables, body, when))
  {
    var result := CollectSteps(ProductSteps(iterables), when, body);
    r := List(result);
  }

  /** for_tuple_nest: the same items, in the same order, as a tuple. */
  method ForTupleNest(iterables: seq<(string, seq<Value>)>, body: Env -> Value, when: Env -> bool) returns (r: Value)
    ensures r == Tuple(ForGeneratorNest(iterables, body, when))
  {
    var result := CollectSteps(ProductSteps(iterables), when, body);
    r := Tuple(result);
  }

  // ---- Dicts -------------------------------------------------------------------------

  /**
   * `key, value = v`: a tuple, list, string or dict of exactly two elements
   * unpacks (a string into its characters, a dict into its keys); another
   * length raises ValueError, a value that is not iterable TypeError.
   */
  function Unpack2(v: Value): Result<(Value, Value), Error> {
    match v
    case Tuple(xs) => if |xs| == 2 then Success((xs[0], xs[1])) else Failure(UnpackCount)
    case List(xs) => if |xs| == 2 then Success((xs[0], xs[1])) else Failure(UnpackCount)
    case Str(s) => if |s| == 2 then Success((Str([s[0]]), Str([s[1]]))) else Failure(UnpackCount)
    case Dict(es) => if |es| == 2 then Success((es[0].0, es[1].0)) else Failure(UnpackCount)
    case _ => Failure(CannotUnpack)
  }

  /** Lists and dicts cannot be dict keys, nor can a tuple holding one. */
  predicate Hashable(v: Value) {
    match v
    case List(_) => false
    case Dict(_) => false
    case Tuple(xs) => forall i :: 0 <= i < |xs| ==> Hashable(xs[i])
    case _ => true
  }

  /**
   * One body value as a dict write, by the shape of the value: a tuple or list
   * of two is written as (key, value) when its head is hashable; a string of
   * two characters writes the first character as key and the second as value;
   * a dict of two entries writes its first key as key and its second key as
   * value. Any other length raises the count error, a value that cannot be
   * iterated the unpacking error, and an unhashable key the hashing error,
   * after the unpacking.
   */
  function Write(v: Value): (r: Result<(Value, Value), Error>)
    ensures (v.Tuple? || v.List?) && |v.items| == 2 ==>
              r == if Hashable(v.items[0]) then Success((v.items[0], v.items[1])) else Failure(Unhashable)
    ensures (v.Tuple? || v.List?) && |v.items| != 2 ==> r == Failure(UnpackCount)
    ensures v.Str? ==> r == if |v.s| == 2 then Success((Str([v.s[0]]), Str([v.s[1]]))) else Failure(UnpackCount)
    ensures v.Dict? && |v.entries| == 2 ==>
              r == if Hashable(v.entries[0].0) then Success((v.entries[0].0, v.entries[1].0)) else Failure(Unhashable)
    ensures v.Dict? && |v.entries| != 2 ==> r == Failure(UnpackCount)
    ensures v.PyNone? || v.Bool? || v.Int? ==> r == Failure(CannotUnpack)
    ensures r.Success? ==> Hashable(r.value.0)
  {
    match Unpack2(v)
    case Failure(e) => Failure(e)
    case Success(kv) => if Hashable(kv.0) then Success(kv) else Failure(Unhashable)
  }

  /** The writes of a sequence of body values, in order; the first value that cannot be written raises. */
  function Writes(items: seq<Value>): Result<seq<(Value, Value)>, Error> {
    if |items| == 0 then Success([])
    else
      match Writes(items[..|items| - 1])
      case Failure(e) => Failure(e)
      case Success(ws) =>
        match Write(items[|items| - 1])
        case Failure(e) => Failure(e)
        case Success(w) => Success(ws + [w])
  }

  lemma WritesSnoc(items: seq<Value>, x: Value)
    ensures Writes(items + [x]) == match Writes(items)
                                   case Failure(e) => Failure(e)
                                   case Success(ws) =>
                                     match Write(x)
                                     case Failure(e) => Failure(e)
                                     case Success(w) => Success(ws + [w])
  {
    assert (items + [x])[..|items|] == items;
  }

  /**
   * The writes succeed exactly when every value can be written, and are then
   * those writes in order; otherwise the error is that of the first value
   * that cannot be written.
   */
  lemma {:induction false} WritesMeaning(items: seq<Value>)
    ensures Writes(items).Success? <==> forall k :: 0 <= k < |items| ==> Write(items[k]).Success?
    ensures Writes(items).Success? ==>
              |Writes(items).value| == |items| &&
              forall k :: 0 <= k < |items| ==> Writes(items).value[k] == Write(items[k]).value
    ensures Writes(items).Failure? ==>
              exists j :: 0 <= j < |items| && Write(items[j]) == Failure(Writes(items).error) &&
                          forall k :: 0 <= k < j ==> Write(items[k]).Success?
  {
    if |items| > 0 {
      var n := |items| - 1;
      WritesMeaning(items[..n]);
      assert forall k :: 0 <= k < n ==> items[..n][k] == items[k];
      assert items[..n] + [items[n]] == items;
      WritesSnoc(items[..n], items[n]);
    }
  }

  /** Once a write raises, the run ends with that error. */
  lemma {:induction false} WritesFailureSticks(items: seq<Value>, j: nat)
    requires j <= |items| && Writes(items[..j]).Failure?
    ensures Writes(items) == Writes(items[..j])
    decreases |items| - j
  {
    if j < |items| {
      assert items[..j + 1][..j] == items[..j];
      WritesFailureSticks(items, j + 1);
    } else {
      assert items[..j] == items;
    }
  }

  /** The dict for_dict_nest builds from what the accepted combinations yield, or the error it raises. */
  function DictOf(items: seq<Value>): Result<Value, Error> {
    match Writes(items)
    case Failure(e) => Failure(e)
    case Success(ws) => Success(Dict(FromPairs(ws)))
  }

  /**
   * for_dict_nest: each accepted combination's body is unpacked into a key and
   * a value and written into the dict, a later write to a key replacing the
   * earlier one in place.
   */
  method ForDictNest(iterables: seq<(string, seq<Value>)>, body: Env -> Value, when: Env -> bool)
    returns (r: Result<Value, Error>)
    ensures r == DictOf(Collect(ProductSteps(iterables), when, body))
  {
    var steps := ProductSteps(iterables);
    var result: Entries<Value, Value> := [];
    ghost var writes: seq<(Value, Value)> := [];
    var i := 0;
    while i < |steps|
      invariant 0 <= i <= |steps|
      invariant Writes(Collect(steps[..i], when, body)) == Success(writes)
      invariant result == FromPairs(writes)
    {
      CollectSnoc(steps, when, body, i);
      if when(steps[i]) {
        var item := body(steps[i]);
        WritesSnoc(Collect(steps[..i], when, body), item);
        match Unpack2(item) {
          case Failure(e) =>
            DictFailure(steps, when, body, i + 1);
            return Failure(e);
          case Success(kv) =>
            if !Hashable(kv.0) {
              DictFailure(steps, when, body, i + 1);
              return Failure(Unhashable);
            }
            FromPairsSnoc(writes, kv);
            result := Put(result, kv.0, kv.1);
            writes := writes + [kv];
        }
      } else {
        assert Collect(steps[..i], when, body) + [] == Collect(steps[..i], when, body);
      }
      i := i + 1;
    }
    assert steps[..i] == steps;
    r := Success(Dict(result));
  }

  /** A write that raises at step i - 1 decides the whole run. */
  lemma DictFailure(steps: seq<Env>, when: Env -> bool, body: Env -> Value, i: nat)
    requires i <= |steps| && Writes(Collect(steps[..i], when, body)).Failure?
    ensures Writes(Collect(steps, when, body)) == Writes(Collect(steps[..i], when, body))
  {
    var all := Collect(steps, when, body);
    var part := Collect(steps[..i], when, body);
    CollectGrows(steps, when, body, i);
    assert all[..|part|] == part;
    WritesFailureSticks(all, |part|);
  }

  /**
   * The dict's keys are distinct and are exactly the keys written; each key
   * holds the value of the last write to it.
   */
  lemma DictOfMeaning(items: seq<Value>)
    requires Writes(items).Success?
    ensures var ws := Writes(items).value;
            DictOf(items) == Success(Dict(FromPairs(ws))) &&
            DistinctKeys(FromPairs(ws)) && Keys(FromPairs(ws)) == Keys(ws) &&
            forall i :: 0 <= i < |ws| && (forall j :: i < j < |ws| ==> ws[j].0 != ws[i].0) ==>
              Get(FromPairs(ws), ws[i].0) == Some(ws[i].1)
  {
    var ws := Writes(items).value;
    FromPairsKeys(ws);
    forall i | 0 <= i < |ws| && (forall j :: i < j < |ws| ==> ws[j].0 != ws[i].0)
      ensures Get(FromPairs(ws), ws[i].0) == Some(ws[i].1)
    {
      FromPairsLastWriteWins(ws, i);
    }
  }

  // ---- Sums and products -------------------------------------------------------------

  /** 0 plus the values, added left to right. */
  function SumOf(xs: seq<int>): int {
    if |xs| == 0 then 0 else SumOf(xs[..|xs| - 1]) + xs[|xs| - 1]
  }

  /** A sum over a concatenation is the sum of the two sums. */
  lemma {:induction false} SumOfAppend(xs: seq<int>, ys: seq<int>)
    ensures SumOf(xs + ys) == SumOf(xs) + SumOf(ys)
    decreases |ys|
  {
    if |ys| == 0 {
      assert xs + ys == xs;
    } else {
      var n := |ys| - 1;
      assert (xs + ys)[..|xs + ys| - 1] == xs + ys[..n];
      SumOfAppend(xs, ys[..n]);
    }
  }

  lemma SumOfSnoc(xs: seq<int>, x: int)
    ensures SumOf(xs + [x]) == SumOf(xs) + x
  {
    assert (xs + [x])[..|xs|] == xs;
  }

  /** for_sum_nest: the running total, from 0, of the body over the accepted combinations. */
  method ForSumNest(iterables: seq<(string, seq<Value>)>, body: Env -> int, when: Env -> bool) returns (total: int)
    ensures total == SumOf(Collect(ProductSteps(iterables), when, body))
  {
    var steps := ProductSteps(iterables);
    total := 0;
    var i := 0;
    while i < |steps|
      invariant 0 <= i <= |steps|
      invariant total == SumOf(Collect(steps[..i], when, body))
    {
      CollectSnoc(steps, when, body, i);
      if when(steps[i]) {
        SumOfSnoc(Collect(steps[..i], when, body), body(steps[i]));
        total := total + body(steps[i]);
      } else {
        assert Collect(steps[..i], when, body) + [] == Collect(steps[..i], when, body);
      }
      i := i + 1;
    }
    assert steps[..i] == steps;
  }

  /** 1 times the values. */
  function ProductOf(xs: seq<int>): int {
    if |xs| == 0 then 1 else xs[0] * ProductOf(xs[1..])
  }

  /** `functools.reduce(operator.mul, xs, acc)`: multiply into acc from the left. */
  function Reduce(xs: seq<int>, acc: int): (r: int)
    ensures r == acc * ProductOf(xs)
  {
    if |xs| == 0 then acc
    else
      var r := Reduce(xs[1..], acc * xs[0]);
      assert acc * xs[0] * ProductOf(xs[1..]) == acc * (xs[0] * ProductOf(xs[1..]));
      r
  }

  /** for_product_nest: the body values of the accepted combinations, collected, then multiplied from 1. */
  method ForProductNest(iterables: seq<(string, seq<Value>)>, body: Env -> int, when: Env -> bool) returns (r: int)
    ensures r == ProductOf(Collect(ProductSteps(iterables), when, body))
  {
    var products := CollectSteps(ProductSteps(iterables), when, body);
    r := Reduce(products, 1);
  }

  /** When no step is accepted, nothing is collected. */
  lemma {:induction false} NothingCollected<T>(steps: seq<Env>, when: Env -> bool, body: Env -> T)
    requires forall i :: 0 <= i < |steps| ==> !when(steps[i])
    ensures Collect(steps, when, body) == []
  {
    if |steps| > 0 {
      var n := |steps| - 1;
      assert forall i :: 0 <= i < n ==> steps[..n][i] == steps[i];
      NothingCollected(steps[..n], when, body);
    }
  }

  /**
   * When no combination is accepted, the generator yields nothing, the list
   * and the tuple are empty, the dict is empty, the sum is 0 and the product 1.
   */
  lemma NothingAccepted(iterables: seq<(string, seq<Value>)>, when: Env -> bool, body: Env -> Value, number: Env -> int)
    requires forall i :: 0 <= i < |ProductSteps(iterables)| ==> !when(ProductSteps(iterables)[i])
    ensures ForGeneratorNest(iterables, body, when) == []
    ensures DictOf(Collect(ProductSteps(iterables), when, body)) == Success(Dict([]))
    ensures SumOf(Collect(ProductSteps(iterables), when, number)) == 0
    ensures ProductOf(Collect(ProductSteps(iterables), when, number)) == 1
  {
    NothingCollected(ProductSteps(iterables), when, body);
    NothingCollected(ProductSteps(iterables), when, number);
  }

  // ---- The worked examples ------------------------------------------------------------

  /** for_generator's first example: squaring [1, 2, 3, 4, 5] yields 1, 4, 9, 16, 25. */
  lemma ExampleGeneratorSquares()
    ensures ForGenerator([("n", Ints([1, 2, 3, 4, 5]))], Search.Square) == Ints([1, 4, 9, 16, 25])
  {
    Search.NumberSteps([1, 2, 3, 4, 5]);
  }

  /** Two sources of equal length: step i binds each name to that source's i-th element. */
  lemma TwoSourceSteps(n1: string, n2: string, xs: seq<Value>, ys: seq<Value>, i: nat)
    requires |xs| == |ys| && i < |xs|
    ensures |ZipSteps([(n1, xs), (n2, ys)])| == |xs|
    ensures ZipSteps([(n1, xs), (n2, ys)])[i] == map[n1 := xs[i], n2 := ys[i]]
  {
    var sources := [(n1, xs), (n2, ys)];
    assert Payloads(sources) == [xs, ys] && Names(sources) == [n1, n2];
    assert ShortestLength([xs, ys]) == |xs| by {
      assert [xs, ys][1..] == [ys];
    }
    var row := Zip([xs, ys])[i];
    assert row == [xs[i], ys[i]];
    BindTwo(n1, n2, xs[i], ys[i]);
  }

  function PairAB(e: Env): Value { Tuple([Arg(e, "a"), Arg(e, "b")]) }

  /** Pairing two sources of equal length yields, at each position, the pair of their elements. */
  lemma PairsOfEqualLength(xs: seq<Value>, ys: seq<Value>)
    requires |xs| == |ys|
    ensures |ForGenerator([("a", xs), ("b", ys)], PairAB)| == |xs|
    ensures forall i :: 0 <= i < |xs| ==> ForGenerator([("a", xs), ("b", ys)], PairAB)[i] == Tuple([xs[i], ys[i]])
  {
    forall i | 0 <= i < |xs|
      ensures ForGenerator([("a", xs), ("b", ys)], PairAB)[i] == Tuple([xs[i], ys[i]])
    {
      TwoSourceSteps("a", "b", xs, ys, i);
    }
  }

  /** for_generator's second example: pairing [1, 2, 3] with [10, 20, 30] yields (1, 10), (2, 20), (3, 30). */
  lemma ExampleGeneratorPairs(xs: seq<Value>, ys: seq<Value>)
    requires xs == Ints([1, 2, 3]) && ys == Ints([10, 20, 30])
    ensures ForGenerator([("a", xs), ("b", ys)], PairAB)
            == [Tuple([Int(1), Int(10)]), Tuple([Int(2), Int(20)]), Tuple([Int(3), Int(30)])]
  {
    PairsOfEqualLength(xs, ys);
  }

  /** With every one of four combinations accepted, for_generator_nest yields the body of each, in order. */
  lemma NestOfFourSteps(iterables: seq<(string, seq<Value>)>, body: Env -> Value, steps: seq<Env>)
    requires steps == ProductSteps(iterables) && |steps| == 4
    ensures ForGeneratorNest(iterables, body, AcceptAll) == [body(steps[0]), body(steps[1]), body(steps[2]), body(steps[3])]
  {
    NestOfAllAccepted(iterables, body, steps);
    var items := ForGeneratorNest(iterables, body, AcceptAll);
    SeqOfFour(items);
  }

  lemma SeqOfFour<T>(s: seq<T>)
    requires |s| == 4
    ensures s == [s[0], s[1], s[2], s[3]]
  {
  }

  /** With every combination accepted, for_generator_nest maps the body over the product steps. */
  lemma NestOfAllAccepted(iterables: seq<(string, seq<Value>)>, body: Env -> Value, steps: seq<Env>)
    requires steps == ProductSteps(iterables)
    ensures |ForGeneratorNest(iterables, body, AcceptAll)| == |steps|
    ensures forall i :: 0 <= i < |steps| ==> ForGeneratorNest(iterables, body, AcceptAll)[i] == body(steps[i])
  {
  }

  /** The four combinations of [1, 2] and ['a', 'b'] as pairs, in product order. */
  lemma PairsOfTwoByTwo(iterables: seq<(string, seq<Value>)>)
    requires iterables == [("i", [Int(1), Int(2)]), ("j", [Str("a"), Str("b")])]
    ensures ForGeneratorNest(iterables, Search.PairIJ, AcceptAll)
            == [Tuple([Int(1), Str("a")]), Tuple([Int(1), Str("b")]), Tuple([Int(2), Str("a")]), Tuple([Int(2), Str("b")])]
  {
    ProductStepsTwoByTwo("i", "j", Int(1), Int(2), Str("a"), Str("b"));
    NestOfFourSteps(iterables, Search.PairIJ, ProductSteps(iterables));
  }

  /** for_generator_nest's and for_list_nest's examples: the pairs (1, 'a'), (1, 'b'), (2, 'a'), (2, 'b'). */
  method ExampleListNest() returns (r: Value)
    ensures r == List([Tuple([Int(1), Str("a")]), Tuple([Int(1), Str("b")]), Tuple([Int(2), Str("a")]), Tuple([Int(2), Str("b")])])
  {
    var iterables := [("i", [Int(1), Int(2)]), ("j", [Str("a"), Str("b")])];
    PairsOfTwoByTwo(iterables);
    r := ForListNest(iterables, Search.PairIJ, AcceptAll);
  }

  /** `str(n)` of an integer, in decimal. */
  function Decimal(n: int): string
    decreases if n < 0 then 1 - n else n
  {
    if n < 0 then "-" + Decimal(-n)
    else if n < 10 then ["0123456789"[n]]
    else Decimal(n / 10) + ["0123456789"[n % 10]]
  }

  /** `f"{i}{j}"` for an integer i and a string j. */
  function Combine(e: Env): Value {
    Str(Decimal(IntOf(Arg(e, "i"))) + (if Arg(e, "j").Str? then Arg(e, "j").s else ""))
  }

  lemma CombinedOfTwoByTwo(iterables: seq<(string, seq<Value>)>)
    requires iterables == [("i", [Int(1), Int(2)]), ("j", [Str("a"), Str("b")])]
    ensures ForGeneratorNest(iterables, Combine, AcceptAll) == [Str("1a"), Str("1b"), Str("2a"), Str("2b")]
  {
    ProductStepsTwoByTwo("i", "j", Int(1), Int(2), Str("a"), Str("b"));
    NestOfFourSteps(iterables, Combine, ProductSteps(iterables));
    CombinedValues();
  }

  /** `f"{i}{j}"` at the four combinations of [1, 2] and ['a', 'b']. */
  lemma CombinedValues()
    ensures Combine(map["i" := Int(1), "j" := Str("a")]) == Str("1a")
    ensures Combine(map["i" := Int(1), "j" := Str("b")]) == Str("1b")
    ensures Combine(map["i" := Int(2), "j" := Str("a")]) == Str("2a")
    ensures Combine(map["i" := Int(2), "j" := Str("b")]) == Str("2b")
  {
    CombineOfDigit(1, "a");
    CombineOfDigit(1, "b");
    CombineOfDigit(2, "a");
    CombineOfDigit(2, "b");
    assert ["0123456789"[1]] + "a" == "1a" && ["0123456789"[1]] + "b" == "1b";
    assert ["0123456789"[2]] + "a" == "2a" && ["0123456789"[2]] + "b" == "2b";
  }

  /** `f"{i}{j}"` of a one-digit i and a string j: the digit followed by j. */
  lemma CombineOfDigit(i: int, j: string)
    requires 0 <= i < 10
    ensures Combine(map["i" := Int(i), "j" := Str(j)]) == Str(["0123456789"[i]] + j)
  {
    var e := map["i" := Int(i), "j" := Str(j)];
    assert Arg(e, "i") == Int(i) && Arg(e, "j") == Str(j);
  }

  /** for_tuple_nest's example: ('1a', '1b', '2a', '2b'). */
  method ExampleTupleNest() returns (r: Value)
    ensures r == Tuple([Str("1a"), Str("1b"), Str("2a"), Str("2b")])
  {
    var iterables := [("i", [Int(1), Int(2)]), ("j", [Str("a"), Str("b")])];
    CombinedOfTwoByTwo(iterables);
    r := ForTupleNest(iterables, Combine, AcceptAll);
  }

  function MakeEntry(e: Env): Value { Tuple([Arg(e, "k"), Arg(e, "v")]) }

  lemma WriteEntry(k: string, v: int)
    ensures Write(Tuple([Str(k), Int(v)])) == Success((Str(k), Int(v)))
  {
    assert Unpack2(Tuple([Str(k), Int(v)])) == Success((Str(k), Int(v)));
    assert Hashable(Str(k));
  }

  /** The writes of the dict example: x is written 10 then 20, and so is y. */
  lemma EntryWrites(items: seq<Value>)
    requires items == [Tuple([Str("x"), Int(10)]), Tuple([Str("x"), Int(20)]),
                       Tuple([Str("y"), Int(10)]), Tuple([Str("y"), Int(20)])]
    ensures Writes(items) == Success([(Str("x"), Int(10)), (Str("x"), Int(20)), (Str("y"), Int(10)), (Str("y"), Int(20))])
  {
    WriteEntry("x", 10);
    WriteEntry("x", 20);
    WriteEntry("y", 10);
    WriteEntry("y", 20);
    WritesMeaning(items);
    var w := [(Str("x"), Int(10)), (Str("x"), Int(20)), (Str("y"), Int(10)), (Str("y"), Int(20))];
    assert forall k :: 0 <= k < 4 ==> Write(items[k]) == Success(w[k]);
    assert Writes(items).value == w;
  }

  /** One more write: the dict after `pairs + [p]` is `d` with p written at position n. */
  lemma FromPairsStep(pairs: seq<(Value, Value)>, p: (Value, Value), d: Entries<Value, Value>, n: nat, r: Entries<Value, Value>)
    requires FromPairs(pairs) == d && IndexOf(d, p.0) == n
    requires r == if n < |d| then d[n := p] else d + [p]
    ensures FromPairs(pairs + [p]) == r
  {
    FromPairsSnoc(pairs, p);
  }

  lemma EntryDict1(x: Value, a: Value)
    ensures FromPairs([(x, a)]) == [(x, a)]
  {
    assert [] + [(x, a)] == [(x, a)];
    FromPairsStep([], (x, a), [], 0, [(x, a)]);
  }

  lemma EntryDict2(x: Value, a: Value, b: Value)
    ensures FromPairs([(x, a), (x, b)]) == [(x, b)]
  {
    EntryDict1(x, a);
    assert [(x, a)] + [(x, b)] == [(x, a), (x, b)];
    FromPairsStep([(x, a)], (x, b), [(x, a)], 0, [(x, b)]);
  }

  lemma EntryDict3(x: Value, y: Value, a: Value, b: Value)
    requires x != y
    ensures FromPairs([(x, a), (x, b), (y, a)]) == [(x, b), (y, a)]
  {
    EntryDict2(x, a, b);
    assert [(x, a), (x, b)] + [(y, a)] == [(x, a), (x, b), (y, a)];
    assert IndexOf([(x, b)], y) == 1 by { assert [(x, b)][1..] == []; }
    FromPairsStep([(x, a), (x, b)], (y, a), [(x, b)], 1, [(x, b), (y, a)]);
  }

  /** Writing x := a, x := b, y := a, y := b into an empty dict leaves {x: b, y: b}. */
  lemma EntryDict(x: Value, y: Value, a: Value, b: Value)
    requires x != y
    ensures FromPairs([(x, a), (x, b), (y, a), (y, b)]) == [(x, b), (y, b)]
  {
    EntryDict3(x, y, a, b);
    assert [(x, a), (x, b), (y, a)] + [(y, b)] == [(x, a), (x, b), (y, a), (y, b)];
    assert IndexOf([(x, b), (y, a)], y) == 1 by { assert [(x, b), (y, a)][1..] == [(y, a)]; }
    FromPairsStep([(x, a), (x, b), (y, a)], (y, b), [(x, b), (y, a)], 1, [(x, b), (y, b)]);
  }

  /** for_dict_nest's example: keys ['x', 'y'] with values [10, 20] give {'x': 20, 'y': 20}. */
  method ExampleDictNest() returns (r: Result<Value, Error>)
    ensures r == Success(Dict([(Str("x"), Int(20)), (Str("y"), Int(20))]))
  {
    var iterables := [("k", [Str("x"), Str("y")]), ("v", [Int(10), Int(20)])];
    ProductStepsTwoByTwo("k", "v", Str("x"), Str("y"), Int(10), Int(20));
    var steps := ProductSteps(iterables);
    CollectAccepted(steps, AcceptAll, MakeEntry);
    var items := Collect(steps, AcceptAll, MakeEntry);
    assert items == [Tuple([Str("x"), Int(10)]), Tuple([Str("x"), Int(20)]),
                     Tuple([Str("y"), Int(10)]), Tuple([Str("y"), Int(20)])];
    EntryWrites(items);
    EntryDict(Str("x"), Str("y"), Int(10), Int(20));
    r := ForDictNest(iterables, MakeEntry, AcceptAll);
  }

  lemma SumOfFour(xs: seq<int>)
    requires |xs| == 4
    ensures SumOf(xs) == xs[0] + xs[1] + xs[2] + xs[3]
  {
    assert xs[..1][..0] == [];
    assert xs[..2][..1] == xs[..1];
    assert xs[..3][..2] == xs[..2];
    assert SumOf(xs[..1]) == xs[0];
    assert SumOf(xs[..2]) == xs[0] + xs[1];
    assert SumOf(xs[..3]) == xs[0] + xs[1] + xs[2];
  }

  function OrdTimesI(e: Env): int { IntOf(Arg(e, "i")) * Ord(Arg(e, "j")) }

  /**
   * for_sum_nest's example: i * ord(j) over [1, 2] and ['a', 'b'] totals
   * 97 + 98 + 194 + 196 = 585 (the inline "390" is only the i = 2 share).
   */
  method ExampleSumNest() returns (total: int)
    ensures total == 585
  {
    var iterables := [("i", [Int(1), Int(2)]), ("j", [Str("a"), Str("b")])];
    ProductStepsTwoByTwo("i", "j", Int(1), Int(2), Str("a"), Str("b"));
    var steps := ProductSteps(iterables);
    CollectAccepted(steps, AcceptAll, OrdTimesI);
    SumOfFour(Collect(steps, AcceptAll, OrdTimesI));
    total := ForSumNest(iterables, OrdTimesI, AcceptAll);
  }

  function Pow(base: int, exp: nat): int {
    if exp == 0 then 1 else base * Pow(base, exp - 1)
  }

  /** `i ** j` for a non-negative exponent (a negative one gives a float, outside this model). */
  function Power(e: Env): int {
    var j := IntOf(Arg(e, "j"));
    if j < 0 then 0 else Pow(IntOf(Arg(e, "i")), j)
  }

  lemma ProductOfFour(xs: seq<int>)
    requires |xs| == 4
    ensures ProductOf(xs) == xs[0] * (xs[1] * (xs[2] * xs[3]))
  {
    assert xs[3..][1..] == [];
    assert xs[2..][1..] == xs[3..];
    assert xs[1..][1..] == xs[2..];
    assert ProductOf(xs[3..]) == xs[3];
    assert ProductOf(xs[2..]) == xs[2] * xs[3];
    assert ProductOf(xs[1..]) == xs[1] * (xs[2] * xs[3]);
  }

  /**
   * for_product_nest's example: i ** j over [1, 2] and [3, 4] multiplies
   * 1 * 1 * 8 * 16 = 128 (the inline "4096" is not what the code computes).
   */
  method ExampleProductNest() returns (r: int)
    ensures r == 128
  {
    var iterables := [("i", [Int(1), Int(2)]), ("j", [Int(3), Int(4)])];
    ProductStepsTwoByTwo("i", "j", Int(1), Int(2), Int(3), Int(4));
    var steps := ProductSteps(iterables);
    CollectAccepted(steps, AcceptAll, Power);
    assert Pow(2, 3) == 8 && Pow(2, 4) == 16 && Pow(1, 3) == 1 && Pow(1, 4) == 1;
    ProductOfFour(Collect(steps, AcceptAll, Power));
    r := ForProductNest(iterables, Power, AcceptAll);
  }
}
