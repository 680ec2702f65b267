/**
 * The short-circuiting comprehensions: for_and, for_or, for_first, for_last
 * and their exhaustive (`_nest`) variants. Each walks a traversal step by
 * step, skips the steps `when` rejects, and either stops at the first
 * deciding step or remembers the last accepted one.
 *
 * The four scans are shared: a plain comprehension runs one over the
 * synchronized traversal (ZipSteps), a `_nest` one over the exhaustive
 * traversal (ProductSteps).
 */
module Search {
  import opened Values
  import opened Traversal

  // ---- The scans ---------------------------------------------------------------------

  /**
   * True unless some accepted step fails the predicate. The scan stops at the
   * first such step: `examined` steps are looked at, and the predicate runs on
   * exactly the accepted ones among them (`calls`), in order.
   */
  method AllSteps(steps: seq<Env>, when: Env -> bool, pred: Env -> bool)
    returns (b: bool, ghost examined: nat, ghost calls: seq<nat>)
    ensures b <==> forall i :: 0 <= i < |steps| && when(steps[i]) ==> pred(steps[i])
    ensures examined <= |steps| && calls == PassingIndices(steps[..examined], when)
    ensures b ==> examined == |steps|
    ensures !b ==> 0 < examined && when(steps[examined - 1]) && !pred(steps[examined - 1]) &&
                   forall i :: 0 <= i < examined - 1 && when(steps[i]) ==> pred(steps[i])
  {
    var i := 0;
    calls := [];
    while i < |steps|
      invariant 0 <= i <= |steps|
      invariant forall k :: 0 <= k < i && when(steps[k]) ==> pred(steps[k])
      invariant calls == PassingIndices(steps[..i], when)
    {
      PassingSnoc(steps, when, i);
      if when(steps[i]) {
        calls := calls + [i];
        if !pred(steps[i]) {
          return false, i + 1, calls;
        }
      }
      i := i + 1;
    }
    assert steps[..i] == steps;
    return true, i, calls;
  }

  /**
   * True as soon as an accepted step satisfies the predicate; false if none
   * does. The predicate runs on exactly the accepted steps examined, in order.
   */
  method AnySteps(steps: seq<Env>, when: Env -> bool, pred: Env -> bool)
    returns (b: bool, ghost examined: nat, ghost calls: seq<nat>)
    ensures b <==> exists i :: 0 <= i < |steps| && when(steps[i]) && pred(steps[i])
    ensures examined <= |steps| && calls == PassingIndices(steps[..examined], when)
    ensures !b ==> examined == |steps|
    ensures b ==> 0 < examined && when(steps[examined - 1]) && pred(steps[examined - 1]) &&
                  forall i :: 0 <= i < examined - 1 && when(steps[i]) ==> !pred(steps[i])
  {
    var i := 0;
    calls := [];
    while i < |steps|
      invariant 0 <= i <= |steps|
      invariant forall k :: 0 <= k < i && when(steps[k]) ==> !pred(steps[k])
      invariant calls == PassingIndices(steps[..i], when)
    {
      PassingSnoc(steps, when, i);
      if when(steps[i]) {
        calls := calls + [i];
        if pred(steps[i]) {
          assert when(steps[i]) && pred(steps[i]);
          return true, i + 1, calls;
        }
      }
      i := i + 1;
    }
    assert steps[..i] == steps;
    return false, i, calls;
  }

  /**
   * The body's value at the first accepted step; None when no step is
   * accepted. The scan stops right after that step (`examined`), and the body
   * runs at most once, at that step (`calls`).
   */
  method FirstStep(steps: seq<Env>, when: Env -> bool, body: Env -> Value)
    returns (r: Value, ghost examined: nat, ghost calls: seq<nat>)
    ensures r == if IndexOfFirst(steps, when) < |steps| then body(steps[IndexOfFirst(steps, when)]) else PyNone
    ensures examined == if IndexOfFirst(steps, when) < |steps| then IndexOfFirst(steps, when) + 1 else |steps|
    ensures calls == if IndexOfFirst(steps, when) < |steps| then [IndexOfFirst(steps, when)] else []
  {
    var i := 0;
    while i < |steps|
      invariant 0 <= i <= |steps|
      invariant forall k :: 0 <= k < i ==> !when(steps[k])
    {
      if when(steps[i]) {
        return body(steps[i]), i + 1, [i];
      }
      i := i + 1;
    }
    return PyNone, i, [];
  }

  /**
   * The body's value at the last accepted step; None when no step is accepted.
   * Every step is examined, the body runs at every accepted step in order
   * (`calls`), and the latest value is kept.
   */
  method LastStep(steps: seq<Env>, when: Env -> bool, body: Env -> Value) returns (r: Value, ghost calls: seq<nat>)
    ensures calls == PassingIndices(steps, when)
    ensures r == if |calls| > 0 then body(steps[calls[|calls| - 1]]) else PyNone
  {
    var lastValue := PyNone;
    var found := false;
    calls := [];
    var j := 0;
    while j < |steps|
      invariant 0 <= j <= |steps|
      invariant calls == PassingIndices(steps[..j], when)
      invariant found <==> |calls| > 0
      invariant lastValue == if found then body(steps[calls[|calls| - 1]]) else PyNone
    {
      PassingSnoc(steps, when, j);
      if when(steps[j]) {
        lastValue := body(steps[j]);
        found := true;
        calls := calls + [j];
        assert calls[|calls| - 1] == j;
      }
      j := j + 1;
    }
    assert steps[..j] == steps;
    return if found then lastValue else PyNone, calls;
  }

  // ---- The synchronized comprehensions ------------------------------------------------

  /** for_and: every accepted step of the synchronized traversal satisfies the predicate. */
  method ForAnd(iterables: seq<(string, seq<Value>)>, pred: Env -> bool, when: Env -> bool) returns (b: bool)
    ensures var steps := ZipSteps(iterables);
            b <==> forall i :: 0 <= i < |steps| && when(steps[i]) ==> pred(steps[i])
  {
    ghost var examined, calls;
    b, examined, calls := AllSteps(ZipSteps(iterables), when, pred);
  }

  /** for_or: some accepted step of the synchronized traversal satisfies the predicate. */
  method ForOr(iterables: seq<(string, seq<Value>)>, pred: Env -> bool, when: Env -> bool) returns (b: bool)
    ensures var steps := ZipSteps(iterables);
            b <==> exists i :: 0 <= i < |steps| && when(steps[i]) && pred(steps[i])
  {
    ghost var examined, calls;
    b, examined, calls := AnySteps(ZipSteps(iterables), when, pred);
  }

  /** for_first: the body at the first accepted step, or None. */
  method ForFirst(iterables: seq<(string, seq<Value>)>, body: Env -> Value, when: Env -> bool) returns (r: Value)
    ensures var steps := ZipSteps(iterables);
            var k := IndexOfFirst(steps, when);
            r == if k < |steps| then body(steps[k]) else PyNone
  {
    ghost var examined, calls;
    r, examined, calls := FirstStep(ZipSteps(iterables), when, body);
  }

  /** for_last: the body at the last accepted step, or None. */
  method ForLast(iterables: seq<(string, seq<Value>)>, body: Env -> Value, when: Env -> bool) returns (r: Value)
    ensures var steps := ZipSteps(iterables);
            var idx := PassingIndices(steps, when);
            r == if |idx| > 0 then body(steps[idx[|idx| - 1]]) else PyNone
  {
    var steps := ZipSteps(iterables);
    ghost var calls;
    r, calls := LastStep(steps, when, body);
  }

  // ---- The exhaustive comprehensions --------------------------------------------------

  /** for_and_nest: every accepted combination satisfies the predicate. */
  method ForAndNest(iterables: seq<(string, seq<Value>)>, pred: Env -> bool, when: Env -> bool) returns (b: bool)
    ensures var steps := ProductSteps(iterables);
            b <==> forall i :: 0 <= i < |steps| && when(steps[i]) ==> pred(steps[i])
  {
    ghost var examined, calls;
    b, examined, calls := AllSteps(ProductSteps(iterables), when, pred);
  }

  /** for_or_nest: some accepted combination satisfies the predicate. */
  method ForOrNest(iterables: seq<(string, seq<Value>)>, pred: Env -> bool, when: Env -> bool) returns (b: bool)
    ensures var steps := ProductSteps(iterables);
            b <==> exists i :: 0 <= i < |steps| && when(steps[i]) && pred(steps[i])
  {
    ghost var examined, calls;
    b, examined, calls := AnySteps(ProductSteps(iterables), when, pred);
  }

  /** for_first_nest: the body at the first accepted combination, or None. */
  method ForFirstNest(iterables: seq<(string, seq<Value>)>, body: Env -> Value, when: Env -> bool) returns (r: Value)
    ensures var steps := ProductSteps(iterables);
            var k := IndexOfFirst(steps, when);
            r == if k < |steps| then body(steps[k]) else PyNone
  {
    ghost var examined, calls;
    r, examined, calls := FirstStep(ProductSteps(iterables), when, body);
  }

  /** for_last_nest: the body at the last accepted combination, or None. */
  method ForLastNest(iterables: seq<(string, seq<Value>)>, body: Env -> Value, when: Env -> bool) returns (r: Value)
    ensures var steps := ProductSteps(iterables);
            var idx := PassingIndices(steps, when);
            r == if |idx| > 0 then body(steps[idx[|idx| - 1]]) else PyNone
  {
    var steps := ProductSteps(iterables);
    ghost var calls;
    r, calls := LastStep(steps, when, body);
  }

  // ---- Properties ---------------------------------------------------------------------

  /** In a strictly increasing index sequence the first element is the least and the last the greatest. */
  lemma SortedBounds(idx: seq<nat>)
    requires forall k, l :: 0 <= k < l < |idx| ==> idx[k] < idx[l]
    ensures forall x :: x in idx ==> idx[0] <= x <= idx[|idx| - 1]
  {
    forall x | x in idx ensures idx[0] <= x <= idx[|idx| - 1] {
      var l :| 0 <= l < |idx| && idx[l] == x;
    }
  }

  /**
   * The last passing index is the accepted step with no accepted step after it,
   * and there is none exactly when no step is accepted.
   */
  lemma LastPassing(steps: seq<Env>, when: Env -> bool)
    ensures var idx := PassingIndices(steps, when);
            (|idx| == 0 <==> forall i :: 0 <= i < |steps| ==> !when(steps[i])) &&
            (|idx| > 0 ==> var k := idx[|idx| - 1];
                           k < |steps| && when(steps[k]) && forall i :: k < i < |steps| ==> !when(steps[i]))
  {
    PassingMeaning(steps, when);
    SortedBounds(PassingIndices(steps, when));
  }

  /**
   * The first accepted step is also the first passing index: for_first and
   * for_last agree when exactly one step is accepted.
   */
  lemma FirstPassing(steps: seq<Env>, when: Env -> bool)
    ensures var idx := PassingIndices(steps, when);
            var k := IndexOfFirst(steps, when);
            (|idx| > 0 <==> k < |steps|) && (|idx| > 0 ==> idx[0] == k)
  {
    PassingMeaning(steps, when);
    SortedBounds(PassingIndices(steps, when));
  }

  /** An accepted step with no accepted step after it is the last passing index. */
  lemma LastAccepted(steps: seq<Env>, when: Env -> bool, k: nat)
    requires k < |steps| && when(steps[k])
    requires forall i :: k < i < |steps| ==> !when(steps[i])
    ensures var idx := PassingIndices(steps, when);
            |idx| > 0 && idx[|idx| - 1] == k
  {
    LastPassing(steps, when);
    PassingMeaning(steps, when);
    var idx := PassingIndices(steps, when);
    assert k in idx;
  }

  /** An accepted step with no accepted step before it is where for_first stops. */
  lemma FirstAccepted(steps: seq<Env>, when: Env -> bool, k: nat)
    requires k < |steps| && when(steps[k])
    requires forall i :: 0 <= i < k ==> !when(steps[i])
    ensures IndexOfFirst(steps, when) == k
  {
  }

  // ---- The worked examples ------------------------------------------------------------

  function N(e: Env): int { IntOf(Arg(e, "n")) }
  function IsEven(e: Env): bool { N(e) % 2 == 0 }
  function IsOdd(e: Env): bool { N(e) % 2 == 1 }
  function Square(e: Env): Value { Int(N(e) * N(e)) }
  function Cube(e: Env): Value { Int(N(e) * N(e) * N(e)) }

  /** One source named n: step i binds n to the i-th number. */
  lemma NumberSteps(xs: seq<int>)
    ensures |ZipSteps([("n", Ints(xs))])| == |xs|
    ensures forall i :: 0 <= i < |xs| ==> N(ZipSteps([("n", Ints(xs))])[i]) == xs[i]
  {
    SingleSourceSteps("n", Ints(xs));
  }

  /** for_and's first example: [2, 4, 6, 8] are all even. */
  method ExampleForAnd() returns (b: bool)
    ensures b
  {
    NumberSteps([2, 4, 6, 8]);
    b := ForAnd([("n", Ints([2, 4, 6, 8]))], IsEven, AcceptAll);
  }

  /** for_and's second example: 3 in [2, 3, 6, 8] is not even. */
  method ExampleForAndOdd() returns (b: bool)
    ensures !b
  {
    var steps := ZipSteps([("n", Ints([2, 3, 6, 8]))]);
    NumberSteps([2, 3, 6, 8]);
    b := ForAnd([("n", Ints([2, 3, 6, 8]))], IsEven, AcceptAll);
    assert AcceptAll(steps[1]) && !IsEven(steps[1]);
  }

  /** for_or's first example: none of [1, 3, 5, 7] is even. */
  method ExampleForOr() returns (b: bool)
    ensures !b
  {
    NumberSteps([1, 3, 5, 7]);
    b := ForOr([("n", Ints([1, 3, 5, 7]))], IsEven, AcceptAll);
  }

  /** for_or's second example: 4 in [1, 3, 4, 7] is even. */
  method ExampleForOrEven() returns (b: bool)
    ensures b
  {
    var steps := ZipSteps([("n", Ints([1, 3, 4, 7]))]);
    NumberSteps([1, 3, 4, 7]);
    b := ForOr([("n", Ints([1, 3, 4, 7]))], IsEven, AcceptAll);
    assert AcceptAll(steps[2]) && IsEven(steps[2]);
  }

  /** for_first's example: the first even number of [1, 3, 5, 6, 7] is 6, squared 36. */
  method ExampleForFirst() returns (r: Value)
    ensures r == Int(36)
  {
    var steps := ZipSteps([("n", Ints([1, 3, 5, 6, 7]))]);
    NumberSteps([1, 3, 5, 6, 7]);
    FirstAccepted(steps, IsEven, 3);
    r := ForFirst([("n", Ints([1, 3, 5, 6, 7]))], Square, IsEven);
  }

  /** for_last's example: the last odd number of [2, 4, 5, 7, 8] is 7, cubed 343. */
  method ExampleForLast() returns (r: Value)
    ensures r == Int(343)
  {
    var xs := [2, 4, 5, 7, 8];
    var steps := ZipSteps([("n", Ints(xs))]);
    NumberSteps(xs);
    assert N(steps[3]) == 7 && N(steps[4]) == 8;
    LastAccepted(steps, IsOdd, 3);
    r := ForLast([("n", Ints(xs))], Cube, IsOdd);
  }

  function EvenI(e: Env): bool { IntOf(Arg(e, "i")) % 2 == 0 }
  function TwoB(e: Env): bool { Arg(e, "i") == Int(2) && Arg(e, "j") == Str("b") }
  function PairIJ(e: Env): Value { Tuple([Arg(e, "i"), Arg(e, "j")]) }

  /** for_and_nest's example: every i of [2, 4] is even, whatever j of ['a', 'b']. */
  method ExampleForAndNest() returns (b: bool)
    ensures b
  {
    ProductStepsTwoByTwo("i", "j", Int(2), Int(4), Str("a"), Str("b"));
    b := ForAndNest([("i", [Int(2), Int(4)]), ("j", [Str("a"), Str("b")])], EvenI, AcceptAll);
  }

  /** for_or_nest's example: the combination (2, 'b') of [1, 2] and ['a', 'b'] is found. */
  method ExampleForOrNest() returns (b: bool)
    ensures b
  {
    var steps := ProductSteps([("i", [Int(1), Int(2)]), ("j", [Str("a"), Str("b")])]);
    ProductStepsTwoByTwo("i", "j", Int(1), Int(2), Str("a"), Str("b"));
    b := ForOrNest([("i", [Int(1), Int(2)]), ("j", [Str("a"), Str("b")])], TwoB, AcceptAll);
    assert AcceptAll(steps[3]) && TwoB(steps[3]);
  }

  /** for_first_nest's example: the first combination with i == 2 and j == 'b' is (2, 'b'). */
  method ExampleForFirstNest() returns (r: Value)
    ensures r == Tuple([Int(2), Str("b")])
  {
    var steps := ProductSteps([("i", [Int(1), Int(2)]), ("j", [Str("a"), Str("b")])]);
    ProductStepsTwoByTwo("i", "j", Int(1), Int(2), Str("a"), Str("b"));
    r := ForFirstNest([("i", [Int(1), Int(2)]), ("j", [Str("a"), Str("b")])], PairIJ, TwoB);
    assert TwoB(steps[3]) && !TwoB(steps[0]) && !TwoB(steps[1]) && !TwoB(steps[2]);
  }

  /** for_last_nest's example: accepting every combination, the last is (2, 'b'). */
  method ExampleForLastNest() returns (r: Value)
    ensures r == Tuple([Int(2), Str("b")])
  {
    var steps := ProductSteps([("i", [Int(1), Int(2)]), ("j", [Str("a"), Str("b")])]);
    ProductStepsTwoByTwo("i", "j", Int(1), Int(2), Str("a"), Str("b"));
    r := ForLastNest([("i", [Int(1), Int(2)]), ("j", [Str("a"), Str("b")])], PairIJ, AcceptAll);
    AllPassing(steps, AcceptAll);
  }
}
