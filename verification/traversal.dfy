/**
 * The two traversal strategies over named sources, and the binding of one
 * step's values to the source names.
 *
 *  - synchronized (Python's `zip(*sources)`): lock-step, as many steps as the
 *    shortest source, none when there are no sources;
 *  - exhaustive (`itertools.product(*sources)`): the cross product, first
 *    source varying slowest, exactly one empty step when there are no sources.
 */
module Traversal {
  import opened Values

  /** Length of the shortest source, 0 when there are no sources. */
  function ShortestLength<T>(sources: seq<seq<T>>): (n: nat)
    ensures |sources| == 0 ==> n == 0
    ensures forall j :: 0 <= j < |sources| ==> n <= |sources[j]|
    ensures |sources| > 0 ==> exists j :: 0 <= j < |sources| && n == |sources[j]|
  {
    if |sources| == 0 then 0
    else if |sources| == 1 then |sources[0]|
    else
      var rest := ShortestLength(sources[1..]);
      assert forall j :: 1 <= j < |sources| ==> sources[j] == sources[1..][j - 1];
      if |sources[0]| <= rest then |sources[0]| else rest
  }

  /** `zip(*sources)`: row i holds the i-th element of every source, in source order. */
  function Zip<T>(sources: seq<seq<T>>): (rows: seq<seq<T>>)
    ensures |rows| == ShortestLength(sources)
    ensures forall i :: 0 <= i < |rows| ==> |rows[i]| == |sources|
    ensures forall i, j :: 0 <= i < |rows| && 0 <= j < |sources| ==> rows[i][j] == sources[j][i]
  {
    var n := ShortestLength(sources);
    seq(n, i requires 0 <= i < n => seq(|sources|, j requires 0 <= j < |sources| => sources[j][i]))
  }

  /** Product of the source lengths; 1 for no sources. */
  function ProductLength<T>(sources: seq<seq<T>>): nat {
    if |sources| == 0 then 1 else |sources[0]| * ProductLength(sources[1..])
  }

  /** Every head in order, each followed by every tail in order. */
  function PrependEach<T>(heads: seq<T>, tails: seq<seq<T>>): (rows: seq<seq<T>>)
    ensures |rows| == |heads| * |tails|
  {
    if |heads| == 0 then []
    else seq(|tails|, k requires 0 <= k < |tails| => [heads[0]] + tails[k]) + PrependEach(heads[1..], tails)
  }

  /** `itertools.product(*sources)`. */
  function CrossProduct<T>(sources: seq<seq<T>>): (rows: seq<seq<T>>)
    ensures |rows| == ProductLength(sources)
  {
    if |sources| == 0 then [[]] else PrependEach(sources[0], CrossProduct(sources[1..]))
  }

  lemma {:induction false} PrependEachAt<T>(heads: seq<T>, tails: seq<seq<T>>, a: nat, b: nat)
    requires a < |heads| && b < |tails|
    ensures a * |tails| + b < |PrependEach(heads, tails)|
    ensures PrependEach(heads, tails)[a * |tails| + b] == [heads[a]] + tails[b]
  {
    var t := |tails|;
    assert (a + 1) * t <= |heads| * t by { MulMono(a + 1, |heads|, t); }
    if a > 0 {
      PrependEachAt(heads[1..], tails, a - 1, b);
      assert a * t + b == t + ((a - 1) * t + b);
    }
  }

  lemma MulMono(x: nat, y: nat, t: nat)
    requires x <= y
    ensures x * t <= y * t
  {}

  /**
   * The exhaustive order: row a * R + b of the cross product (R being the
   * number of rows of the remaining sources) is the a-th element of the first
   * source followed by row b of the remaining sources. So the first source
   * varies slowest and the last source fastest.
   */
  lemma CrossProductOrder<T>(sources: seq<seq<T>>, a: nat, b: nat)
    requires |sources| > 0 && a < |sources[0]| && b < ProductLength(sources[1..])
    ensures a * ProductLength(sources[1..]) + b < |CrossProduct(sources)|
    ensures CrossProduct(sources)[a * ProductLength(sources[1..]) + b] == [sources[0][a]] + CrossProduct(sources[1..])[b]
  {
    PrependEachAt(sources[0], CrossProduct(sources[1..]), a, b);
  }

  /** Row k of PrependEach is some head followed by some tail. */
  lemma {:induction false} PrependEachSplit<T>(heads: seq<T>, tails: seq<seq<T>>, k: nat) returns (a: nat, b: nat)
    requires k < |PrependEach(heads, tails)|
    ensures a < |heads| && b < |tails|
    ensures PrependEach(heads, tails)[k] == [heads[a]] + tails[b]
  {
    if k < |tails| {
      a, b := 0, k;
    } else {
      assert |heads| * |tails| == |tails| + (|heads| - 1) * |tails|;
      var a';
      a', b := PrependEachSplit(heads[1..], tails, k - |tails|);
      a := a' + 1;
    }
  }

  /** Each head followed by each tail is a row of PrependEach. */
  lemma {:induction false} PrependEachContains<T>(heads: seq<T>, tails: seq<seq<T>>, x: T, t: seq<T>)
    requires x in heads && t in tails
    ensures [x] + t in PrependEach(heads, tails)
  {
    if heads[0] == x {
      var k :| 0 <= k < |tails| && tails[k] == t;
      assert PrependEach(heads, tails)[k] == [x] + t;
    } else {
      PrependEachContains(heads[1..], tails, x, t);
    }
  }

  /** Every row of the cross product picks one element from each source, in source order. */
  lemma {:induction false} CrossProductRows<T>(sources: seq<seq<T>>, k: nat)
    requires k < |CrossProduct(sources)|
    ensures |CrossProduct(sources)[k]| == |sources|
    ensures forall j :: 0 <= j < |sources| ==> CrossProduct(sources)[k][j] in sources[j]
  {
    if |sources| > 0 {
      var a, b := PrependEachSplit(sources[0], CrossProduct(sources[1..]), k);
      CrossProductRows(sources[1..], b);
      forall j | 1 <= j < |sources| ensures CrossProduct(sources)[k][j] in sources[j] {
        assert sources[j] == sources[1..][j - 1];
      }
    }
  }

  /** Every way of picking one element from each source occurs as a row of the cross product. */
  lemma {:induction false} CrossProductComplete<T>(sources: seq<seq<T>>, pick: seq<T>)
    requires |pick| == |sources|
    requires forall j :: 0 <= j < |sources| ==> pick[j] in sources[j]
    ensures pick in CrossProduct(sources)
  {
    if |sources| == 0 {
      assert pick == [];
    } else {
      forall j | 0 <= j < |sources| - 1 ensures pick[1..][j] in sources[1..][j] {
        assert pick[1..][j] == pick[j + 1];
      }
      CrossProductComplete(sources[1..], pick[1..]);
      PrependEachContains(sources[0], CrossProduct(sources[1..]), pick[0], pick[1..]);
      assert [pick[0]] + pick[1..] == pick;
    }
  }

  /** Zero sources give exactly one step, and it is empty. */
  lemma CrossProductOfNothing<T>(sources: seq<seq<T>>)
    requires |sources| == 0
    ensures CrossProduct(sources) == [[]]
  {}

  /**
   * `dict(zip(names, values))`: names paired with values up to the shorter
   * list; a later duplicate name overrides an earlier one.
   */
  function Bind(names: seq<string>, values: seq<Value>): (b: Env)
    decreases |names|
  {
    if |names| == 0 || |values| == 0 then map[]
    else map[names[0] := values[0]] + Bind(names[1..], values[1..])
  }

  /** Binding defines exactly the paired names; each holds the value paired with its last occurrence. */
  lemma BindMeaning(names: seq<string>, values: seq<Value>)
    ensures Bind(names, values).Keys == set i | 0 <= i < |names| && i < |values| :: names[i]
    ensures forall i :: 0 <= i < |names| && i < |values| && LastOccurrence(names, i, |values|) ==>
              Bind(names, values)[names[i]] == values[i]
  {
    BindKeys(names, values);
    BindValues(names, values);
  }

  lemma {:induction false} BindKeys(names: seq<string>, values: seq<Value>)
    ensures Bind(names, values).Keys == set i | 0 <= i < |names| && i < |values| :: names[i]
    decreases |names|
  {
    if |names| > 0 && |values| > 0 {
      BindKeys(names[1..], values[1..]);
      var b := Bind(names, values);
      forall x | x in b.Keys ensures x in set i | 0 <= i < |names| && i < |values| :: names[i] {
        if x != names[0] {
          var i :| 0 <= i < |names[1..]| && i < |values[1..]| && names[1..][i] == x;
          assert names[i + 1] == x;
        }
      }
      forall i | 0 <= i < |names| && i < |values| ensures names[i] in b.Keys {
        if i > 0 { assert names[i] == names[1..][i - 1]; }
      }
    }
  }

  lemma {:induction false} BindValues(names: seq<string>, values: seq<Value>)
    ensures forall i :: 0 <= i < |names| && i < |values| && LastOccurrence(names, i, |values|) ==>
              names[i] in Bind(names, values) && Bind(names, values)[names[i]] == values[i]
    decreases |names|
  {
    if |names| > 0 && |values| > 0 {
      BindValues(names[1..], values[1..]);
      BindKeys(names[1..], values[1..]);
      var b := Bind(names, values);
      forall i | 0 <= i < |names| && i < |values| && LastOccurrence(names, i, |values|)
        ensures names[i] in b && b[names[i]] == values[i]
      {
        if i > 0 {
          assert names[1..][i - 1] == names[i];
          assert LastOccurrence(names[1..], i - 1, |values[1..]|);
        } else if |names| > 1 && |values| > 1 {
          assert names[0] !in Bind(names[1..], values[1..]).Keys;
        }
      }
    }
  }

  /** No later paired position (below `bound`) repeats the name at position i. */
  ghost predicate LastOccurrence(names: seq<string>, i: nat, bound: nat) {
    forall j :: i < j < |names| && j < bound ==> names[j] != names[i]
  }

  /** `{name: value for name, value in accumulators}`. */
  function InitialEnv(accumulators: seq<(string, Value)>): (env: Env)
    ensures env.Keys == set i | 0 <= i < |accumulators| :: accumulators[i].0
    ensures forall i :: 0 <= i < |accumulators| ==> accumulators[i].0 in env
    ensures forall i :: 0 <= i < |accumulators| && LastOccurrence(Names(accumulators), i, |accumulators|) ==>
              env[accumulators[i].0] == accumulators[i].1
  {
    BindMeaning(Names(accumulators), Payloads(accumulators));
    assert forall i :: 0 <= i < |accumulators| ==> Names(accumulators)[i] == accumulators[i].0;
    Bind(Names(accumulators), Payloads(accumulators))
  }

  /** Source names bound to one row of values: `dict(zip(source_names, row))`. */
  function StepBindings(sources: seq<(string, seq<Value>)>, row: seq<Value>): Env {
    Bind(Names(sources), row)
  }

  /** The synchronized traversal, each step as its bindings. */
  function ZipSteps(sources: seq<(string, seq<Value>)>): (steps: seq<Env>)
    ensures |steps| == ShortestLength(Payloads(sources))
  {
    var rows := Zip(Payloads(sources));
    seq(|rows|, i requires 0 <= i < |rows| => StepBindings(sources, rows[i]))
  }

  /** The exhaustive traversal, each step as its bindings. */
  function ProductSteps(sources: seq<(string, seq<Value>)>): (steps: seq<Env>)
    ensures |steps| == ProductLength(Payloads(sources))
  {
    var rows := CrossProduct(Payloads(sources));
    seq(|rows|, i requires 0 <= i < |rows| => StepBindings(sources, rows[i]))
  }

  /**
   * A synchronized step binds every source name and nothing else, and a
   * source name (not repeated later) is bound to that source's i-th element.
   */
  lemma ZipStepMeaning(sources: seq<(string, seq<Value>)>, i: nat)
    requires i < |ZipSteps(sources)|
    ensures ZipSteps(sources)[i].Keys == set j | 0 <= j < |sources| :: sources[j].0
    ensures forall j :: 0 <= j < |sources| && LastOccurrence(Names(sources), j, |sources|) ==>
              ZipSteps(sources)[i][sources[j].0] == sources[j].1[i]
  {
    var rows := Zip(Payloads(sources));
    BindMeaning(Names(sources), rows[i]);
    assert (set j | 0 <= j < |Names(sources)| && j < |rows[i]| :: Names(sources)[j]) == set j | 0 <= j < |sources| :: sources[j].0;
  }

  /**
   * A single source gives one step per element, binding just that name.
   */
  lemma {:induction false} SingleSourceSteps(name: string, xs: seq<Value>)
    ensures ZipSteps([(name, xs)]) == seq(|xs|, i requires 0 <= i < |xs| => map[name := xs[i]])
    ensures ProductSteps([(name, xs)]) == seq(|xs|, i requires 0 <= i < |xs| => map[name := xs[i]])
  {
    var sources := [(name, xs)];
    assert Payloads(sources) == [xs];
    assert Names(sources) == [name];
    var rows := Zip([xs]);
    PrependEachOfOne(xs);
    forall i | 0 <= i < |xs|
      ensures ZipSteps(sources)[i] == map[name := xs[i]]
      ensures ProductSteps(sources)[i] == map[name := xs[i]]
    {
      assert rows[i] == [xs[i]];
      assert Bind([name], [xs[i]]) == map[name := xs[i]];
    }
  }

  lemma {:induction false} PrependEachOfOne<T>(xs: seq<T>)
    ensures CrossProduct([xs]) == seq(|xs|, i requires 0 <= i < |xs| => [xs[i]])
  {
    assert [xs][1..] == [];
    var r := seq(|xs|, i requires 0 <= i < |xs| => [xs[i]]);
    forall i | 0 <= i < |xs| ensures CrossProduct([xs])[i] == r[i] {
      CrossProductOrder([xs], i, 0);
    }
  }

  /** Two sources of two elements each: the second source varies fastest. */
  lemma CrossProductTwoByTwo<T>(x: T, y: T, a: T, b: T)
    ensures CrossProduct([[x, y], [a, b]]) == [[x, a], [x, b], [y, a], [y, b]]
  {
    var tails := [[a], [b]];
    assert [[x, y], [a, b]][1..] == [[a, b]];
    PrependEachOfOne([a, b]);
    assert CrossProduct([[a, b]]) == tails;
    PrependEachAt([x, y], tails, 0, 0);
    PrependEachAt([x, y], tails, 0, 1);
    PrependEachAt([x, y], tails, 1, 0);
    PrependEachAt([x, y], tails, 1, 1);
    var rows := CrossProduct([[x, y], [a, b]]);
    assert |rows| == 4;
    assert [x] + [a] == [x, a] && [x] + [b] == [x, b] && [y] + [a] == [y, a] && [y] + [b] == [y, b];
    assert rows[0] == [x, a] && rows[1] == [x, b] && rows[2] == [y, a] && rows[3] == [y, b];
  }

  lemma BindTwo(n1: string, n2: string, v1: Value, v2: Value)
    ensures Bind([n1, n2], [v1, v2]) == map[n1 := v1, n2 := v2]
  {
    assert [n1, n2][1..] == [n2] && [v1, v2][1..] == [v2];
    assert Bind([n2], [v2]) == map[n2 := v2];
  }

  /** The exhaustive traversal of two two-element sources, step by step. */
  lemma ProductStepsTwoByTwo(n1: string, n2: string, x: Value, y: Value, a: Value, b: Value)
    ensures ProductSteps([(n1, [x, y]), (n2, [a, b])])
            == [map[n1 := x, n2 := a], map[n1 := x, n2 := b], map[n1 := y, n2 := a], map[n1 := y, n2 := b]]
  {
    var sources := [(n1, [x, y]), (n2, [a, b])];
    assert Payloads(sources) == [[x, y], [a, b]];
    assert Names(sources) == [n1, n2];
    CrossProductTwoByTwo(x, y, a, b);
    BindTwo(n1, n2, x, a);
    BindTwo(n1, n2, x, b);
    BindTwo(n1, n2, y, a);
    BindTwo(n1, n2, y, b);
  }

  // ---- The filter stage over a traversal -------------------------------------------

  /** Positions, in order, of the steps `when` accepts: the steps whose body runs. */
  function PassingIndices(steps: seq<Env>, when: Env -> bool): (idx: seq<nat>)
    ensures |idx| <= |steps|
    ensures forall k :: 0 <= k < |idx| ==> idx[k] < |steps|
  {
    if |steps| == 0 then []
    else
      var n := |steps| - 1;
      PassingIndices(steps[..n], when) + (if when(steps[n]) then [n] else [])
  }

  /**
   * The passing indices are exactly the accepted positions, each once, in
   * increasing order.
   */
  lemma {:induction false} PassingMeaning(steps: seq<Env>, when: Env -> bool)
    ensures var idx := PassingIndices(steps, when);
            (forall k :: 0 <= k < |idx| ==> when(steps[idx[k]])) &&
            (forall k, l :: 0 <= k < l < |idx| ==> idx[k] < idx[l]) &&
            (forall i :: 0 <= i < |steps| && when(steps[i]) ==> i in idx)
  {
    if |steps| > 0 {
      var n := |steps| - 1;
      PassingMeaning(steps[..n], when);
      assert forall i :: 0 <= i < n ==> steps[..n][i] == steps[i];
    }
  }

  /** Extending the traversal by one step extends the passing indices by that step, if it passes. */
  lemma PassingSnoc(steps: seq<Env>, when: Env -> bool, i: nat)
    requires i < |steps|
    ensures PassingIndices(steps[..i + 1], when) == PassingIndices(steps[..i], when) + (if when(steps[i]) then [i] else [])
  {
    assert steps[..i + 1][..i] == steps[..i];
  }

  /** Position of the first step satisfying `p`, or |steps| if none does. */
  function IndexOfFirst(steps: seq<Env>, p: Env -> bool): (k: nat)
    ensures k <= |steps|
    ensures k < |steps| ==> p(steps[k])
    ensures forall i :: 0 <= i < k ==> !p(steps[i])
  {
    if |steps| == 0 then 0
    else if p(steps[0]) then 0
    else
      var k := IndexOfFirst(steps[1..], p);
      assert forall i :: 1 <= i <= k ==> steps[i] == steps[1..][i - 1];
      1 + k
  }

  /** When every step passes, every step's body runs, in order. */
  lemma {:induction false} AllPassing(steps: seq<Env>, when: Env -> bool)
    requires forall i :: 0 <= i < |steps| ==> when(steps[i])
    ensures PassingIndices(steps, when) == seq(|steps|, i requires 0 <= i < |steps| => i)
  {
    if |steps| > 0 {
      var n := |steps| - 1;
      AllPassing(steps[..n], when);
    }
  }
}
