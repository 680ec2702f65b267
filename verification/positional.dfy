/**
 * The by-position fold engines: `GeneratorComprehension`
 * (comps/generator_comprehension.py) walks its iterables in lock-step, and
 * `for_fold_nest` (comps/for_fold_nest.py) walks their cross product. In
 * both, the body returns a tuple holding one new value per accumulator, in
 * declaration order, and the default result is a dict of the accumulators.
 */
module Positional {
  import opened Values
  import opened PyDict
  import opened Traversal

  // ---- Specification ----------------------------------------------------------------

  /**
   * One step: the filter and the body see the accumulators as of the start of
   * the step with the step's bindings merged over them. The body's result
   * must be a tuple with one value per accumulator; its i-th value replaces
   * the i-th accumulator.
   */
  function StepByPosition(env: Env, names: seq<string>, row: seq<Value>, accNames: seq<string>,
                          filter: Env -> bool, body: Env -> Value): (r: Result<Env, Error>)
  {
    var current := env + Bind(names, row);
    if !filter(current) then Success(env)
    else
      var updated := body(current);
      if !updated.Tuple? then Failure(NotATuple)
      else if |updated.items| != |accNames| then Failure(ArityMismatch)
      else Success(env + Bind(accNames, updated.items))
  }

  /** The fold over the rows in order; the first error ends it. */
  function FoldByPosition(env0: Env, names: seq<string>, rows: seq<seq<Value>>, accNames: seq<string>,
                          filter: Env -> bool, body: Env -> Value): (r: Result<Env, Error>)
    decreases |rows|
  {
    if |rows| == 0 then Success(env0)
    else
      match FoldByPosition(env0, names, rows[..|rows| - 1], accNames, filter, body)
      case Failure(e) => Failure(e)
      case Success(env) => StepByPosition(env, names, rows[|rows| - 1], accNames, filter, body)
  }

  /** `{name: env[name] for name in accumulator_names}`, keyed by the names as strings. */
  function DefaultDict(accNames: seq<string>, env: Env): Value
    requires forall i :: 0 <= i < |accNames| ==> accNames[i] in env
  {
    Dict(FromPairs(AccumulatorPairs(accNames, env)))
  }

  function AccumulatorPairs(accNames: seq<string>, env: Env): (pairs: seq<(Value, Value)>)
    requires forall i :: 0 <= i < |accNames| ==> accNames[i] in env
    ensures |pairs| == |accNames|
    ensures forall i :: 0 <= i < |accNames| ==> pairs[i] == (Str(accNames[i]), env[accNames[i]])
  {
    seq(|accNames|, i requires 0 <= i < |accNames| => (Str(accNames[i]), env[accNames[i]]))
  }

  /** The result: the given result function applied to the accumulators, or the default dict. */
  function Finish(result: Option<Env -> Value>, accNames: seq<string>, env: Env): Value
    requires forall i :: 0 <= i < |accNames| ==> accNames[i] in env
  {
    match result
    case Some(f) => f(env)
    case None => DefaultDict(accNames, env)
  }

  /** What a by-position engine returns for these declarations, traversing `rows`. */
  function EvaluateByPosition(accumulators: seq<(string, Value)>, iterables: seq<(string, seq<Value>)>,
                              rows: seq<seq<Value>>, filter: Env -> bool, body: Env -> Value,
                              result: Option<Env -> Value>): Result<Value, Error>
  {
    var env0 := InitialEnv(accumulators);
    match FoldByPosition(env0, Names(iterables), rows, Names(accumulators), filter, body)
    case Failure(e) => Failure(e)
    case Success(env) =>
      FoldByPositionKeys(env0, Names(iterables), rows, Names(accumulators), filter, body);
      Success(Finish(result, Names(accumulators), env))
  }

  // ---- Properties -------------------------------------------------------------------

  /**
   * A step's outcome: a rejected step changes nothing; an accepted step raises
   * TypeError for a non-tuple and ValueError for a tuple of the wrong length;
   * otherwise the i-th value replaces the i-th accumulator (the last one, if a
   * name repeats), every other variable keeps its value, and no variable is
   * added or removed.
   */
  lemma StepByPositionOutcome(env: Env, names: seq<string>, row: seq<Value>, accNames: seq<string>,
                              filter: Env -> bool, body: Env -> Value)
    requires forall i :: 0 <= i < |accNames| ==> accNames[i] in env
    ensures var current := env + Bind(names, row);
            var r := StepByPosition(env, names, row, accNames, filter, body);
            && (!filter(current) ==> r == Success(env))
            && (filter(current) && !body(current).Tuple? ==> r == Failure(NotATuple))
            && (filter(current) && body(current).Tuple? && |body(current).items| != |accNames| ==> r == Failure(ArityMismatch))
            && (filter(current) && body(current).Tuple? && |body(current).items| == |accNames| ==>
                  && r.Success? && r.value.Keys == env.Keys
                  && (forall i :: 0 <= i < |accNames| && LastOccurrence(accNames, i, |accNames|) ==>
                        r.value[accNames[i]] == body(current).items[i])
                  && (forall k :: k in env && k !in accNames ==> r.value[k] == env[k]))
  {
    var current := env + Bind(names, row);
    var updated := body(current);
    if filter(current) && updated.Tuple? && |updated.items| == |accNames| {
      BindMeaning(accNames, updated.items);
      var r := env + Bind(accNames, updated.items);
      forall k | k in env && k !in accNames ensures r[k] == env[k] {
        assert k !in Bind(accNames, updated.items);
      }
    }
  }

  /** Every successful fold keeps the variable set: no accumulator is added or removed. */
  lemma {:induction false} FoldByPositionKeys(env0: Env, names: seq<string>, rows: seq<seq<Value>>, accNames: seq<string>,
                                              filter: Env -> bool, body: Env -> Value)
    requires forall i :: 0 <= i < |accNames| ==> accNames[i] in env0
    ensures var r := FoldByPosition(env0, names, rows, accNames, filter, body);
            r.Success? ==> r.value.Keys == env0.Keys
    decreases |rows|
  {
    if |rows| > 0 {
      var init := rows[..|rows| - 1];
      FoldByPositionKeys(env0, names, init, accNames, filter, body);
      var prev := FoldByPosition(env0, names, init, accNames, filter, body);
      if prev.Success? {
        StepByPositionOutcome(prev.value, names, rows[|rows| - 1], accNames, filter, body);
      }
    }
  }

  /** If the filter rejects every step, the accumulators end as they started. */
  lemma {:induction false} RejectedStepsAreInertByPosition(env0: Env, names: seq<string>, rows: seq<seq<Value>>,
                                                           accNames: seq<string>, filter: Env -> bool, body: Env -> Value)
    requires forall i :: 0 <= i < |rows| ==> !filter(env0 + Bind(names, rows[i]))
    ensures FoldByPosition(env0, names, rows, accNames, filter, body) == Success(env0)
    decreases |rows|
  {
    if |rows| > 0 {
      var init := rows[..|rows| - 1];
      assert forall i :: 0 <= i < |init| ==> init[i] == rows[i];
      RejectedStepsAreInertByPosition(env0, names, init, accNames, filter, body);
    }
  }

  /**
   * The fold is a left fold over the rows in order: a chain of successful
   * steps leading from env0 through envs ends at the chain's last environment.
   */
  lemma {:induction false} FoldTraceByPosition(env0: Env, names: seq<string>, rows: seq<seq<Value>>, accNames: seq<string>,
                                               filter: Env -> bool, body: Env -> Value, envs: seq<Env>)
    requires |envs| == |rows| + 1 && envs[0] == env0
    requires forall k :: 0 <= k < |rows| ==>
               StepByPosition(envs[k], names, rows[k], accNames, filter, body) == Success(envs[k + 1])
    ensures FoldByPosition(env0, names, rows, accNames, filter, body) == Success(envs[|rows|])
    decreases |rows|
  {
    if |rows| > 0 {
      var n := |rows| - 1;
      FoldTraceByPosition(env0, names, rows[..n], accNames, filter, body, envs[..n + 1]);
    }
  }

  /** Once a step raises, the run ends with that error. */
  lemma {:induction false} FoldByPositionFailureSticks(env0: Env, names: seq<string>, rows: seq<seq<Value>>,
                                                       accNames: seq<string>, filter: Env -> bool, body: Env -> Value, n: nat)
    requires n <= |rows|
    requires FoldByPosition(env0, names, rows[..n], accNames, filter, body).Failure?
    ensures FoldByPosition(env0, names, rows, accNames, filter, body) == FoldByPosition(env0, names, rows[..n], accNames, filter, body)
    decreases |rows|
  {
    if n < |rows| {
      var init := rows[..|rows| - 1];
      assert init[..n] == rows[..n];
      FoldByPositionFailureSticks(env0, names, init, accNames, filter, body, n);
    } else {
      assert rows[..n] == rows;
    }
  }

  /**
   * The default dict has exactly the accumulator names as keys, each mapped to
   * its final value; with distinct names its entries are in declaration order.
   */
  lemma DefaultDictMeaning(accNames: seq<string>, env: Env)
    requires forall i :: 0 <= i < |accNames| ==> accNames[i] in env
    ensures DefaultDict(accNames, env).Dict?
    ensures var d := DefaultDict(accNames, env).entries;
            && DistinctKeys(d)
            && Keys(d) == (set i | 0 <= i < |accNames| :: Str(accNames[i]))
            && forall i :: 0 <= i < |accNames| ==> Get(d, Str(accNames[i])) == Some(env[accNames[i]])
    ensures (forall i, j :: 0 <= i < j < |accNames| ==> accNames[i] != accNames[j]) ==>
              DefaultDict(accNames, env).entries == AccumulatorPairs(accNames, env)
  {
    var pairs := AccumulatorPairs(accNames, env);
    FromPairsKeys(pairs);
    assert Keys(pairs) == (set i | 0 <= i < |accNames| :: Str(accNames[i])) by {
      forall x | x in Keys(pairs) ensures x in set i | 0 <= i < |accNames| :: Str(accNames[i]) {
        var i :| 0 <= i < |pairs| && pairs[i].0 == x;
      }
      forall i | 0 <= i < |accNames| ensures Str(accNames[i]) in Keys(pairs) {
        assert pairs[i].0 == Str(accNames[i]);
      }
    }
    forall i | 0 <= i < |accNames| ensures Get(FromPairs(pairs), Str(accNames[i])) == Some(env[accNames[i]]) {
      var last := LastIndexOf(accNames, i);
      FromPairsLastWriteWins(pairs, last);
    }
    if forall i, j :: 0 <= i < j < |accNames| ==> accNames[i] != accNames[j] {
      FromDistinctPairs(pairs);
    }
  }

  /** The last position holding the same name as position i. */
  lemma LastIndexOf(names: seq<string>, i: nat) returns (last: nat)
    requires i < |names|
    ensures i <= last < |names| && names[last] == names[i]
    ensures forall j :: last < j < |names| ==> names[j] != names[i]
    decreases |names| - i
  {
    if exists j :: i < j < |names| && names[j] == names[i] {
      var j :| i < j < |names| && names[j] == names[i];
      last := LastIndexOf(names, j);
    } else {
      last := i;
    }
  }

  // ---- The loops ----------------------------------------------------------------------

  /** `for name, value in zip(accumulator_names, values): env[name] = value`. */
  method AssignAccumulators(env: Env, accNames: seq<string>, values: seq<Value>) returns (r: Env)
    ensures r == env + Bind(accNames, values)
  {
    r := env;
    var j := 0;
    while j < |accNames| && j < |values|
      invariant 0 <= j <= |accNames| && j <= |values|
      invariant env + Bind(accNames, values) == r + Bind(accNames[j..], values[j..])
    {
      BindFrom(r, accNames, values, j);
      r := r[accNames[j] := values[j]];
      j := j + 1;
    }
  }

  /** Helper: writing the j-th pair, then binding the rest, is binding from j on. */
  lemma BindFrom(env: Env, names: seq<string>, values: seq<Value>, j: nat)
    requires j < |names| && j < |values|
    ensures env + Bind(names[j..], values[j..]) == env[names[j] := values[j]] + Bind(names[j + 1..], values[j + 1..])
  {
    assert names[j..][1..] == names[j + 1..] && values[j..][1..] == values[j + 1..];
    var rest := Bind(names[j + 1..], values[j + 1..]);
    assert Bind(names[j..], values[j..]) == map[names[j] := values[j]] + rest;
    assert env + (map[names[j] := values[j]] + rest) == env[names[j] := values[j]] + rest;
  }

  /**
   * The step loop shared by both engines: each accepted row's body result is
   * checked (tuple, then arity) and written back position by position.
   */
  method FoldRowsByPosition(env0: Env, names: seq<string>, rows: seq<seq<Value>>, accNames: seq<string>,
                            filter: Env -> bool, body: Env -> Value)
    returns (r: Result<Env, Error>)
    ensures r == FoldByPosition(env0, names, rows, accNames, filter, body)
  {
    var env := env0;
    var i := 0;
    while i < |rows|
      invariant 0 <= i <= |rows|
      invariant FoldByPosition(env0, names, rows[..i], accNames, filter, body) == Success(env)
    {
      var current := env + Bind(names, rows[i]);
      assert rows[..i + 1][..i] == rows[..i];
      if filter(current) {
        var updated := body(current);
        if !updated.Tuple? {
          FoldByPositionFailureSticks(env0, names, rows, accNames, filter, body, i + 1);
          return Failure(NotATuple);
        }
        if |updated.items| != |accNames| {
          FoldByPositionFailureSticks(env0, names, rows, accNames, filter, body, i + 1);
          return Failure(ArityMismatch);
        }
        env := AssignAccumulators(env, accNames, updated.items);
      }
      i := i + 1;
    }
    assert rows[..i] == rows;
    r := Success(env);
  }

  // ---- The engines --------------------------------------------------------------------

  class GeneratorComprehension {
    var iterables: seq<(string, seq<Value>)>
    var accumulators: seq<(string, Value)>
    var body: Env -> Value
    var when: Env -> bool
    var result: Option<Env -> Value>

    /** Stores its arguments unchanged (`when` defaults to AcceptAll at the call site). */
    constructor (iterables: seq<(string, seq<Value>)>, accumulators: seq<(string, Value)>,
                 body: Env -> Value, when: Env -> bool, result: Option<Env -> Value>)
      ensures this.iterables == iterables && this.accumulators == accumulators
      ensures this.body == body && this.when == when && this.result == result
    {
      this.iterables := iterables;
      this.accumulators := accumulators;
      this.body := body;
      this.when := when;
      this.result := result;
    }

    /** `run`: the by-position fold over the lock-step rows of the iterables. */
    method Run() returns (r: Result<Value, Error>)
      ensures r == EvaluateByPosition(accumulators, iterables, Zip(Payloads(iterables)), when, body, result)
    {
      var env0 := InitialEnv(accumulators);
      var accNames := Names(accumulators);
      var folded := FoldRowsByPosition(env0, Names(iterables), Zip(Payloads(iterables)), accNames, when, body);
      match folded {
        case Failure(e) =>
          r := Failure(e);
        case Success(env) =>
          FoldByPositionKeys(env0, Names(iterables), Zip(Payloads(iterables)), accNames, when, body);
          r := Success(Finish(result, accNames, env));
      }
    }
  }

  /** `for_fold_nest`: the by-position fold over the cross product of the iterables. */
  method ForFoldNest(accumulators: seq<(string, Value)>, iterables: seq<(string, seq<Value>)>,
                     body: Env -> Value, when: Env -> bool, result: Option<Env -> Value>)
    returns (r: Result<Value, Error>)
    ensures r == EvaluateByPosition(accumulators, iterables, CrossProduct(Payloads(iterables)), when, body, result)
  {
    var env0 := InitialEnv(accumulators);
    var accNames := Names(accumulators);
    var folded := FoldRowsByPosition(env0, Names(iterables), CrossProduct(Payloads(iterables)), accNames, when, body);
    match folded {
      case Failure(e) =>
        r := Failure(e);
      case Success(env) =>
        FoldByPositionKeys(env0, Names(iterables), CrossProduct(Payloads(iterables)), accNames, when, body);
        r := Success(Finish(result, accNames, env));
    }
  }

  // ---- The worked example of for_fold_nest --------------------------------------------

  /** `(sum + ord(j) * i,)` */
  function NestBody(e: Env): Value {
    Tuple([Int(IntOf(Arg(e, "sum")) + Ord(Arg(e, "j")) * IntOf(Arg(e, "i")))])
  }

  lemma NestStep(s: int, i: int, c: char)
    ensures StepByPosition(map["sum" := Int(s)], ["i", "j"], [Int(i), Str([c])], ["sum"], AcceptAll, NestBody)
            == Success(map["sum" := Int(s + (c as int) * i)])
  {
    assert Bind(["i", "j"], [Int(i), Str([c])]) == map["i" := Int(i), "j" := Str([c])] by {
      assert ["i", "j"][1..] == ["j"] && [Int(i), Str([c])][1..] == [Str([c])];
      assert Bind(["j"], [Str([c])]) == map["j" := Str([c])];
    }
    var current := map["sum" := Int(s), "i" := Int(i), "j" := Str([c])];
    assert map["sum" := Int(s)] + map["i" := Int(i), "j" := Str([c])] == current;
    assert AcceptAll(current);
    assert NestBody(current) == Tuple([Int(s + (c as int) * i)]);
    assert Bind(["sum"], [Int(s + (c as int) * i)]) == map["sum" := Int(s + (c as int) * i)];
    assert map["sum" := Int(s)] + map["sum" := Int(s + (c as int) * i)] == map["sum" := Int(s + (c as int) * i)];
  }

  /** Over the rows of i in [1, 2] and j in ['a', 'b'], the running `sum + ord(j) * i` ends at 585. */
  lemma NestFold(rows: seq<seq<Value>>)
    requires rows == [[Int(1), Str("a")], [Int(1), Str("b")], [Int(2), Str("a")], [Int(2), Str("b")]]
    ensures FoldByPosition(map["sum" := Int(0)], ["i", "j"], rows, ["sum"], AcceptAll, NestBody)
            == Success(map["sum" := Int(585)])
  {
    var partial := [0, 97, 195, 389, 585];
    var envs := seq(5, k requires 0 <= k < 5 => map["sum" := Int(partial[k])]);
    forall k | 0 <= k < |rows|
      ensures StepByPosition(envs[k], ["i", "j"], rows[k], ["sum"], AcceptAll, NestBody) == Success(envs[k + 1])
    {
      var i := if k < 2 then 1 else 2;
      var c := if k % 2 == 0 then 'a' else 'b';
      assert rows[k] == [Int(i), Str([c])];
      NestStep(partial[k], i, c);
      assert partial[k + 1] == partial[k] + (c as int) * i;
    }
    FoldTraceByPosition(map["sum" := Int(0)], ["i", "j"], rows, ["sum"], AcceptAll, NestBody, envs);
  }

  lemma NestDeclarations(accs: seq<(string, Value)>, its: seq<(string, seq<Value>)>)
    requires accs == [("sum", Int(0))] && its == [("i", Ints([1, 2])), ("j", [Str("a"), Str("b")])]
    ensures Names(accs) == ["sum"] && Names(its) == ["i", "j"]
    ensures Payloads(its) == [[Int(1), Int(2)], [Str("a"), Str("b")]]
    ensures InitialEnv(accs) == map["sum" := Int(0)]
  {
    assert Names(its) == ["i", "j"] && Names(accs) == ["sum"];
    assert Ints([1, 2]) == [Int(1), Int(2)];
    assert Payloads(its) == [[Int(1), Int(2)], [Str("a"), Str("b")]];
  }

  lemma NestRun(accs: seq<(string, Value)>, its: seq<(string, seq<Value>)>)
    requires accs == [("sum", Int(0))] && its == [("i", Ints([1, 2])), ("j", [Str("a"), Str("b")])]
    ensures Names(accs) == ["sum"]
    ensures FoldByPosition(InitialEnv(accs), Names(its), CrossProduct(Payloads(its)), Names(accs), AcceptAll, NestBody)
            == Success(map["sum" := Int(585)])
  {
    NestDeclarations(accs, its);
    CrossProductTwoByTwo(Int(1), Int(2), Str("a"), Str("b"));
    NestFold(CrossProduct(Payloads(its)));
  }

  /**
   * The for_fold_nest example with the result `sum`: the run returns 585 (the
   * inline "390" next to it is only the i = 2 share).
   */
  lemma ExampleNest(accs: seq<(string, Value)>, its: seq<(string, seq<Value>)>)
    requires accs == [("sum", Int(0))] && its == [("i", Ints([1, 2])), ("j", [Str("a"), Str("b")])]
    ensures EvaluateByPosition(accs, its, CrossProduct(Payloads(its)), AcceptAll, NestBody, Some(e => Arg(e, "sum")))
            == Success(Int(585))
  {
    NestRun(accs, its);
  }

  /** The same run without a result returns the accumulators as a dict: {"sum": 585}. */
  lemma ExampleNestDefault(accs: seq<(string, Value)>, its: seq<(string, seq<Value>)>)
    requires accs == [("sum", Int(0))] && its == [("i", Ints([1, 2])), ("j", [Str("a"), Str("b")])]
    ensures EvaluateByPosition(accs, its, CrossProduct(Payloads(its)), AcceptAll, NestBody, None)
            == Success(Dict([(Str("sum"), Int(585))]))
  {
    NestRun(accs, its);
    DefaultDictMeaning(["sum"], map["sum" := Int(585)]);
    assert AccumulatorPairs(["sum"], map["sum" := Int(585)]) == [(Str("sum"), Int(585))];
  }
}
