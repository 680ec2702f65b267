/**
 * The by-name fold builder (comps/comprehension_builder.py).
 *
 * A builder collects accumulators and iterables through `>>`, then `run`
 * walks the iterables in lock-step: each step merges the step's bindings over
 * the current accumulators, asks the filter, and applies the body's partial
 * dict of updates. The final accumulators, with every iterable name bound to
 * None, go to the result function.
 */
module Builder {
  import opened Values
  import opened Operations
  import opened Traversal

  /**
   * The builder's result function. `run` installs AccumulatorList when none is
   * set; it reads the accumulator names when it is called, so it always lists
   * the accumulators the builder has at that time, in declaration order.
   */
  datatype ResultFunction =
    | AccumulatorList
    | Custom(f: Env -> Value)

  // ---- Specification of `run` -------------------------------------------------------

  /** The update loop of one step: write each returned key in order; an unknown key raises. */
  function ApplyUpdates(env: Env, updates: Updates): (r: Result<Env, Error>)
    ensures r.Success? ==> r.value.Keys == env.Keys
  {
    if |updates| == 0 then Success(env)
    else
      var (key, value) := updates[0];
      if key in env then ApplyUpdates(env[key := value], updates[1..])
      else Failure(InvalidAccumulatorName(key))
  }

  /**
   * The updates apply exactly when every returned key is an accumulator; the
   * error otherwise names the first returned key that is not one.
   */
  lemma {:induction false} ApplyUpdatesErrors(env: Env, updates: Updates)
    ensures ApplyUpdates(env, updates).Success? <==> forall i :: 0 <= i < |updates| ==> updates[i].0 in env
    ensures ApplyUpdates(env, updates).Failure? ==>
              exists i :: 0 <= i < |updates| && updates[i].0 !in env &&
                (forall j :: 0 <= j < i ==> updates[j].0 in env) &&
                ApplyUpdates(env, updates).error == InvalidAccumulatorName(updates[i].0)
  {
    if |updates| > 0 {
      var (key, value) := updates[0];
      if key in env {
        ApplyUpdatesErrors(env[key := value], updates[1..]);
        assert forall i :: 1 <= i < |updates| ==> updates[i] == updates[1..][i - 1];
        if ApplyUpdates(env, updates).Failure? {
          var i :| 0 <= i < |updates[1..]| && updates[1..][i].0 !in env[key := value] &&
                   (forall j :: 0 <= j < i ==> updates[1..][j].0 in env[key := value]) &&
                   ApplyUpdates(env, updates).error == InvalidAccumulatorName(updates[1..][i].0);
          assert updates[i + 1].0 !in env && forall j :: 0 <= j < i + 1 ==> updates[j].0 in env;
        }
      }
    }
  }

  /**
   * Successful updates: a key the body did not return keeps its value, and a
   * returned key takes the value of its last (in a dict: its only) entry.
   */
  lemma {:induction false} ApplyUpdatesValues(env: Env, updates: Updates)
    requires forall i :: 0 <= i < |updates| ==> updates[i].0 in env
    ensures ApplyUpdates(env, updates).Success?
    ensures forall k :: k in env && (forall i :: 0 <= i < |updates| ==> updates[i].0 != k) ==>
              ApplyUpdates(env, updates).value[k] == env[k]
    ensures forall i :: 0 <= i < |updates| && (forall j :: i < j < |updates| ==> updates[j].0 != updates[i].0) ==>
              ApplyUpdates(env, updates).value[updates[i].0] == updates[i].1
  {
    if |updates| > 0 {
      var key, value := updates[0].0, updates[0].1;
      var env' := env[key := value];
      var rest := updates[1..];
      assert forall i :: 1 <= i < |updates| ==> updates[i] == rest[i - 1];
      ApplyUpdatesValues(env', rest);
      var r := ApplyUpdates(env', rest).value;
      assert ApplyUpdates(env, updates) == ApplyUpdates(env', rest);
      forall i | 0 <= i < |updates| && (forall j :: i < j < |updates| ==> updates[j].0 != updates[i].0)
        ensures r[updates[i].0] == updates[i].1
      {
        if i == 0 {
          assert forall j :: 0 <= j < |rest| ==> rest[j].0 != key;
        } else {
          assert forall j :: i - 1 < j < |rest| ==> rest[j].0 != rest[i - 1].0;
        }
      }
    }
  }

  /**
   * One step: the filter and the body both see the accumulators as of the
   * start of the step with the step's bindings merged over them (a source
   * name shadows an accumulator of the same name); a rejected step changes nothing.
   */
  function StepByName(env: Env, names: seq<string>, row: seq<Value>, filter: Env -> bool, body: Env -> Updates)
    : (r: Result<Env, Error>)
    ensures r.Success? ==> r.value.Keys == env.Keys
  {
    var current := env + Bind(names, row);
    if !filter(current) then Success(env) else ApplyUpdates(env, body(current))
  }

  /** The fold over the first |rows| lock-step rows; the first error ends it. */
  function FoldByName(env0: Env, names: seq<string>, rows: seq<seq<Value>>, filter: Env -> bool, body: Env -> Updates)
    : (r: Result<Env, Error>)
    ensures r.Success? ==> r.value.Keys == env0.Keys
    decreases |rows|
  {
    if |rows| == 0 then Success(env0)
    else
      match FoldByName(env0, names, rows[..|rows| - 1], filter, body)
      case Failure(e) => Failure(e)
      case Success(env) => StepByName(env, names, rows[|rows| - 1], filter, body)
  }

  /** Helper: extending the rows by one runs one more step on the fold so far. */
  lemma FoldStep(env0: Env, names: seq<string>, rows: seq<seq<Value>>, filter: Env -> bool, body: Env -> Updates,
                 k: nat, env: Env)
    requires k < |rows|
    requires FoldByName(env0, names, rows[..k], filter, body) == Success(env)
    ensures FoldByName(env0, names, rows[..k + 1], filter, body) == StepByName(env, names, rows[k], filter, body)
  {
    assert rows[..k + 1][..k] == rows[..k];
  }

  /**
   * The fold is a left fold over the rows in order: a chain of successful
   * steps leading from env0 through envs ends at the chain's last environment.
   */
  lemma {:induction false} FoldTrace(env0: Env, names: seq<string>, rows: seq<seq<Value>>,
                                     filter: Env -> bool, body: Env -> Updates, envs: seq<Env>)
    requires |envs| == |rows| + 1 && envs[0] == env0
    requires forall k :: 0 <= k < |rows| ==> StepByName(envs[k], names, rows[k], filter, body) == Success(envs[k + 1])
    ensures FoldByName(env0, names, rows, filter, body) == Success(envs[|rows|])
    decreases |rows|
  {
    if |rows| > 0 {
      var n := |rows| - 1;
      FoldTrace(env0, names, rows[..n], filter, body, envs[..n + 1]);
    }
  }

  /** Once a step raises, the run ends with that error: later rows never run. */
  lemma {:induction false} FoldFailureSticks(env0: Env, names: seq<string>, rows: seq<seq<Value>>,
                                             filter: Env -> bool, body: Env -> Updates, n: nat)
    requires n <= |rows|
    requires FoldByName(env0, names, rows[..n], filter, body).Failure?
    ensures FoldByName(env0, names, rows, filter, body) == FoldByName(env0, names, rows[..n], filter, body)
    decreases |rows|
  {
    if n < |rows| {
      var init := rows[..|rows| - 1];
      assert init[..n] == rows[..n];
      FoldFailureSticks(env0, names, init, filter, body, n);
    } else {
      assert rows[..n] == rows;
    }
  }

  /** If the filter rejects every step, the accumulators end as they started. */
  lemma {:induction false} RejectedStepsAreInert(env0: Env, names: seq<string>, rows: seq<seq<Value>>,
                                                 filter: Env -> bool, body: Env -> Updates)
    requires forall i :: 0 <= i < |rows| ==> !filter(env0 + Bind(names, rows[i]))
    ensures FoldByName(env0, names, rows, filter, body) == Success(env0)
    decreases |rows|
  {
    if |rows| > 0 {
      var init := rows[..|rows| - 1];
      assert forall i :: 0 <= i < |init| ==> init[i] == rows[i];
      RejectedStepsAreInert(env0, names, init, filter, body);
    }
  }

  /** `{**env, **{name: None for name in iterable_names}}`: what the result function receives. */
  function FinalVars(env: Env, names: seq<string>): (vars: Env)
    ensures vars.Keys == env.Keys + set i | 0 <= i < |names| :: names[i]
    ensures forall i :: 0 <= i < |names| ==> vars[names[i]] == PyNone
    ensures forall k :: k in env && k !in names ==> vars[k] == env[k]
  {
    var nones := map k | k in names :: PyNone;
    assert nones.Keys == set i | 0 <= i < |names| :: names[i] by {
      forall k | k in nones.Keys ensures k in set i | 0 <= i < |names| :: names[i] {
        var i :| 0 <= i < |names| && names[i] == k;
      }
    }
    env + nones
  }

  /** The result function applied to the final variables. */
  function Project(result: ResultFunction, accNames: seq<string>, vars: Env): Value
    requires forall i :: 0 <= i < |accNames| ==> accNames[i] in vars
  {
    match result
    case AccumulatorList => List(seq(|accNames|, i requires 0 <= i < |accNames| => vars[accNames[i]]))
    case Custom(f) => f(vars)
  }

  /** What `run` returns for a builder holding these fields (with a body set). */
  function Evaluate(accumulators: seq<(string, Value)>, iterables: seq<(string, seq<Value>)>,
                    filter: Env -> bool, body: Env -> Updates, result: ResultFunction): Result<Value, Error>
  {
    var env0 := InitialEnv(accumulators);
    match FoldByName(env0, Names(iterables), Zip(Payloads(iterables)), filter, body)
    case Failure(e) => Failure(e)
    case Success(env) => Success(Project(result, Names(accumulators), FinalVars(env, Names(iterables))))
  }

  /** Helper: a run whose fold succeeds returns the result function applied to the final variables. */
  lemma EvaluateOutcome(accumulators: seq<(string, Value)>, iterables: seq<(string, seq<Value>)>,
                        filter: Env -> bool, body: Env -> Updates, result: ResultFunction, env: Env)
    requires FoldByName(InitialEnv(accumulators), Names(iterables), Zip(Payloads(iterables)), filter, body) == Success(env)
    ensures Evaluate(accumulators, iterables, filter, body, result)
            == Success(Project(result, Names(accumulators), FinalVars(env, Names(iterables))))
  {
  }

  /**
   * The default result lists every accumulator's final value in declaration
   * order; an accumulator that shares its name with an iterable shows None,
   * because the iterable's None binding is merged over it.
   */
  lemma DefaultResult(accumulators: seq<(string, Value)>, iterables: seq<(string, seq<Value>)>,
                      filter: Env -> bool, body: Env -> Updates)
    requires FoldByName(InitialEnv(accumulators), Names(iterables), Zip(Payloads(iterables)), filter, body).Success?
    ensures var env := FoldByName(InitialEnv(accumulators), Names(iterables), Zip(Payloads(iterables)), filter, body).value;
            var r := Evaluate(accumulators, iterables, filter, body, AccumulatorList);
            && r.Success? && r.value.List? && |r.value.items| == |accumulators|
            && forall i :: 0 <= i < |accumulators| ==>
                 r.value.items[i] == if accumulators[i].0 in Names(iterables) then PyNone else env[accumulators[i].0]
  {
    var env := FoldByName(InitialEnv(accumulators), Names(iterables), Zip(Payloads(iterables)), filter, body).value;
    var names := Names(iterables);
    forall i | 0 <= i < |accumulators| && accumulators[i].0 in names
      ensures FinalVars(env, names)[accumulators[i].0] == PyNone
    {
      var j :| 0 <= j < |names| && names[j] == accumulators[i].0;
    }
  }

  /**
   * The in-place update loop of one step (`for key, value in updates.items()`):
   * it writes the environment key by key and raises at the first key that is
   * not an accumulator.
   */
  method UpdateAccumulators(env: Env, updates: Updates) returns (r: Result<Env, Error>)
    ensures r == ApplyUpdates(env, updates)
  {
    var current := env;
    var j := 0;
    while j < |updates|
      invariant 0 <= j <= |updates|
      invariant current.Keys == env.Keys
      invariant ApplyUpdates(env, updates) == ApplyUpdates(current, updates[j..])
    {
      var (key, value) := updates[j];
      assert updates[j..][1..] == updates[j + 1..];
      if key !in current {
        return Failure(InvalidAccumulatorName(key));
      }
      current := current[key := value];
      j := j + 1;
    }
    r := Success(current);
  }

  /**
   * The step loop of `run`: one lock-step row at a time, the filter and the
   * body see the step's bindings merged over the accumulators; the first
   * unknown key returned by the body ends the run with its error.
   */
  method FoldRows(env0: Env, names: seq<string>, rows: seq<seq<Value>>, filter: Env -> bool, body: Env -> Updates)
    returns (r: Result<Env, Error>)
    ensures r == FoldByName(env0, names, rows, filter, body)
  {
    var env := env0;
    var i := 0;
    while i < |rows|
      invariant 0 <= i <= |rows|
      invariant FoldByName(env0, names, rows[..i], filter, body) == Success(env)
    {
      var current := env + Bind(names, rows[i]);
      assert rows[..i + 1][..i] == rows[..i];
      if filter(current) {
        var updated := UpdateAccumulators(env, body(current));
        if updated.Failure? {
          FoldFailureSticks(env0, names, rows, filter, body, i + 1);
          return Failure(updated.error);
        }
        env := updated.value;
      }
      i := i + 1;
    }
    assert rows[..i] == rows;
    r := Success(env);
  }

  // ---- The builder object -----------------------------------------------------------

  class ComprehensionBuilder {
    var accumulators: seq<(string, Value)>
    var iterables: seq<(string, seq<Value>)>
    var filterFunction: Env -> bool
    var resultFunction: Option<ResultFunction>
    var bodyFunction: Option<Env -> Updates>

    /** `__post_init__`: empty lists, a filter that accepts every step, no result, no body. */
    constructor ()
      ensures accumulators == [] && iterables == []
      ensures forall e :: filterFunction(e)
      ensures resultFunction == None && bodyFunction == None
    {
      accumulators := [];
      iterables := [];
      filterFunction := AcceptAll;
      resultFunction := None;
      bodyFunction := None;
    }

    /**
     * `>>`: declarations are appended in call order, the filter and the body
     * are replaced, and the builder itself is returned. The result record
     * never matches (its pattern names a field the record does not have), so
     * it raises "Unsupported operation" and changes nothing.
     */
    method Shift(op: Operation) returns (r: Result<ComprehensionBuilder, Error>)
      modifies this
      ensures r == if op.SetResult? then Failure(UnsupportedOperation) else Success(this)
      ensures accumulators == old(accumulators) + (if op.AddAccumulator? then [(op.name, op.initialValue)] else [])
      ensures iterables == old(iterables) + (if op.AddIterable? then [(op.name, op.iterable)] else [])
      ensures filterFunction == if op.SetFilter? then op.filterFunction else old(filterFunction)
      ensures bodyFunction == if op.SetBody? then op.bodyFunction else old(bodyFunction)
      ensures resultFunction == old(resultFunction)
    {
      match op {
        case AddAccumulator(name, initialValue) =>
          accumulators := accumulators + [(name, initialValue)];
        case AddIterable(name, iterable) =>
          iterables := iterables + [(name, iterable)];
        case SetFilter(f) =>
          filterFunction := f;
        case SetResult(_) =>
          // `case SetResult(result_function=...)` asks for an attribute the
          // record lacks, so the match falls through to the error case.
          return Failure(UnsupportedOperation);
        case SetBody(f) =>
          bodyFunction := f;
      }
      r := Success(this);
    }

    /**
     * `run`: raises before any step when no body is set; otherwise installs the
     * default result function if none is set and returns the fold's outcome.
     */
    method Run() returns (r: Result<Value, Error>)
      modifies this`resultFunction
      ensures old(bodyFunction).None? ==> r == Failure(MissingBody) && resultFunction == old(resultFunction)
      ensures bodyFunction.Some? ==>
                && resultFunction == Some(if old(resultFunction).Some? then old(resultFunction).value else AccumulatorList)
                && r == Evaluate(accumulators, iterables, filterFunction, bodyFunction.value, resultFunction.value)
    {
      if bodyFunction.None? {
        return Failure(MissingBody);
      }
      if resultFunction.None? {
        resultFunction := Some(AccumulatorList);
      }
      var folded := FoldRows(InitialEnv(accumulators), Names(iterables), Zip(Payloads(iterables)),
                             filterFunction, bodyFunction.value);
      match folded {
        case Failure(e) =>
          r := Failure(e);
        case Success(env) =>
          r := Success(Project(resultFunction.value, Names(accumulators), FinalVars(env, Names(iterables))));
      }
    }
  }
}
