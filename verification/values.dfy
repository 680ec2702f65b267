/**
 * The dynamic values the comprehensions thread through their environments,
 * the binding environment itself, and the error kinds the engines raise.
 */
module Values {

  /** A dynamically typed value: the few Python shapes the comprehensions build or inspect. */
  datatype Value =
    | PyNone
    | Bool(b: bool)
    | Int(i: int)
    | Str(s: string)
    | Tuple(items: seq<Value>)
    | List(items: seq<Value>)
      /** An insertion-ordered dictionary, as a sequence of (key, value) entries with distinct keys. */
    | Dict(entries: seq<(Value, Value)>)

  /** The binding environment: variable name to current value. */
  type Env = map<string, Value>

  datatype Option<+T> = None | Some(value: T)

  datatype Result<+R, +E> = Success(value: R) | Failure(error: E)

  /** The exceptions the engines raise, by kind; the offending key is kept where the message names it. */
  datatype Error =
    | MissingBody                       // ValueError: body not set before run
    | UnsupportedOperation              // ValueError: `>>` given an operation it does not match
    | InvalidAccumulatorName(key: string) // ValueError: by-name update with an unknown key
    | NotATuple                         // TypeError: by-position body did not return a tuple
    | ArityMismatch                     // ValueError: tuple length differs from the accumulator count
    | CannotUnpack                      // TypeError: `key, value = x` with x not iterable
    | UnpackCount                       // ValueError: `key, value = x` with x not of length two
    | Unhashable                        // TypeError: a list or dict (or a tuple holding one) used as a dict key

  /** The default `when` of every comprehension: accept each step. */
  const AcceptAll: Env -> bool := (e: Env) => true

  /** First components of a list of (name, payload) declarations. */
  function Names<T>(decls: seq<(string, T)>): (names: seq<string>)
    ensures |names| == |decls|
    ensures forall i :: 0 <= i < |decls| ==> names[i] == decls[i].0
  {
    seq(|decls|, i requires 0 <= i < |decls| => decls[i].0)
  }

  /** Second components of a list of (name, payload) declarations. */
  function Payloads<T>(decls: seq<(string, T)>): (payloads: seq<T>)
    ensures |payloads| == |decls|
    ensures forall i :: 0 <= i < |decls| ==> payloads[i] == decls[i].1
  {
    seq(|decls|, i requires 0 <= i < |decls| => decls[i].1)
  }

  // Helpers the worked examples use to write callbacks; a missing name reads as None.

  function Arg(e: Env, name: string): Value {
    if name in e then e[name] else PyNone
  }

  function IntOf(v: Value): int {
    if v.Int? then v.i else 0
  }

  /** `ord(c)` of a one-character string. */
  function Ord(v: Value): int {
    if v.Str? && |v.s| == 1 then v.s[0] as int else 0
  }

  function Ints(xs: seq<int>): (vs: seq<Value>)
    ensures |vs| == |xs|
    ensures forall i :: 0 <= i < |xs| ==> vs[i] == Int(xs[i])
  {
    seq(|xs|, i requires 0 <= i < |xs| => Int(xs[i]))
  }
}
