/**
 * The five operation records fed to the builder with `>>`
 * (comps/operations.py), as one tagged variant.
 */
module Operations {
  import opened Values

  /**
   * What a by-name body returns: a partial dict of accumulator updates, in the
   * dict's own order. Python dict keys are distinct; when a key repeats here,
   * the later entry is the one that sticks, as with a dict display.
   */
  type Updates = seq<(string, Value)>

  /**
   * The payload of the result record. Its one field is declared as a name, but
   * Python does not check the declaration and for_fold stores the caller's
   * result callable there; both shapes are kept.
   */
  datatype ResultSpec =
    | Named(name: string)
    | Projector(f: Env -> Value)

  /**
   * The body record's payload is optional: Python lets `SetBody(None)` through
   * `>>`, and `run` then reports the missing body.
   */
  datatype Operation =
    | AddAccumulator(name: string, initialValue: Value)
    | AddIterable(name: string, iterable: seq<Value>)
    | SetFilter(filterFunction: Env -> bool)
    | SetResult(resultName: ResultSpec)
    | SetBody(bodyFunction: Option<Env -> Updates>)
}
