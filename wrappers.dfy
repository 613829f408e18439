/** The optional values of the stores' JavaScript: a field that is absent, or a
    `find` that matched nothing; and `find` itself. */
module Wrappers {

  datatype Option<+T> = None | Some(value: T) {

    /** The value, or `default` when absent (`x || default` for a present
        non-zero value). */
    function GetOr(default: T): T {
      match this
      case Some(v) => v
      case None => default
    }
  }

  /** `xs.find(matches)`, as the index of the first element that matches:
      `None` exactly when nothing does. */
  function Find<T>(xs: seq<T>, matches: T -> bool): (k: Option<nat>)
    ensures k.None? <==> forall i :: 0 <= i < |xs| ==> !matches(xs[i])
    ensures k.Some? ==> k.value < |xs| && matches(xs[k.value])
                        && forall i :: 0 <= i < k.value ==> !matches(xs[i])
  {
    if xs == [] then None
    else if matches(xs[0]) then Some(0)
    else match Find(xs[1..], matches)
      case None => None
      case Some(k) => Some(k + 1)
  }
}
