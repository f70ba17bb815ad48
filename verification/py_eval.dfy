/**
  Just enough of Python's evaluation to read the classifier's predicates as the
  interpreter runs them: the values an `a and b and c` chain can produce,
  short-circuiting, an attribute read that raises AttributeError, and the
  `try: return … except AttributeError: pass; return False` wrapper.
 */
module PyEval {

  /**
    The values the predicates' `and` chains can yield: a bool (from `startswith`
    and `in` / `==`), `None` (a failed `re.search`) or a match object.
   */
  datatype PyValue = PyFalse | PyTrue | PyNone | PyMatch

  /** Python truthiness of those values. */
  predicate Truthy(v: PyValue)
  {
    v == PyTrue || v == PyMatch
  }

  function FromBool(b: bool): PyValue
  {
    if b then PyTrue else PyFalse
  }

  /** The outcome of evaluating an expression: a value, or a raised AttributeError. */
  datatype Eval = Value(v: PyValue) | RaisesAttributeError

  /**
    Python's `a and b`: when `a` raises, so does the whole; when `a` is falsy it
    is the result and `b` is never evaluated (so its error, if any, never happens).
   */
  function And(a: Eval, b: Eval): (r: Eval)
    ensures r.Value? && Truthy(r.v) <==> a.Value? && Truthy(a.v) && b.Value? && Truthy(b.v)
    ensures a.Value? && !Truthy(a.v) ==> r == a
  {
    match a
    case RaisesAttributeError => a
    case Value(x) => if Truthy(x) then b else a
  }

  /** `try: return e` / `except AttributeError: pass` / `return False`. */
  function ReturnCatching(e: Eval): (v: PyValue)
    ensures Truthy(v) <==> e.Value? && Truthy(e.v)
    ensures e.RaisesAttributeError? ==> v == PyFalse
  {
    match e
    case Value(x) => x
    case RaisesAttributeError => PyFalse
  }
}
