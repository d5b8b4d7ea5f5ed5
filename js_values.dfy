/** JavaScript values as far as the auto-refresher looks at them: an optional
    Number property (undefined or an integer), its truthiness, and `||`. */
module JsValues {

  /** `None` stands for `undefined`; `Some(n)` for the Number `n`. */
  datatype Option<T> = None | Some(value: T)

  /** A Number is falsy exactly when it is 0 (NaN is not modelled); undefined is falsy. */
  predicate Truthy(v: Option<int>) {
    v.Some? && v.value != 0
  }

  /** The JavaScript expression `a || b`: `a` when it is truthy, otherwise `b`. */
  function Or(a: Option<int>, b: Option<int>): Option<int> {
    if Truthy(a) then a else b
  }
}
