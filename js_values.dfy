/** JavaScript values as the deployment script sees them: an environment
    variable or a CDK context key is either undefined or a string, and the
    script's `||` treats the empty string like undefined. */
module JsValues {

  /** `None` is JavaScript's `undefined`. */
  datatype Option<+T> = None | Some(value: T)

  /** JavaScript truthiness of an optional string: defined and non-empty. */
  predicate Truthy(o: Option<string>) {
    o.Some? && o.value != ""
  }

  /** `o || default` where `default` is a string literal: the first truthy
      operand, falling back to the default when `o` is undefined or "". */
  function Or(o: Option<string>, default: string): (r: string)
    ensures Truthy(o) ==> r == o.value
    ensures !Truthy(o) ==> r == default
    ensures r != "" <==> Truthy(o) || default != ""
  {
    if Truthy(o) then o.value else default
  }
}
