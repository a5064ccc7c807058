/** Option and HTTP-style responses shared by every route module. */
module Wrappers {

  datatype Option<+T> = None | Some(value: T) {
    function GetOr(default: T): T {
      match this
      case Some(v) => v
      case None => default
    }
  }

  /** What a route handler sends back: a status with a JSON value, a status with an
      error message, or a schema validation error naming the paths that failed. */
  datatype Response<+T> =
    | Success(status: nat, value: T)
    | Failure(status: nat, message: string)
    | Invalid(status: nat, violations: set<string>)
  {
    function Code(): nat {
      match this
      case Success(s, _) => s
      case Failure(s, _) => s
      case Invalid(s, _) => s
    }
  }

  /** JavaScript truthiness of an optional string field: present and non-empty. */
  predicate Truthy(s: Option<string>) {
    s.Some? && s.value != ""
  }
}
