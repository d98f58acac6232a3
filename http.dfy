/**
 * What the route handlers receive and answer, without the HTTP plumbing:
 * optional query parameters and a status code with a payload or an error.
 */
module Http {

  /** A value that may be missing: an absent query parameter, a `null` user. */
  datatype Option<T> = None | Some(value: T) {
    /** The value, or `default` when it is missing. */
    function GetOr(default: T): T
    {
      if Some? then value else default
    }
  }

  /** A handler's answer: a status code with its payload, or with `{ error }`. */
  datatype Response<T> = Ok(status: nat, body: T) | Error(status: nat, message: string)

  /** `if (param)`: the parameter is present and not the empty string. */
  predicate Given(param: Option<string>)
  {
    param.Some? && param.value != ""
  }

  /** `if (param && param !== "all")`: the parameter asks for a filter. */
  predicate Selects(param: Option<string>)
  {
    Given(param) && param.value != "all"
  }
}
