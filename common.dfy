/** Small value types shared by the whole model. */
module Common {

  /** An optional value: Python's `None` or a present value. */
  datatype Option<+T> = None | Some(value: T) {
    /** Python's `d.get(key, default)` once the lookup has produced an Option. */
    function GetOr(default: T): T {
      match this
      case Some(v) => v
      case None => default
    }
  }

  /**
   * The answer of one upstream lookup. `NotFound` is the 404 that the Riot
   * client turns into `None` for some lookups; `Failed` is any other error
   * (transport failure, 5xx, timeout) that reaches the caller as an exception.
   */
  datatype Answer<+T> = Found(value: T) | NotFound | Failed

  /** Python truthiness of an optional string: present and non-empty. */
  predicate Truthy(s: Option<string>) {
    s.Some? && s.value != ""
  }
}
