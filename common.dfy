/** Shared vocabulary of the client: an optional value, the opaque payload the
    API returns, and the three string validators the registration form imports
    from its utilities module (whose bodies are not part of this model). */
module Common {

  datatype Option<+T> = None | Some(value: T) {
    /** The value, or `default` when there is none (JavaScript's `x || default`
        for a value that is either present or undefined). */
    function GetOr(default: T): T {
      match this
      case Some(v) => v
      case None => default
    }
  }

  /** A response payload (`data` of an API envelope), carried opaquely:
      the client stores it but never looks inside. */
  type Data = map<string, string>

  /** The string validators `isEmpty`, `isValidEmailId` and `isValidMobileNumber`.
      Their definitions are not part of this model, so they are kept abstract:
      every property proved below holds for every choice of the three
      predicates. `isEmpty` is also applied to the errors object in the
      source; that use is a separate predicate (`Registration.NoErrorKeys`). */
  datatype Validators = Validators(
    isEmpty: string -> bool,
    isValidEmailId: string -> bool,
    isValidMobileNumber: string -> bool)
}
