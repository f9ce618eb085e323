/** The failures the authenticator reports. In the Python code every one of
    them surfaces as certbot's PluginError (or, for a missing name-cache entry,
    a KeyError); here each is a constructor carrying the names its message
    mentions, and operations return a Result instead of raising. */
module Errors {

  datatype Error =
    | LoginFailed                                           // AuthError while constructing the client
    | CnameLookupFailed(domain: string)                      // timeout, YXDOMAIN or no nameservers
    | CnameChainTooLong(domain: string)                      // the model's fuel ran out (no counterpart in the code)
    | ZoneInactive(zone: string)                             // first known guess is not active
    | ZoneNotMaster(zone: string)                            // first known guess is not a master zone
    | NoBaseDomain(domain: string, guesses: seq<string>)     // no guess is known to the provider
    | AddFailed(record: string, zone: string, domain: string)
    | RecordNotFound(record: string)                         // query did not return exactly the one record
    | RecordLookupFailed(record: string)                     // query raised
    | DeleteFailed(record: string, zone: string, domain: string)
    | NotInNameCache(name: string)                           // cleanup without a prior perform

  datatype Result<+T> = Ok(value: T) | Err(error: Error) {
    predicate IsFailure() {
      Err?
    }

    function PropagateFailure<U>(): Result<U>
      requires Err?
    {
      Err(error)
    }

    function Extract(): T
      requires Ok?
    {
      value
    }
  }
}
