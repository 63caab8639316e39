/** Values and failures shared by the session orchestrator and the utilities. */
module Common {

  datatype Option<+T> = None | Some(value: T)

  datatype Result<+T, +E> = Success(value: T) | Failure(error: E)

  /** The result of an operation that returns nothing on success. */
  datatype Outcome<+E> = Pass | Fail(error: E)

  /** Python truthiness of a value that is either None or a string. */
  predicate Truthy(o: Option<string>) {
    o.Some? && o.value != ""
  }

  /** The exceptions the core raises or lets through. */
  datatype Error =
    | NotAuthenticated(operation: string)  // raised by the authentication gate, naming the wrapped function
    | AuthenticationFailed                 // the identity provider rejected the credentials
    | InvalidCredentialFile                // the credential file could not be read
    | EndpointMissing(service: string)     // neither the region nor "ALL" has an entry (None.replace)
    | NoServicesSection                    // the configuration has no [services] section
    | NoReloadError                        // the watched object can be neither reloaded nor re-fetched
}
