/** Failure-carrying datatypes shared by the namespace-vending model.

    Every exception the Python script can raise on its modelled path becomes one
    constructor of `Error`; a function that may raise returns a `Result`. */
module Outcomes {

  /** The ways an invocation of the namespace-vending script ends in failure. */
  datatype Error =
    | MissingSpec         // `specFile['spec']` raises KeyError
    | MalformedSpec       // `spec` is not a mapping, or `namespaces` is not a list
    | NamespaceNotFound   // `list.remove` raises ValueError
    | WaiterFailed        // the `environment_deployed` waiter gave up or saw a failure state
    | StuckDeployment     // the busy check after the first wait raised
    | ServiceError        // a control-plane call (get, update, notify) raised

  /** A value, or the error that prevented computing it. */
  datatype Result<+T> = Ok(value: T) | Err(error: Error)

  /** A value that may be absent. */
  datatype Option<+T> = None | Some(value: T)
}
