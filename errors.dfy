/** Error kinds of the system and the outcomes that carry them. Each component
    re-raises any failure of a collaborator as its own kind, which `Wrap` models. */
module Errors {

  datatype Option<+T> = None | Some(value: T)

  datatype Error =
    | BpodError          // a call into the Bpod board failed (transport or hardware)
    | SubjectError       // the subject-location query failed
    | ActuatorError      // AirtrackActuatorError
    | StateMachineError  // AirtrackStateMachineError

  /** The result of an operation that returns a value or raises. */
  datatype Result<+T, +E> = Success(value: T) | Failure(error: E)

  /** The result of an operation that returns nothing on success. */
  datatype Outcome = Pass | Fail(error: Error)

  /** Any failure becomes a failure of kind `kind`; success passes through. */
  function Wrap(o: Outcome, kind: Error): (r: Outcome)
    ensures r.Pass? <==> o.Pass?
    ensures r.Fail? ==> r.error == kind
  {
    if o.Pass? then Pass else Fail(kind)
  }
}
