/** Failure-compatible wrappers shared by the shape model.

    Every way the network can refuse to be built or evaluated is one
    `Error` value; nothing in the model raises. */
module Results {

  datatype Option<+T> = None | Some(value: T)

  /** The failures the builder and the forward pass can meet. */
  datatype Error =
      /** An operator's own parameters are rejected (non-positive kernel,
          stride or group count, or groups not dividing the channels). */
    | BadConfig
      /** An operator declared for `declared` channels received `received`. */
    | ChannelMismatch(declared: nat, received: nat)
      /** A sliding window is larger than the (padded) input. */
    | KernelTooLarge
      /** Channel concatenation of two maps with different height or width. */
    | SpatialMismatch
      /** The per-stage repeat-count list has no entry at `index`. */
    | MissingStageCount(index: nat)
      /** The weight-initialisation pass divides by a zero fan-out. */
    | ZeroFanOut

  datatype Result<+T> = Ok(value: T) | Err(error: Error) {

    predicate IsFailure() {
      Err?
    }

    function PropagateFailure<U>(): Result<U>
      requires Err?
    {
      Err(error)
    }

    function Extract(): T
      requires Ok?
    {
      value
    }
  }
}
