/** Errors and results of the two boosted-trees kernels.
    An `OP_REQUIRES` that fails sets an error status on the kernel's context and
    returns; the model makes that status a value. */
module Status {

  /** The error kinds the kernels produce. `InvalidArgument` is the only one the
      kernels raise themselves; `Collaborator` carries an error reported by code
      this model does not contain (feature readers, the dropout selector). */
  datatype Error =
    | InvalidArgument(message: string)
    | Collaborator(message: string)

  /** The status an `OpKernelConstruction` ends with. */
  datatype Status = OK | Failed(error: Error)

  /** The outcome of one kernel invocation. */
  datatype Result<T> = Success(value: T) | Failure(error: Error)

  datatype Option<T> = None | Some(value: T)
}
