/** Option, Result and the exceptions of the allocation service, shared by every module. */
module Common {

  /** Python's `Optional[T]`: `None` or a present value. */
  datatype Option<+T> = None | Some(value: T)

  /** The exceptions that the core raises or lets propagate. */
  datatype Error =
    | ValidationError(field: string)          // pydantic rejected a field value
    | OutOfStockError(message: string)        // list-form allocate, model.py
    | InvalidSku(message: string)             // the service layers and handlers
    | InvalidBatchReference(message: string)  // change_batch_quantity handler
    | StopIteration                           // next() over an exhausted generator
    | KeyError(message: string)               // a dictionary lookup that misses
    | TypeError(message: string)              // a call with a missing argument

  /** A computation that returns a value or raises one of the errors above. */
  datatype Result<+T> = Ok(value: T) | Err(error: Error)
}
