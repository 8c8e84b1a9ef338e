/** Shared result and option types of the runtime.
    `DispatchResult` stands for Rust's `Result<(), &'static str>`: a call either
    succeeds with no value or fails with a static error message. */
module Support {

  datatype Option<T> = None | Some(value: T)

  datatype DispatchResult = Ok | Err(error: string)
}
