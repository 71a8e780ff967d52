/** The app's shared result types (the package com.system.design.utils and
    kotlin's nullable types), defined here as plain datatypes. */
module Utils {

  /** A nullable value: `None` stands for Kotlin's `null`. */
  datatype Option<+T> = None | Some(value: T)

  /** What a caught exception carries. */
  datatype Exception = Exception(message: string)

  /** The outcome of a data-layer call: the value, or the exception that was caught. */
  datatype Result<+T> = Success(data: T) | Error(e: Exception)

  /** A throwable that is not an `Exception`, such as the `NotImplementedError`
      of `TODO()` or an `AssertionError`: `catch (e: Exception)` lets it through. */
  datatype Fault = Fault(message: string)

  /** How a call ends: it returns a value, or a fault that nothing caught
      propagates out of it. */
  datatype Completion<+T> = Returned(value: T) | Escaped(fault: Fault)
}
