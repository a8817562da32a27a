/** Small value types shared by every probe of the hardware monitor. */
module Common {

  /** The conventional Some/None datatype, standing in for Python's `Optional`. */
  datatype Option<+T> = None | Some(value: T)

  /** The Python exception classes the monitor's `except` clauses tell apart. */
  datatype FaultKind =
    | TimeoutExpired       // subprocess.TimeoutExpired, a SubprocessError
    | CalledProcessError   // a SubprocessError (never raised here: `check` is not set)
    | SubprocessError      // any other SubprocessError
    | FileNotFoundError    // an OSError
    | PermissionError      // an OSError
    | OtherOSError         // any other OSError (IOError is an alias of OSError)
    | OtherException       // anything else derived from Exception
  {
    /** True of the classes `except subprocess.SubprocessError` catches. */
    predicate IsSubprocessError() {
      TimeoutExpired? || CalledProcessError? || SubprocessError?
    }

    /** True of the classes `except OSError` (or `IOError`) catches. */
    predicate IsOSError() {
      FileNotFoundError? || PermissionError? || OtherOSError?
    }
  }

  /** A raised exception: its class and `str(e)`. */
  datatype Fault = Fault(kind: FaultKind, message: string)

  /** The outcome of a call into a library the model cannot see (psutil, subprocess):
      the value it returned, or the exception it raised. */
  datatype Sampled<+T> = Returned(value: T) | Raised(fault: Fault)
}
