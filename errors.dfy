/** The exceptions the core raises or catches, as values. A Python function
    that may raise becomes a function returning `Result<T, Error>`. */
module Errors {

  datatype Error =
    | ExecutionError(message: string)   // executor.ExecutionError
    | AnalysisError(message: string)    // brain.AnalysisError
    | ValidationError(message: string)  // pydantic.ValidationError
    | JsonDecodeError(message: string)  // json.JSONDecodeError
    | FileNotFound(message: string)     // FileNotFoundError
    | AttributeError(name: string)      // reading an attribute a model does not have
    | TypeError(message: string)        // an operation on a value of the wrong type
    | Interrupt                         // KeyboardInterrupt
    | Raised(message: string)           // any other exception, by its message
  {
    /** `str(e)`. Python's wording of a missing attribute is abbreviated. */
    function Text(): string {
      match this
      case ExecutionError(m) => m
      case AnalysisError(m) => m
      case ValidationError(m) => m
      case JsonDecodeError(m) => m
      case FileNotFound(m) => m
      case AttributeError(n) => "object has no attribute " + n
      case TypeError(m) => m
      case Interrupt => ""
      case Raised(m) => m
    }

    /** Whether `except Exception` catches it: everything but KeyboardInterrupt. */
    predicate IsException() {
      !Interrupt?
    }
  }
}
