/** Result types shared by the models: optional values, and calls that return or raise. */
module Prelude {

  datatype Option<+T> = None | Some(value: T)

  /** The exception classes the orchestrator tells apart. `Interrupt` stands for everything outside
      Python's `Exception` (KeyboardInterrupt, SystemExit): no handler of the runner catches it. */
  datatype Raise = ModelOutputError | OutputValidationError | OtherException | Interrupt

  datatype Outcome<+T> = Returned(value: T) | Raised(error: Raise)
}
