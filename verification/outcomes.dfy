/** Failure-compatible values shared by the forecaster model.

    Every constructor of `Error` stands for one exception the forecaster
    raises on a path the model follows; the comment names the Python
    exception and where it comes from. */
module Outcomes {

  /** The error paths of the forecaster core. */
  datatype Error =
    | UnboundTriggerTimes          // UnboundLocalError: `trigger_times += 1` before any assignment
    | UnboundLoss                  // UnboundLocalError: `loss.item()` when no training batch ran
    | DivisionByZero               // ZeroDivisionError: get_loss over a loader with no batch
    | EmptySampler                 // ValueError: a shuffling DataLoader over zero rows
    | IndexOutOfRange              // IndexError: the dataset has fewer targets than inputs
    | EmptyConcatenation           // ValueError: np.concatenate of an empty list
    | ShapeMismatch                // RuntimeError: a layer applied to a tensor of the wrong shape
    | UnrecognizedActivation(name: string) // ValueError raised by get_activation

  /** A value that may be absent (a Python local that is still unbound, an optional loader). */
  datatype Option<+T> = None | Some(value: T)

  /** Either the value an operation returns or the exception it raises. */
  datatype Result<+T> = Ok(value: T) | Err(error: Error) {

    /** True if this is an error; lets `:-` propagate it. */
    predicate IsFailure() {
      Err?
    }

    /** The same error, at another value type. */
    function PropagateFailure<U>(): Result<U>
      requires Err?
    {
      Err(error)
    }

    /** The value carried by `Ok`. */
    function Extract(): T
      requires Ok?
    {
      value
    }
  }
}
