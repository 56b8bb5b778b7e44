/** Failure-compatible wrappers shared by every module of the interpreter model.

    `Option` stands for a C# reference that may be null; `Result` carries either a value or
    the reason an operation threw. Every .NET exception the interpreter can raise is one
    constructor of `Error`. */
module Wrappers {

  datatype Option<+T> = None | Some(value: T) {
    predicate IsFailure() { None? }

    function PropagateFailure<U>(): Option<U>
      requires None?
    {
      None
    }

    function Extract(): T
      requires Some?
    {
      value
    }
  }

  /** The reason an operation threw. */
  datatype Error =
    | KeyNotFound(key: string)        // Dictionary indexer or Function.GetArgOperable on a missing name
    | NullKey                         // Dictionary.Add or the indexer given a null key
    | DuplicateKey(key: string)       // Dictionary.Add of a name already present
    | IndexOutOfRange                 // string indexing past the end of the source text
    | ArgumentOutOfRange              // List indexing or ElementAt past the end
    | InvalidCast                     // a downcast (to OperableClone, FunctionCall or Operable) that fails
    | DivideByZero                    // Int64 division or remainder by zero
    | Overflow                        // Int64.MinValue divided by, or taken modulo, -1
    | StackEmpty                      // Stack.Pop on an empty stack
    | MismatchedParentheses
    | InvalidExpression               // the value stack does not end with exactly one value
    | UnexpectedToken                 // a block that does not start with '{'
    | FunctionNotDefined(name: string)
    | UnexpectedArgument(name: string)
    | NotResetable                    // Reset of a BREAK, CONTINUE or RETURN node
    | CollectionModified              // a list changed while a FOR loop enumerates it
    | OutOfFuel                       // the evaluation bound of the model was exhausted

  datatype Result<+T> = Ok(value: T) | Err(error: Error) {
    predicate IsFailure() { Err? }

    function PropagateFailure<U>(): Result<U>
      requires Err?
    {
      Err(error)
    }

    function Extract(): T
      requires Ok?
    {
      value
    }
  }
}
