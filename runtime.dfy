/** Failure values and untyped objects shared by the codec modules.

    The Java code signals failures with exceptions (a failed
    `Validator.validateTrue`, an index out of bounds, a driver refusal); the
    model returns them as `Failure` values so that every error path is part
    of a function's result. */
module Runtime {

  /** The reasons an encode or decode can be refused. */
  datatype Error =
    /** `Validator.validateTrue` failed: an object of class `actual` was given
        where one assignable to `expected` was required. */
    | NotAssignable(expected: string, actual: string)
    /** `List.get(index)` on a list of `size` elements. */
    | IndexOutOfBounds(index: int, size: int)
    /** A tuple value was read at an index it has no component for. */
    | InvalidComponentIndex(index: int, arity: int)
    /** A tuple value component was read under a type it was not declared with. */
    | InvalidComponentType(index: int)
    /** A row was asked for a column it does not hold. */
    | UnknownColumn(column: string)
    /** A component codec refused a cell. */
    | InvalidCell(message: string)

  datatype Result<+T> = Success(value: T) | Failure(error: Error) {

    predicate IsFailure() {
      Failure?
    }

    function PropagateFailure<U>(): Result<U>
      requires Failure?
    {
      Failure(error)
    }

    function Extract(): T
      requires Success?
    {
      value
    }
  }

  /** A Java `Object` handed to an untyped entry point: either an instance of
      the class the entry point expects (`T`), or an object of some class,
      named by `className`, that is not assignable to it. */
  datatype JavaObject<+T> = Instance(value: T) | Foreign(className: string)
}
