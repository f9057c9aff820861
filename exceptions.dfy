/** The failure kinds the cart core reports, and the wrappers that carry them. */
module Exceptions {

  /** `ItemDoesNotExist` and `CartDoesNotExist` are the package's own exceptions.
      `ObjectDoesNotExist` is the ORM's `Model.DoesNotExist`, raised when a `get` matches
      no row, and `MultipleObjectsReturned` is its failure when a `get` matches more than one. */
  datatype Error = ItemDoesNotExist | CartDoesNotExist | ObjectDoesNotExist | MultipleObjectsReturned

  datatype Option<+T> = None | Some(value: T)

  datatype Result<+T> = Success(value: T) | Failure(error: Error)

  /** The outcome of an operation that returns nothing but may fail. */
  datatype Outcome = Pass | Fail(error: Error)
}
