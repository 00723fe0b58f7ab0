/** Optional values, check outcomes and results with an error, used throughout the model. */
module Wrappers {

  /** A value that may be absent; stands for PHP's `null`. */
  datatype Option<+T> = None | Some(value: T)

  /** The outcome of a check that either passes or fails with an error. */
  datatype Outcome<+E> = Pass | Fail(error: E)

  /** A value or the error that aborted its computation (a thrown exception). */
  datatype Result<+T, +E> = Ok(value: T) | Err(error: E)
}

/** The exceptions the pricing engine raises. */
module Exceptions {

  datatype Exception =
    /** `PriceCalculationException`, thrown by the calculators and the managers. */
    | PriceCalculationException(message: string)
    /** Whatever the external item store throws from `save` (entity not found, missing attribute). */
    | ItemStoreException(message: string)

  function NotNullMessage(key: string): string
  {
    "Attribute " + key + " must not be null"
  }

  const DISCOUNT_OUT_OF_RANGE: string := "Discount must be within 0 and 100 percent"

  const ITEM_MANAGER_NOT_SET: string := "Item manager not set"
}
