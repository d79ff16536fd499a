/** Failure-carrying results for the budget tracker.

    Every mutator of the ledger either succeeds with a new state or is rejected
    with the invalid-argument error the Java code throws; a nullable Java
    reference argument is an `Option`, with `None` standing for `null`.
 */
module Outcome {

  datatype Option<+T> = None | Some(value: T)

  /** One constructor per `IllegalArgumentException` message of the ledger. */
  datatype Error =
    | NegativeIncome      // "income must be >= 0"
    | BlankCategory       // "category must be non-empty"
    | NullDate            // "date must be non-null"
    | BadDateLength       // "date must be in ISO format YYYY-MM-DD"
    | MissingDashes       // "date must contain dashes at positions 4 and 7"
    | NegativeAmount      // "amount must be >= 0"
    | NegativeLimit       // "limit must be >= 0"

  datatype Result<+T> = Ok(value: T) | Err(error: Error)
}
