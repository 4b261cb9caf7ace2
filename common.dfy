/** Identifiers, optional values and the error results shared by the reconciliation core.
    The source raises exceptions; the model returns them as values. */
module Common {

  type LineId = nat
  type ProductId = nat
  type BusinessId = nat
  type LocationId = nat

  datatype Option<+T> = None | Some(value: T)

  /** Why an operation raised. */
  datatype Error =
    | IncorrectValue            // a discount or tax whose "type" is neither "percentage" nor "amount"
    | MissingAttribute          // AttributeError: an attribute the object does not have
    | NullArithmetic            // TypeError: arithmetic on a NULL (None) column
    | QuantityReceivedTooHigh   // quantity_received > quantity
    | InvoiceAlreadyReceived    // adding lines to an invoice whose status is RECEIVED
    | ReceivedStatusOnCreate    // creating an invoice already RECEIVED or PARTIALLY_RECEIVED
    | NonPositiveQuantity
    | NonPositiveUnitPrice
    | InsufficientStock
    | MultipleObjectsReturned   // a `get` that matched more than one row
    | CheckConstraintViolated   // both restock flags set on a purchase line
    | DuplicateProduct          // the unique (invoice, product) constraint
    | MissingKey                // KeyError: a request item without an "id" key

  datatype Result<+T> = Ok(value: T) | Fail(error: Error)

  /** The outcome of a call that returns nothing when it does not raise. */
  datatype Outcome = Pass | Raise(error: Error)

  /** What a JSON `discount` or `tax` column says its "type" is. */
  datatype ChargeKind = Percentage | Amount | Unrecognized

  /** A well-formed JSON `discount` or `tax` column: empty or NULL (falsy), or a numeric value with
      a type. A truthy column without a numeric "value" is not represented. */
  datatype Charge = Unset | Given(value: real, kind: ChargeKind)
}
