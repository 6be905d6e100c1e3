/** Identifiers, instants and the error outcomes shared by the sales model. */
module Common {

  /** A Guid; 0 plays the part of Guid.Empty. */
  type Guid = nat
  const EmptyGuid: Guid := 0

  /** A DateTime as a tick count; 0 is default(DateTime). */
  type Instant = nat
  const DefaultInstant: Instant := 0

  datatype Option<T> = None | Some(value: T)

  /** The business rules whose violation raises a BusinessRuleException. */
  datatype Rule =
    | ExceedsMaximumQuantity   // "Cannot sell more than 20 identical items."
    | DiscountBelowMinimum     // "Purchases below 4 items cannot have a discount."

  /** The situations in which a handler raises an InvalidOperationException. */
  datatype Conflict =
    | DuplicateSaleNumber      // "Sale with number … already exists"
    | UnknownUser              // "User with ID … not found"
    | SaleCancelled            // "Cannot update a cancelled sale"
    | AlreadyCancelled         // "Sale is already cancelled"

  /** One constructor per exception type the core raises. */
  datatype Error =
    | Validation               // FluentValidation.ValidationException
    | NotFound                 // KeyNotFoundException "Sale with ID … not found"
    | Conflict(reason: Conflict)
    | BusinessRule(rule: Rule)

  datatype Result<T> = Ok(value: T) | Err(error: Error)
}
