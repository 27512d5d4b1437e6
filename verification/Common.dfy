/** Options, results and the identifiers every module shares. */
module Common {

  datatype Option<+T> = None | Some(value: T)

  datatype Result<+T, +E> = Success(value: T) | Failure(error: E)

  /** Row identifiers. A table whose rows are never deleted is a sequence, and a row's id is its index. */
  type OrderId = nat
  type CartId = nat
  type VariantId = nat
  type CustomerId = nat
  type PromoId = nat
  type PaymentId = nat
  type RefundId = nat

  /** Identifiers the payment gateway mints. */
  type GatewayRef = nat

  function Min(a: int, b: int): int { if a <= b then a else b }

  function Max(a: int, b: int): int { if a >= b then a else b }
}
