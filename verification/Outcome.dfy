/** What an instruction hands back. A failed check, a checked operation that overflows and a
    panic all revert the transaction, so every one of them is a `Reverted`. */
module Outcome {

  datatype Reason =
    | VaultInEmergencyMode
    | VaultNotActive
    | AmountTooLarge
    | Overflow
    | Underflow
    | DivisionByZero
    | MissingEmission
    | SupplyCapExceeded
    | ClaimLimitExceeded
    | AssertionFailed
    | UnknownAccount

  datatype Result<+T> = Ok(value: T) | Reverted(reason: Reason) {

    predicate IsFailure() {
      Reverted?
    }

    function PropagateFailure<U>(): Result<U>
      requires Reverted?
    {
      Reverted(reason)
    }

    function Extract(): T
      requires Ok?
    {
      value
    }
  }

  const U32_MAX: nat := 0xFFFF_FFFF
  const U64_MAX: nat := 0xFFFF_FFFF_FFFF_FFFF
  const I64_MAX: nat := 0x7FFF_FFFF_FFFF_FFFF

  /** `checked_add` on u64 followed by `unwrap`. */
  function CheckedAdd(x: nat, y: nat): (r: Result<nat>)
    ensures r.Ok? <==> x + y <= U64_MAX
    ensures r.Ok? ==> r.value == x + y
  {
    if x + y <= U64_MAX then Ok(x + y) else Reverted(Overflow)
  }

  /** `checked_sub` on u64 followed by `unwrap`. */
  function CheckedSub(x: nat, y: nat): (r: Result<nat>)
    ensures r.Ok? <==> y <= x
    ensures r.Ok? ==> r.value == x - y
  {
    if y <= x then Ok(x - y) else Reverted(Underflow)
  }

  /** `try_into::<u64>().unwrap()` on a wider number. */
  function ToU64(x: nat): (r: Result<nat>)
    ensures r.Ok? <==> x <= U64_MAX
    ensures r.Ok? ==> r.value == x
  {
    if x <= U64_MAX then Ok(x) else Reverted(Overflow)
  }

  /** `try_into::<i64>().unwrap()` on a u64. */
  function ToI64(x: nat): (r: Result<int>)
    ensures r.Ok? <==> x <= I64_MAX
    ensures r.Ok? ==> r.value == x
  {
    if x <= I64_MAX then Ok(x) else Reverted(Overflow)
  }
}
