/** Result types, machine integer widths and the identities both contracts share. */
module Prelude {

  datatype Option<+T> = None | Some(value: T)

  /** Success or the first error met; usable with `:-`. */
  datatype Outcome<+E> = Pass | Fail(error: E) {
    predicate IsFailure() {
      Fail?
    }
    function PropagateFailure(): Outcome<E>
      requires Fail?
    {
      this
    }
  }

  /** A value or an error, for entry points that return an amount. */
  datatype Result<+T, +E> = Ok(value: T) | Err(error: E)

  /** An entry point's answer: its value when the outcome is a pass. */
  function Answer<T, E>(o: Outcome<E>, value: T): Result<T, E> {
    match o
    case Pass => Ok(value)
    case Fail(e) => Err(e)
  }

  function Need<E>(condition: bool, error: E): Outcome<E> {
    if condition then Pass else Fail(error)
  }

  const U32_MAX: int := 0xFFFF_FFFF
  const U64_MAX: int := 0xFFFF_FFFF_FFFF_FFFF
  const I128_MAX: int := 0x7FFF_FFFF_FFFF_FFFF_FFFF_FFFF_FFFF_FFFF

  type u32 = x: int | 0 <= x <= U32_MAX
  type u64 = x: int | 0 <= x <= U64_MAX
  type i128 = x: int | -I128_MAX - 1 <= x <= I128_MAX

  type Symbol = string
  type Hash = nat

  /** An address is the contract itself or one of the other accounts. */
  datatype Address = Contract | Account(id: nat)

  /** `require_auth`: the address signed the transaction. The contract never signs for itself. */
  predicate Signed(auth: set<Address>, a: Address) {
    a.Account? && a in auth
  }
}
