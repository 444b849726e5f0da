/** Shared vocabulary of the token ledger: 128-bit balances, account identifiers,
    the contract's abort reasons and the outcome of the receiver notification. */
module Types {

  /** Largest value of Rust's `u128`, the type behind NEAR's `Balance`. */
  const U128_MAX: nat := 0xffff_ffff_ffff_ffff_ffff_ffff_ffff_ffff
  const U128_MODULUS: nat := U128_MAX + 1

  /** A token amount: a whole number of minor units that fits in 128 bits. */
  type Balance = n: nat | n <= U128_MAX

  /** Account identifiers are opaque, case-sensitive strings. */
  type AccountId = string

  datatype Option<T> = None | Some(value: T)

  /** The reasons the contract panics. A panic aborts the whole call and the host
      discards every write made during it. */
  datatype Error =
    | TotalSupplyOverflow   // both checked additions in `internal_deposit` ("Total supply overflow")
    | NotEnoughBalance      // checked subtraction of the account balance in `internal_withdraw`
    | TotalSupplyUnderflow  // checked subtraction of the supply in `internal_withdraw`
    | SameAccount           // `internal_transfer` with sender == receiver
    | ZeroAmount            // `internal_transfer` with amount == 0
    | NotOwner              // `assert_owner_calling`
    | MintOverflow          // `checked_add(..).unwrap()` on the supply in `mint`
    | PromiseNotReady       // `unreachable!()` on a promise result that is not ready

  datatype Outcome = Pass | Fail(error: Error)

  datatype Result<T> = Ok(value: T) | Err(error: Error) {
    /** Forgets the value, keeping only whether the call succeeded. */
    function ToOutcome(): (o: Outcome) {
      if Ok? then Pass else Fail(error)
    }
  }

  /** What the host hands to the resolve callback about the receiver's `ft_on_transfer`:
      `Successful(Some(n))` when its return value parsed as a U128 string,
      `Successful(None)` when it did not parse, `Failed` when the call failed. */
  datatype PromiseResult = NotReady | Successful(parsed: Option<Balance>) | Failed

  function Min(a: Balance, b: Balance): (m: Balance)
    ensures m <= a && m <= b
    ensures m == a || m == b
  {
    if a <= b then a else b
  }

  /** Plain `+` on u128 as compiled without overflow checks: the sum modulo 2^128. */
  function WrappingAdd(a: Balance, b: Balance): (r: Balance)
    ensures a + b <= U128_MAX ==> r == a + b
    ensures a + b > U128_MAX ==> r == a + b - U128_MODULUS
  {
    (a + b) % U128_MODULUS
  }

  /** Plain `-=` on u128 as compiled without overflow checks: the difference modulo 2^128. */
  function WrappingSub(a: Balance, b: Balance): (r: Balance)
    ensures b <= a ==> r == a - b
    ensures b > a ==> r == a - b + U128_MODULUS
  {
    (a - b) % U128_MODULUS
  }
}
