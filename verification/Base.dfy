/** Machine integers, error codes and the result types shared by every module. */
module Base {

  const U64_MAX: int := 0xFFFF_FFFF_FFFF_FFFF
  const U64_MODULUS: int := 0x1_0000_0000_0000_0000
  const U128_MAX: int := 0xFFFF_FFFF_FFFF_FFFF_FFFF_FFFF_FFFF_FFFF

  type u64 = x: int | 0 <= x <= 0xFFFF_FFFF_FFFF_FFFF
  type i64 = x: int | -0x8000_0000_0000_0000 <= x <= 0x7FFF_FFFF_FFFF_FFFF

  /** Public keys: only their identity matters. */
  type Key = nat

  datatype Error =
    | AlreadyClaimed | AlreadyMigrated | AlreadyReclaimed | AccountInUse | AccountNotInitialized
    | AmountTooSmall | BelowReclaimThreshold | BondingComplete | BondingNotComplete | BorrowTooSmall
    | CannotStarSelf | ClaimBelowMinimum | EmptyBorrowRequest | EpochNotComplete | InsufficientFunds
    | InsufficientLamports | InsufficientMigrationFee | InsufficientSol | InsufficientTokens
    | InsufficientTreasury | InsufficientVaultBalance | InsufficientVolumeForRewards
    | LendingCapExceeded | LendingRequiresMigration | LtvExceeded | MathOverflow | MaxWalletExceeded
    | NoActiveLoan | NoActiveShort | NoRewardsAvailable | NoVolumeInEpoch | NotLiquidatable
    | NotMigrated | PoolTooThin | ShortNotEnabled | SlippageExceeded | TokenNotReclaimed
    | TokenStillActive | UserBorrowCapExceeded | WalletNotLinked | ZeroAmount | ZeroPoolReserves

  datatype Option<+T> = None | Some(value: T) {
    function OkOr(e: Error): Result<T> {
      match this
      case Some(v) => Ok(v)
      case None => Err(e)
    }
  }

  datatype Result<+T> = Ok(value: T) | Err(error: Error) {
    predicate IsFailure() {
      Err?
    }

    function PropagateFailure<U>(): Result<U>
      requires Err?
    {
      Err(error)
    }

    function Extract(): T
      requires Ok?
    {
      value
    }
  }

  /** A handler's guard: `var _ :- Require(condition, error)` aborts with `error` unless it holds. */
  function Require(condition: bool, e: Error): Result<()> {
    if condition then Ok(()) else Err(e)
  }

  function CheckedAdd(a: nat, b: nat): (r: Result<u64>) {
    if a + b <= 0xFFFF_FFFF_FFFF_FFFF then Ok(a + b) else Err(MathOverflow)
  }

  function CheckedSub(a: u64, b: nat, e: Error := MathOverflow): (r: Result<u64>) {
    if b <= a then Ok(a - b) else Err(e)
  }

  function SaturatingSub(a: u64, b: nat): (r: u64) {
    if b <= a then a - b else 0
  }

  function Min(a: int, b: int): int {
    if a <= b then a else b
  }

  function Max(a: int, b: int): int {
    if a <= b then b else a
  }

  function Get<K>(m: map<K, nat>, k: K): nat {
    if k in m then m[k] else 0
  }
}
