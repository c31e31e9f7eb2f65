/**
 * The player's wealth is an unsigned 32-bit number. Bets are debited only
 * after a check that they are affordable; winnings are credited with a clamp
 * at u32::MAX. The clamp, as written, comes after a 32-bit addition that can
 * already have overflowed (see CreditAsWritten); the model credits with the
 * clamp the code evidently means (Credit).
 */
module Ledger {

  const U32_MAX: nat := 0xFFFF_FFFF
  const U32_MODULUS: nat := 0x1_0000_0000

  /** 32-bit unsigned arithmetic that wraps, as a release build computes it. */
  function Wrap(x: nat): (r: nat)
    ensures r < U32_MODULUS
    ensures x < U32_MODULUS ==> r == x
  {
    x % U32_MODULUS
  }

  /**
   * `cmp::max(0, cmp::min(u32::MAX, wealth - amount))` as written: a u32
   * subtraction, then a clamp into 0..u32::MAX. For an affordable amount the
   * subtraction does not wrap and the clamp changes nothing.
   */
  function Debit(wealth: nat, amount: nat): (r: nat)
    requires amount <= wealth <= U32_MAX
    ensures r + amount == wealth
  {
    Max(0, Min(U32_MAX, Wrap(wealth + U32_MODULUS - amount)))
  }

  /** `cmp::min` on integers. */
  function Min(a: int, b: int): int
  {
    if a <= b then a else b
  }

  /** `cmp::max` on integers. */
  function Max(a: int, b: int): int
  {
    if a >= b then a else b
  }

  /** A credit as intended: the exact sum, or u32::MAX when the sum does not fit. */
  function Credit(wealth: nat, amount: nat): (r: nat)
    requires wealth <= U32_MAX
    ensures wealth <= r <= U32_MAX
    ensures r == wealth + amount || (r == U32_MAX && wealth + amount > U32_MAX)
  {
    if wealth + amount > U32_MAX then U32_MAX else wealth + amount
  }

  /**
   * `cmp::max(0, cmp::min(u32::MAX, wealth + bet * factor))` as written: the
   * product and the sum are u32 operations, so they wrap before the clamp
   * sees them, and the clamp then changes nothing.
   */
  function CreditAsWritten(wealth: nat, bet: nat, factor: nat): (r: nat)
    requires wealth <= U32_MAX && bet <= U32_MAX
    ensures r <= U32_MAX
    ensures wealth + bet * factor <= U32_MAX ==> r == Credit(wealth, bet * factor)
  {
    Max(0, Min(U32_MAX, Wrap(wealth + Wrap(bet * factor))))
  }

  /**
   * Whenever a doubled payout does not fit in 32 bits, the code as written
   * leaves the player with less than the clamped credit, although the payout
   * follows a debit of `bet` from a wealth that was at most u32::MAX.
   */
  lemma WinOverflowLoses(wealth: nat, bet: nat)
    requires wealth + bet <= U32_MAX
    requires wealth + 2 * bet > U32_MAX
    ensures CreditAsWritten(wealth, bet, 2) < Credit(wealth, 2 * bet) == U32_MAX
    ensures CreditAsWritten(wealth, bet, 2) == wealth + 2 * bet - U32_MODULUS
  {
  }

  /**
   * A concrete run: with 4,000,000,000 in the bank, betting all of it and
   * winning leaves 3,705,032,704, where the clamp was meant to give u32::MAX.
   */
  lemma WinOverflowExample()
    ensures Debit(4_000_000_000, 4_000_000_000) == 0
    ensures CreditAsWritten(0, 4_000_000_000, 2) == 3_705_032_704
    ensures Credit(0, 2 * 4_000_000_000) == U32_MAX
  {
  }
}
