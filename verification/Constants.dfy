/** Numbers the protocol fixes. */
module Constants {
  /** The largest amount of shares of an asset; searches by price start from one share for so many. */
  const MAX_SHARES: nat := 1_000_000_000_000_000

  const HUNDRED_PERCENT: nat := 10000

  const TWO_TO_THE_32: nat := 0x1_0000_0000
}
