/**
 * A pair snapshot as the market-data search returns it. The source reads every
 * numeric field with `float(x or 0)`; here each field already holds that value,
 * so a missing field is 0.
 */
module Pairs {
  import opened Common

  datatype Pair = Pair(
    address: Option<string>,  // pairAddress, the pair's identity
    symbol: Option<string>,   // baseToken.symbol
    priceUsd: real,           // priceUsd
    volume24h: real,          // volume.h24
    liquidity: real,          // liquidity.usd
    fdv: real,                // fdv, fully-diluted valuation
    change5m: real,           // priceChange.m5, in percent
    buys5m: real,             // txns.m5.buys
    sells5m: real)            // txns.m5.sells

  /** Python's `if not addr` is true for a missing address and for the empty string. */
  predicate HasAddress(p: Pair) {
    p.address.Some? && p.address.value != ""
  }
}
