/**
 * The scam filter: a pair passes only with enough liquidity, a bounded
 * fully-diluted valuation, enough 24h volume, and volume at most 50 times
 * liquidity (higher ratios look like wash trading).
 */
module ScamFilter {
  import opened Pairs

  const MinLiquidity: real := 8000.0
  const MaxFdv: real := 50000000.0
  const MinVolume: real := 15000.0
  /** The fixed bound on 24h volume divided by liquidity. */
  const MaxVolumePerLiquidity: real := 50.0

  /** `is_not_scam`: four early-return checks, in the source's order. */
  function IsNotScam(p: Pair): (ok: bool)
    ensures ok <==>
      && MinLiquidity <= p.liquidity
      && p.fdv <= MaxFdv
      && MinVolume <= p.volume24h
      && p.volume24h <= p.liquidity * MaxVolumePerLiquidity
  {
    if p.liquidity < MinLiquidity then false
    else if p.fdv > MaxFdv then false
    else if p.volume24h < MinVolume then false
    else if p.volume24h > p.liquidity * MaxVolumePerLiquidity then false
    else true
  }

  /** Fail-safe: a pair whose liquidity or volume field was missing (read as 0) is rejected. */
  lemma MissingFieldsRejected(p: Pair)
    requires p.liquidity == 0.0 || p.volume24h == 0.0
    ensures !IsNotScam(p)
  {
  }

  /** The thresholds are inclusive: exactly 8000 / 50,000,000 / 15000 passes. */
  lemma BoundaryPasses(p: Pair)
    requires p.liquidity == 8000.0 && p.fdv == 50000000.0 && p.volume24h == 15000.0
    ensures IsNotScam(p)
  {
  }

  /** Just below the liquidity floor, or volume at 51 times liquidity, fails. */
  lemma JustOutsideFails(p: Pair)
    requires p.liquidity == 7999.0 || (p.liquidity > 0.0 && p.volume24h == 51.0 * p.liquidity)
    ensures !IsNotScam(p)
  {
  }

  /** More liquidity, everything else equal, never turns a passing pair into a failing one. */
  lemma PassingIsMonotoneInLiquidity(p: Pair, extra: real)
    requires extra >= 0.0 && IsNotScam(p)
    ensures IsNotScam(p.(liquidity := p.liquidity + extra))
  {
  }
}
