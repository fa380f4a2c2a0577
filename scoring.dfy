/**
 * The scoring engine: a composite score from three sub-signals (pre-pump
 * points, raw 5-minute momentum, smart-money boost), each multiplied by its
 * entry of the process-wide weight vector.
 */
module Scoring {
  import opened Pairs

  /** The three weights, as a value: `AI_WEIGHTS` read at one moment. */
  datatype WeightVector = WeightVector(prepump: real, momentum: real, smartMoney: real)

  /** The starting weights: every key at 1.0. */
  const UnitWeights := WeightVector(1.0, 1.0, 1.0)

  predicate Positive(w: WeightVector) {
    w.prepump > 0.0 && w.momentum > 0.0 && w.smartMoney > 0.0
  }

  /**
   * `AI_WEIGHTS`: the mutable weight dictionary, read by the scorer and updated
   * in place by the weight learner.
   */
  class Weights {
    var prepump: real
    var momentum: real
    var smartMoney: real

    /** The module-level initial value. The source never reads the weights file back. */
    constructor ()
      ensures Value() == UnitWeights
    {
      prepump, momentum, smartMoney := 1.0, 1.0, 1.0;
    }

    function Value(): WeightVector
      reads this
    {
      WeightVector(prepump, momentum, smartMoney)
    }
  }

  /** +2 band: liquidity strictly between 20,000 and 200,000. */
  predicate LiquidityInBand(p: Pair) {
    20000.0 < p.liquidity < 200000.0
  }

  /** +3 band: 5-minute change strictly between 1% and 5%. */
  predicate MildRise(p: Pair) {
    1.0 < p.change5m < 5.0
  }

  /** Estimated 5-minute volume: a 24h volume spread over 288 five-minute slots. */
  function Volume5m(p: Pair): real {
    if p.volume24h != 0.0 then p.volume24h / 288.0 else 0.0
  }

  /** +2 band: nonzero liquidity and estimated 5-minute volume above 5% of it. */
  predicate VolumeSurge(p: Pair) {
    p.liquidity != 0.0 && Volume5m(p) > p.liquidity * 0.05
  }

  /** `pre_pump_signal`: a score that starts at 0 and gains points band by band. */
  function PrePumpSignal(p: Pair): (points: int)
    ensures points in {0, 2, 3, 4, 5, 7}
    ensures 0 <= points <= 7
    ensures points % 2 == 1 <==> MildRise(p)
    ensures var rest := points - (if MildRise(p) then 3 else 0);
      && (rest == 4 <==> LiquidityInBand(p) && VolumeSurge(p))
      && (rest == 2 <==> LiquidityInBand(p) != VolumeSurge(p))
      && (rest == 0 <==> !LiquidityInBand(p) && !VolumeSurge(p))
  {
    var score0 := 0;
    var score1 := if LiquidityInBand(p) then score0 + 2 else score0;
    var score2 := if MildRise(p) then score1 + 3 else score1;
    if VolumeSurge(p) then score2 + 2 else score2
  }

  /** Strong accumulation: more than 100 buys and more than twice as many buys as sells. */
  predicate HeavyBuying(p: Pair) {
    p.buys5m > 100.0 && p.buys5m > p.sells5m * 2.0
  }

  /** `smart_money_boost`: 3 for heavy buying, else 2 for more than 50 buys, else 0. */
  function SmartMoneyBoost(p: Pair): (boost: int)
    ensures boost in {0, 2, 3}
    ensures boost == 3 <==> HeavyBuying(p)
    ensures boost == 2 <==> !HeavyBuying(p) && p.buys5m > 50.0
    ensures boost == 0 <==> p.buys5m <= 50.0
  {
    if HeavyBuying(p) then 3
    else if p.buys5m > 50.0 then 2
    else 0
  }

  /** More buys, or fewer sells, never lowers the boost. */
  lemma SmartMoneyMonotone(p: Pair, q: Pair)
    requires q.buys5m >= p.buys5m && q.sells5m <= p.sells5m
    ensures SmartMoneyBoost(q) >= SmartMoneyBoost(p)
  {
  }

  /**
   * `ai_score`: the weighted sum of the three sub-signals. With positive
   * weights the score lies between the weighted momentum alone and the
   * weighted momentum plus the largest bonuses (7 and 3 points).
   */
  function AiScore(p: Pair, w: WeightVector): (score: real)
    ensures Positive(w) ==> p.change5m * w.momentum <= score
    ensures Positive(w) ==> score <= p.change5m * w.momentum + 7.0 * w.prepump + 3.0 * w.smartMoney
  {
    var pre, smart := PrePumpSignal(p) as real, SmartMoneyBoost(p) as real;
    var s := pre * w.prepump + p.change5m * w.momentum + smart * w.smartMoney;
    if Positive(w) then
      MulBounds(pre, 7.0, w.prepump);
      MulBounds(smart, 3.0, w.smartMoney);
      s
    else
      s
  }

  lemma MulBounds(x: real, hi: real, c: real)
    requires 0.0 <= x <= hi && c > 0.0
    ensures 0.0 <= x * c <= hi * c
  {
  }

  /** All three weights multiplied by `c`. */
  function ScaleWeights(w: WeightVector, c: real): WeightVector {
    WeightVector(c * w.prepump, c * w.momentum, c * w.smartMoney)
  }

  /**
   * Multiplying all weights by the same positive factor never changes which
   * of two pairs scores higher, so it leaves the ranking order unchanged.
   */
  lemma ScalingKeepsOrder(p: Pair, q: Pair, w: WeightVector, c: real)
    requires c > 0.0
    ensures AiScore(p, ScaleWeights(w, c)) <= AiScore(q, ScaleWeights(w, c)) <==> AiScore(p, w) <= AiScore(q, w)
  {
    ScaledScore(p, w, c);
    ScaledScore(q, w, c);
    MulKeepsOrder(AiScore(p, w), AiScore(q, w), AiScore(p, ScaleWeights(w, c)), AiScore(q, ScaleWeights(w, c)), c);
  }

  lemma ScaledScore(p: Pair, w: WeightVector, c: real)
    ensures AiScore(p, ScaleWeights(w, c)) == c * AiScore(p, w)
  {
  }

  lemma MulKeepsOrder(x: real, y: real, sx: real, sy: real, c: real)
    requires c > 0.0 && sx == c * x && sy == c * y
    ensures sx <= sy <==> x <= y
  {
    assert c * y - c * x == c * (y - x);
  }

  /**
   * The worked example: unit weights, liquidity 50,000, change 3%, volume
   * 1,000,000, 120 buys and 40 sells score 7 + 3 + 3 = 13.
   */
  lemma AiScoreExample(p: Pair)
    requires p.liquidity == 50000.0 && p.change5m == 3.0 && p.volume24h == 1000000.0
    requires p.buys5m == 120.0 && p.sells5m == 40.0
    ensures PrePumpSignal(p) == 7 && SmartMoneyBoost(p) == 3
    ensures AiScore(p, UnitWeights) == 13.0
  {
  }
}
