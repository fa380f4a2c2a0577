/**
 * The weight learner: every matured signal (at least an hour old) whose token
 * still has a current price is judged. A rise of at least 10% reinforces all
 * three weights; anything else penalises only momentum. No bound or decay is
 * applied, and a signal is judged again on every later cycle until evicted.
 */
module WeightLearner {
  import opened Common
  import opened Scoring
  import opened SignalMemory

  /** Seconds a signal must age before it is judged. */
  const MaturitySeconds: real := 3600.0
  /** Percentage change from which a signal counts as a rise. */
  const RiseThresholdPercent: real := 10.0

  /** What one pass of the loop does with one memory entry. */
  datatype Verdict =
    | Skip             // immature, or no usable current price: `continue`
    | Rose             // change of at least 10%
    | DidNotRise       // any other change
    | ZeroStoredPrice  // stored price 0: the change divides by zero and the pass aborts

  /** How the loop body treats `e`, given the clock and the looked-up current price. */
  function Judge(e: SignalRecord, now: real, current: Option<real>): (v: Verdict)
    ensures v == Skip <==> now - e.time < MaturitySeconds || current == None || current == Some(0.0)
    ensures v == ZeroStoredPrice <==> v != Skip && e.price == 0.0
    ensures v != Skip && e.price > 0.0 ==> (v == Rose <==> current.value >= 1.1 * e.price)
    ensures v != Skip && e.price < 0.0 ==> (v == Rose <==> current.value <= 1.1 * e.price)
  {
    if now - e.time < MaturitySeconds then Skip
    else match current
      case None => Skip
      case Some(newPrice) =>
        if newPrice == 0.0 then Skip
        else if e.price == 0.0 then ZeroStoredPrice
        else
          var change := (newPrice - e.price) / e.price * 100.0;
          ChangeThreshold(newPrice, e.price);
          if change >= RiseThresholdPercent then Rose else DidNotRise
  }

  /** The percentage test against 10 as a comparison of prices, for either sign of the old price. */
  lemma ChangeThreshold(newPrice: real, oldPrice: real)
    requires oldPrice != 0.0
    ensures oldPrice > 0.0 ==> ((newPrice - oldPrice) / oldPrice * 100.0 >= 10.0 <==> newPrice >= 1.1 * oldPrice)
    ensures oldPrice < 0.0 ==> ((newPrice - oldPrice) / oldPrice * 100.0 >= 10.0 <==> newPrice <= 1.1 * oldPrice)
  {
    var q := (newPrice - oldPrice) / oldPrice;
    assert q * oldPrice == newPrice - oldPrice;
    if oldPrice > 0.0 {
      assert q >= 0.1 ==> q * oldPrice >= 0.1 * oldPrice;
      assert q < 0.1 ==> q * oldPrice < 0.1 * oldPrice;
    } else {
      assert q >= 0.1 ==> q * oldPrice <= 0.1 * oldPrice;
      assert q < 0.1 ==> q * oldPrice > 0.1 * oldPrice;
    }
  }

  /** The multiplicative update a verdict applies. */
  function Apply(w: WeightVector, v: Verdict): (r: WeightVector)
    ensures Positive(w) ==> Positive(r)
    ensures v == Rose && Positive(w) ==>
      r.prepump > w.prepump && r.smartMoney > w.smartMoney && r.momentum > w.momentum
    ensures v == DidNotRise && Positive(w) ==>
      r.prepump == w.prepump && r.smartMoney == w.smartMoney && r.momentum < w.momentum
    ensures v == Skip || v == ZeroStoredPrice ==> r == w
  {
    match v
    case Rose => WeightVector(w.prepump * 1.03, w.momentum * 1.02, w.smartMoney * 1.04)
    case DidNotRise => w.(momentum := w.momentum * 0.97)
    case _ => w
  }

  /** The outcome of one pass: new weights and whether they must be written, or an abort. */
  datatype LearnResult =
    | Learned(weights: WeightVector, updated: bool)
    | Crashed(weights: WeightVector)  // ZeroDivisionError; earlier in-place updates remain

  /**
   * One pass of `auto_learn` over `mem`, starting from `w` with flag `updated`.
   * Positive weights stay positive, whether the pass completes or aborts; a
   * raised flag is never cleared; and a completed pass that raises no flag
   * leaves the weights as they were.
   */
  function Learn(w: WeightVector, updated: bool, mem: seq<SignalRecord>, now: real,
                 price: Option<string> -> Option<real>): (r: LearnResult)
    ensures Positive(w) ==> Positive(r.weights)
    ensures updated && r.Learned? ==> r.updated
    ensures r.Learned? && !r.updated ==> r.weights == w
    decreases |mem|
  {
    if mem == [] then Learned(w, updated)
    else
      var v := Judge(mem[0], now, price(mem[0].token));
      if v == ZeroStoredPrice then Crashed(w)
      else Learn(Apply(w, v), updated || v != Skip, mem[1..], now, price)
  }

  predicate NeverCrashes(mem: seq<SignalRecord>, now: real, price: Option<string> -> Option<real>) {
    forall i | 0 <= i < |mem| :: Judge(mem[i], now, price(mem[i].token)) != ZeroStoredPrice
  }

  /** How many entries of `mem` get verdict `v`. */
  function CountVerdict(mem: seq<SignalRecord>, now: real, price: Option<string> -> Option<real>,
                        v: Verdict): nat
    decreases |mem|
  {
    if mem == [] then 0
    else (if Judge(mem[0], now, price(mem[0].token)) == v then 1 else 0) + CountVerdict(mem[1..], now, price, v)
  }

  /** `v` multiplied `n` times by `x`. */
  function Scale(v: real, x: real, n: nat): real
    decreases n
  {
    if n == 0 then v else Scale(v * x, x, n - 1)
  }

  /** The weights after `rises` reinforcements and `falls` penalties, in any order. */
  function Compound(w: WeightVector, rises: nat, falls: nat): WeightVector {
    WeightVector(
      Scale(w.prepump, 1.03, rises),
      Scale(Scale(w.momentum, 1.02, rises), 0.97, falls),
      Scale(w.smartMoney, 1.04, rises))
  }

  lemma {:induction false} ScaleAdd(v: real, x: real, a: nat, b: nat)
    ensures Scale(Scale(v, x, a), x, b) == Scale(v, x, a + b)
    decreases a
  {
    if a > 0 {
      ScaleAdd(v * x, x, a - 1, b);
    }
  }

  lemma {:induction false} ScaleTimes(v: real, x: real, n: nat, y: real)
    ensures Scale(v, x, n) * y == Scale(v * y, x, n)
    decreases n
  {
    if n > 0 {
      var vx, vy := v * x, v * y;
      ScaleTimes(vx, x, n - 1, y);
      assert vx * y == vy * x;
      assert Scale(vy, x, n) == Scale(vy * x, x, n - 1);
      assert Scale(v, x, n) == Scale(vx, x, n - 1);
    }
  }

  /** Multiplications by two factors can be done in either order. */
  lemma {:induction false} ScaleCommute(v: real, x: real, a: nat, y: real, b: nat)
    ensures Scale(Scale(v, x, a), y, b) == Scale(Scale(v, y, b), x, a)
    decreases b
  {
    if b > 0 {
      ScaleTimes(v, x, a, y);
      ScaleCommute(v * y, x, a, y, b - 1);
    }
  }

  /** Compounding twice adds the counts. */
  lemma CompoundCompose(w: WeightVector, r1: nat, f1: nat, r2: nat, f2: nat)
    ensures Compound(Compound(w, r1, f1), r2, f2) == Compound(w, r1 + r2, f1 + f2)
  {
    ScaleAdd(w.prepump, 1.03, r1, r2);
    ScaleAdd(w.smartMoney, 1.04, r1, r2);
    var m1 := Scale(w.momentum, 1.02, r1);
    ScaleCommute(m1, 0.97, f1, 1.02, r2);
    ScaleAdd(w.momentum, 1.02, r1, r2);
    ScaleAdd(Scale(w.momentum, 1.02, r1 + r2), 0.97, f1, f2);
  }

  /** The pass aborts exactly when some entry reaches the division with a stored price of 0. */
  lemma {:induction false} LearnCrashesIff(w: WeightVector, updated: bool, mem: seq<SignalRecord>,
                                           now: real, price: Option<string> -> Option<real>)
    ensures Learn(w, updated, mem, now, price).Crashed? <==> !NeverCrashes(mem, now, price)
    decreases |mem|
  {
    if mem != [] {
      var v := Judge(mem[0], now, price(mem[0].token));
      LearnCrashesIff(Apply(w, v), updated || v != Skip, mem[1..], now, price);
      if NeverCrashes(mem[1..], now, price) && v != ZeroStoredPrice {
        forall i | 0 <= i < |mem| ensures Judge(mem[i], now, price(mem[i].token)) != ZeroStoredPrice {
          if i > 0 { assert mem[i] == mem[1..][i - 1]; }
        }
      }
      if !NeverCrashes(mem[1..], now, price) {
        var i :| 0 <= i < |mem[1..]| && Judge(mem[1..][i], now, price(mem[1..][i].token)) == ZeroStoredPrice;
        assert mem[i + 1] == mem[1..][i];
      }
    }
  }

  /**
   * Closed form of a pass that does not abort: the weights are multiplied by
   * 1.03 / 1.02 / 1.04 once per rise and momentum by 0.97 once per other matured
   * entry; the weights are written back exactly when some entry was judged.
   */
  lemma {:induction false} LearnClosedForm(w: WeightVector, updated: bool, mem: seq<SignalRecord>,
                                           now: real, price: Option<string> -> Option<real>)
    requires NeverCrashes(mem, now, price)
    ensures var rises, falls := CountVerdict(mem, now, price, Rose), CountVerdict(mem, now, price, DidNotRise);
      Learn(w, updated, mem, now, price) == Learned(Compound(w, rises, falls), updated || rises + falls > 0)
    decreases |mem|
  {
    if mem != [] {
      var v := Judge(mem[0], now, price(mem[0].token));
      assert v != ZeroStoredPrice;
      assert NeverCrashes(mem[1..], now, price) by {
        forall i | 0 <= i < |mem[1..]| ensures Judge(mem[1..][i], now, price(mem[1..][i].token)) != ZeroStoredPrice {
          assert mem[1..][i] == mem[i + 1];
        }
      }
      var w' := Apply(w, v);
      LearnClosedForm(w', updated || v != Skip, mem[1..], now, price);
      var r, f := CountVerdict(mem[1..], now, price, Rose), CountVerdict(mem[1..], now, price, DidNotRise);
      if v == Rose {
        assert w' == Compound(w, 1, 0);
        CompoundCompose(w, 1, 0, r, f);
      } else if v == DidNotRise {
        assert w' == Compound(w, 0, 1);
        CompoundCompose(w, 0, 1, r, f);
      }
    }
  }

  /** Entries that are all immature or without a usable price leave the weights and the flag alone. */
  lemma {:induction false} LearnSkipsAll(w: WeightVector, updated: bool, mem: seq<SignalRecord>,
                                         now: real, price: Option<string> -> Option<real>)
    requires forall i | 0 <= i < |mem| ::
      now - mem[i].time < MaturitySeconds || price(mem[i].token) == None || price(mem[i].token) == Some(0.0)
    ensures Learn(w, updated, mem, now, price) == Learned(w, updated)
    decreases |mem|
  {
    if mem != [] {
      assert Judge(mem[0], now, price(mem[0].token)) == Skip;
      forall i | 0 <= i < |mem[1..]|
        ensures now - mem[1..][i].time < MaturitySeconds || price(mem[1..][i].token) == None
                || price(mem[1..][i].token) == Some(0.0)
      {
        assert mem[1..][i] == mem[i + 1];
      }
      LearnSkipsAll(w, updated, mem[1..], now, price);
    }
  }

  /**
   * The learner does not remember what it has judged: a second pass over the
   * same memory at the same clock applies every update a second time.
   */
  lemma LearnTwiceCompounds(w: WeightVector, mem: seq<SignalRecord>, now: real,
                            price: Option<string> -> Option<real>)
    requires NeverCrashes(mem, now, price)
    ensures var rises, falls := CountVerdict(mem, now, price, Rose), CountVerdict(mem, now, price, DidNotRise);
      Learn(Learn(w, false, mem, now, price).weights, false, mem, now, price).weights
        == Compound(w, 2 * rises, 2 * falls)
  {
    var r, f := CountVerdict(mem, now, price, Rose), CountVerdict(mem, now, price, DidNotRise);
    LearnClosedForm(w, false, mem, now, price);
    LearnClosedForm(Compound(w, r, f), false, mem, now, price);
    CompoundCompose(w, r, f, r, f);
  }

  /**
   * Maturity only grows with the clock: an entry judged at `now1` is judged
   * the same way at any later `now2` while its current price is unchanged.
   */
  lemma JudgedAgainLater(e: SignalRecord, now1: real, now2: real, current: Option<real>)
    requires now2 >= now1 && Judge(e, now1, current) != Skip
    ensures Judge(e, now2, current) == Judge(e, now1, current)
  {
  }

  /**
   * A later pass with unchanged prices gives at least as many rises and at
   * least as many non-rises as an earlier one: nothing judged is forgotten.
   */
  lemma {:induction false} LaterPassJudgesAgain(mem: seq<SignalRecord>, now1: real, now2: real,
                                                price: Option<string> -> Option<real>, v: Verdict)
    requires now2 >= now1 && (v == Rose || v == DidNotRise)
    ensures CountVerdict(mem, now2, price, v) >= CountVerdict(mem, now1, price, v)
    decreases |mem|
  {
    if mem != [] {
      if Judge(mem[0], now1, price(mem[0].token)) != Skip {
        JudgedAgainLater(mem[0], now1, now2, price(mem[0].token));
      }
      LaterPassJudgesAgain(mem[1..], now1, now2, price, v);
    }
  }

  /**
   * A signal two hours old whose token rose 12% since it was recorded raises
   * prepump and smart_money strictly and momentum too.
   */
  lemma RiseExample(w: WeightVector, e: SignalRecord, now: real, price: Option<string> -> Option<real>)
    requires Positive(w) && e.price > 0.0 && now == e.time + 7200.0
    requires price(e.token) == Some(e.price * 1.12)
    ensures var r := Learn(w, false, [e], now, price);
      r.Learned? && r.updated && r.weights.prepump > w.prepump
      && r.weights.smartMoney > w.smartMoney && r.weights.momentum >= w.momentum
  {
    assert Judge(e, now, price(e.token)) == Rose;
  }

  /** A matured signal whose price did not move leaves prepump and smart_money and lowers momentum. */
  lemma FlatExample(w: WeightVector, e: SignalRecord, now: real, price: Option<string> -> Option<real>)
    requires Positive(w) && e.price > 0.0 && now == e.time + 7200.0
    requires price(e.token) == Some(e.price)
    ensures var r := Learn(w, false, [e], now, price);
      r.Learned? && r.updated && r.weights.prepump == w.prepump
      && r.weights.smartMoney == w.smartMoney && r.weights.momentum < w.momentum
  {
    assert Judge(e, now, price(e.token)) == DidNotRise;
  }

  /**
   * `auto_learn`: one pass over the memory that updates `AI_WEIGHTS` in place
   * and reports whether the weights file would be written. A stored price of 0
   * ends the pass, as the uncaught division by zero does in the source.
   */
  method AutoLearn(weights: Weights, mem: seq<SignalRecord>, now: real,
                   price: Option<string> -> Option<real>) returns (result: LearnResult)
    modifies weights
    ensures result == Learn(old(weights.Value()), false, mem, now, price)
    ensures weights.Value() == result.weights
  {
    var updated := false;
    for i := 0 to |mem|
      invariant Learn(weights.Value(), updated, mem[i..], now, price)
             == Learn(old(weights.Value()), false, mem, now, price)
    {
      assert mem[i..][0] == mem[i] && mem[i..][1..] == mem[i + 1..];
      var entry := mem[i];
      ghost var before := weights.Value();
      ghost var verdict := Judge(entry, now, price(entry.token));
      ghost var rest := mem[i + 1..];
      assert Learn(before, updated, mem[i..], now, price)
          == if verdict == ZeroStoredPrice then Crashed(before)
             else Learn(Apply(before, verdict), updated || verdict != Skip, rest, now, price);
      if now - entry.time < MaturitySeconds {
        assert verdict == Skip;
        continue;
      }
      var newPrice := price(entry.token);
      if newPrice == None || newPrice == Some(0.0) {
        assert verdict == Skip;
        continue;
      }
      if entry.price == 0.0 {
        assert verdict == ZeroStoredPrice;
        return Crashed(weights.Value());
      }
      var change := (newPrice.value - entry.price) / entry.price * 100.0;
      if change >= RiseThresholdPercent {
        assert verdict == Rose;
        weights.prepump := weights.prepump * 1.03;
        weights.smartMoney := weights.smartMoney * 1.04;
        weights.momentum := weights.momentum * 1.02;
      } else {
        assert verdict == DidNotRise;
        weights.momentum := weights.momentum * 0.97;
      }
      assert weights.Value() == Apply(before, verdict);
      updated := true;
    }
    assert mem[|mem|..] == [];
    result := Learned(weights.Value(), updated);
  }
}
