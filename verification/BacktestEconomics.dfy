/** The entry economics a simulated trade must clear (services/scanner/app/backtest.py:455-471). */
module BacktestEconomics {
  import opened Lists

  datatype Gates = Gates(
    minNetRewardRisk: real, minStopFrictionMultiple: real, minTargetFrictionMultiple: real, maxSpreadPct: real)

  function SpreadOr0(spread: Option<real>): real { if spread.Some? then spread.value else 0.0 }

  function Friction(entry: real, stop: real, shares: nat, slip: real, fee: real, spread: Option<real>): real {
    SpreadOr0(spread) + stop * slip + entry * slip + (if shares != 0 then fee / shares as real else 0.0)
  }

  /** Net result at an unslipped target, as the gate computes it. */
  function TargetNet(entry: real, target: real, shares: nat, fee: real): real {
    (target - entry) * shares as real - fee
  }

  function StopNet(entry: real, stop: real, shares: nat, slip: real, fee: real): real {
    (stop * (1.0 - slip) - entry) * shares as real - fee
  }

  predicate Viable(
      gates: Gates, entry: real, stop: real, target: real, shares: nat, slip: real, fee: real, spread: Option<real>)
    requires entry != 0.0
  {
    var friction := Friction(entry, stop, shares, slip, fee, spread);
    var targetNet, stopNet := TargetNet(entry, target, shares, fee), StopNet(entry, stop, shares, slip, fee);
    if targetNet <= 0.0 then false
    else if spread.Some? && spread.value / entry * 100.0 > gates.maxSpreadPct then false
    else if friction > 0.0 && (entry - stop) / friction < gates.minStopFrictionMultiple then false
    else if friction > 0.0 && (target - entry) / friction < gates.minTargetFrictionMultiple then false
    else stopNet < 0.0 && targetNet / -stopNet >= gates.minNetRewardRisk
  }

  /** Net result of the simulated exit, which slips the exit price too. */
  function SimulatedNet(entry: real, exit: real, shares: nat, slip: real, fee: real): real {
    (exit * (1.0 - slip) - entry) * shares as real - fee
  }

  /** A long trade as the simulation hands it to the gate. */
  predicate LongTrade(entry: real, stop: real, target: real, shares: nat, slip: real, fee: real, spread: Option<real>) {
    0.0 < stop < entry < target && 0 < shares && 0.0 <= slip < 1.0 && 0.0 <= fee && 0.0 <= SpreadOr0(spread)
  }

  // ------------------------------------------------------------------ arithmetic

  lemma ProductAtLeast(a: real, x: real, y: real)
    requires a >= 0.0 && x >= y
    ensures a * x >= a * y
  {
  }

  lemma ProductPositive(x: real, y: real)
    requires x > 0.0 && y > 0.0
    ensures x * y > 0.0
  {
  }

  lemma SlippedTarget(entry: real, target: real, slip: real)
    ensures target * (1.0 - slip) - entry == (target - entry) * (1.0 - slip) - entry * slip
  {
  }

  lemma QuotientBound(d: real, f: real, m: real)
    requires f > 0.0 && d / f >= m
    ensures d >= m * f
  {
    assert d == (d / f) * f;
    ProductAtLeast(f, d / f, m);
  }

  lemma QuotientAtLeast(d: real, f: real, m: real)
    requires f > 0.0 && d >= m * f
    ensures d / f >= m
  {
    assert (m * f) / f == m;
    assert d / f >= (m * f) / f;
  }

  /** A friction multiple that survives the slippage leaves more than the friction after it. */
  lemma SlippedMove(d: real, f: real, m: real, slip: real)
    requires d >= m * f && f > 0.0 && slip < 1.0 && m * (1.0 - slip) >= 1.0
    ensures d * (1.0 - slip) >= f
  {
    var k := 1.0 - slip;
    ProductAtLeast(k, d, m * f);
    assert (m * f) * k == (m * k) * f;
    ProductAtLeast(f, m * k, 1.0);
  }

  lemma FeePerShare(fee: real, shares: nat, x: real)
    requires shares > 0
    ensures x > fee / shares as real <==> x * shares as real - fee > 0.0
  {
    var n := shares as real;
    assert fee / n * n == fee;
    if x > fee / n { assert x * n > fee / n * n; }
    if x <= fee / n { assert x * n <= fee / n * n; }
  }

  // ------------------------------------------------------------------ what the gate asks

  /** Total cost of the friction of a trade: the spread, both slippages and the fee. */
  function TotalFriction(entry: real, stop: real, shares: nat, slip: real, fee: real, spread: Option<real>): real {
    (if spread.Some? then spread.value else 0.0) * shares as real + (stop + entry) * slip * shares as real + fee
  }

  function Gain(entry: real, target: real, shares: nat, fee: real): real { (target - entry) * shares as real - fee }

  /** What the slipped stop costs, the fee included. */
  function Loss(entry: real, stop: real, shares: nat, slip: real, fee: real): real {
    (entry - stop * (1.0 - slip)) * shares as real + fee
  }

  predicate SpreadFits(entry: real, spread: Option<real>, maximum: real) {
    spread.Some? ==>
      if 0.0 < entry then 100.0 * spread.value <= maximum * entry else maximum * entry <= 100.0 * spread.value
  }

  /** The move of all shares is that multiple of the friction. */
  predicate FarEnough(move: real, shares: nat, friction: real, multiple: real) {
    0.0 < friction ==> multiple * friction <= move * shares as real
  }

  predicate Outweighs(gain: real, loss: real, ratio: real) { 0.0 < loss && ratio * loss <= gain }

  /** The target pays after the fee, the spread is narrow, stop and target are far enough beyond the friction, and
      the gain at the target outweighs the loss at the slipped stop. */
  predicate ClearsGates(
      gates: Gates, entry: real, stop: real, target: real, shares: nat, slip: real, fee: real, spread: Option<real>)
  {
    var friction := TotalFriction(entry, stop, shares, slip, fee, spread);
    && 0.0 < Gain(entry, target, shares, fee)
    && SpreadFits(entry, spread, gates.maxSpreadPct)
    && FarEnough(entry - stop, shares, friction, gates.minStopFrictionMultiple)
    && FarEnough(target - entry, shares, friction, gates.minTargetFrictionMultiple)
    && Outweighs(Gain(entry, target, shares, fee), Loss(entry, stop, shares, slip, fee), gates.minNetRewardRisk)
  }

  lemma FrictionPerShare(entry: real, stop: real, shares: nat, slip: real, fee: real, spread: Option<real>)
    requires shares > 0
    ensures Friction(entry, stop, shares, slip, fee, spread) * shares as real ==
            TotalFriction(entry, stop, shares, slip, fee, spread)
  {
    var n := shares as real;
    assert fee / n * n == fee;
  }

  /** A quotient is at least `m` exactly when the dividend is at least `m` times the divisor. */
  lemma QuotientAtLeastExactly(d: real, f: real, m: real)
    requires f > 0.0
    ensures d / f >= m <==> d >= m * f
  {
    if d / f >= m { QuotientBound(d, f, m); }
    if d >= m * f { QuotientAtLeast(d, f, m); }
  }

  lemma ScaledAtLeast(d: real, f: real, m: real, n: real)
    requires n > 0.0
    ensures d >= m * f <==> d * n >= m * (f * n)
  {
    assert m * (f * n) == (m * f) * n;
    if d >= m * f { ProductAtLeast(n, d, m * f); }
    if d < m * f { ProductPositive(m * f - d, n); }
  }

  lemma FarEnoughExactly(move: real, perShare: real, shares: nat, m: real)
    requires shares > 0
    ensures FarEnough(move, shares, perShare * shares as real, m) <==> !(perShare > 0.0 && move / perShare < m)
  {
    var n := shares as real;
    SignScales(perShare, n);
    if perShare > 0.0 {
      QuotientAtLeastExactly(move, perShare, m);
      ScaledAtLeast(move, perShare, m, n);
    }
  }

  lemma OutweighsExactly(gain: real, loss: real, ratio: real)
    ensures Outweighs(gain, loss, ratio) <==> -loss < 0.0 && gain / loss >= ratio
  {
    if loss > 0.0 { QuotientAtLeastExactly(gain, loss, ratio); }
  }

  lemma SpreadFitsExactly(entry: real, spread: Option<real>, maximum: real)
    requires entry != 0.0
    ensures SpreadFits(entry, spread, maximum) <==> !(spread.Some? && spread.value / entry * 100.0 > maximum)
  {
    if spread.Some? { SpreadExactly(entry, spread.value, maximum); }
  }

  lemma SpreadExactly(entry: real, spread: real, maximum: real)
    requires entry != 0.0
    ensures spread / entry * 100.0 > maximum <==>
            !(if entry > 0.0 then 100.0 * spread <= maximum * entry else maximum * entry <= 100.0 * spread)
  {
    var share := spread / entry * 100.0;
    assert share * entry == 100.0 * spread by {
      assert spread / entry * entry == spread;
      assert share * entry == 100.0 * (spread / entry * entry);
    }
    if entry > 0.0 {
      if share > maximum { ProductPositive(share - maximum, entry); }
      if share <= maximum { ProductAtLeast(entry, maximum, share); }
    } else {
      if share > maximum { ProductPositive(share - maximum, -entry); }
      if share <= maximum { ProductAtLeast(-entry, maximum, share); }
    }
  }

  lemma SignScales(f: real, n: real)
    requires n > 0.0
    ensures f > 0.0 <==> f * n > 0.0
  {
    if f > 0.0 { ProductPositive(f, n); }
    if f <= 0.0 { ProductAtLeast(n, 0.0, f); }
  }

  lemma StopNetIsLoss(entry: real, stop: real, shares: nat, slip: real, fee: real)
    ensures StopNet(entry, stop, shares, slip, fee) == -Loss(entry, stop, shares, slip, fee)
  {
    var x, n := stop * (1.0 - slip), shares as real;
    assert (x - entry) * n == -((entry - x) * n);
  }

  /** The gate accepts exactly the trades that clear it, whatever the signs of prices and settings. */
  lemma ViableExactly(
      gates: Gates, entry: real, stop: real, target: real, shares: nat, slip: real, fee: real, spread: Option<real>)
    requires entry != 0.0 && shares > 0
    ensures Viable(gates, entry, stop, target, shares, slip, fee, spread) <==>
            ClearsGates(gates, entry, stop, target, shares, slip, fee, spread)
  {
    var friction := Friction(entry, stop, shares, slip, fee, spread);
    var gain, loss := Gain(entry, target, shares, fee), Loss(entry, stop, shares, slip, fee);
    FrictionPerShare(entry, stop, shares, slip, fee, spread);
    StopNetIsLoss(entry, stop, shares, slip, fee);
    assert gain == TargetNet(entry, target, shares, fee);
    hide Friction, TotalFriction, StopNet, TargetNet, Gain, Loss, SpreadFits, FarEnough, Outweighs;
    SpreadFitsExactly(entry, spread, gates.maxSpreadPct);
    FarEnoughExactly(entry - stop, friction, shares, gates.minStopFrictionMultiple);
    FarEnoughExactly(target - entry, friction, shares, gates.minTargetFrictionMultiple);
    OutweighsExactly(gain, loss, gates.minNetRewardRisk);
  }

  // ------------------------------------------------------------------ what the gate is worth

  /** What an accepted trade pays per share at its target, before the fee. */
  lemma PaysPerShare(
      gates: Gates, entry: real, stop: real, target: real, shares: nat, slip: real, fee: real, spread: Option<real>)
    requires LongTrade(entry, stop, target, shares, slip, fee, spread) && slip > 0.0
    requires Viable(gates, entry, stop, target, shares, slip, fee, spread)
    requires gates.minTargetFrictionMultiple * (1.0 - slip) >= 1.0
    ensures target * (1.0 - slip) - entry > fee / shares as real
  {
    hide Viable;
    var a, b, perShare := stop * slip, entry * slip, fee / shares as real;
    ProductPositive(stop, slip);
    ProductPositive(entry, slip);
    FeeShare(fee, shares);
    ViableMove(gates, entry, stop, target, shares, slip, fee, spread);
    LeftAfterSlippage(target - entry, SpreadOr0(spread), a, b, perShare, gates.minTargetFrictionMultiple, slip);
    SlippedTarget(entry, target, slip);
  }

  lemma FeeShare(fee: real, shares: nat)
    requires 0.0 <= fee && 0 < shares
    ensures 0.0 <= fee / shares as real
  {
  }

  lemma ViableMove(
      gates: Gates, entry: real, stop: real, target: real, shares: nat, slip: real, fee: real, spread: Option<real>)
    requires entry != 0.0 && Viable(gates, entry, stop, target, shares, slip, fee, spread)
    requires Friction(entry, stop, shares, slip, fee, spread) > 0.0
    ensures target - entry >= gates.minTargetFrictionMultiple * Friction(entry, stop, shares, slip, fee, spread)
  {
    hide Friction, TargetNet, StopNet;
    QuotientBound(target - entry, Friction(entry, stop, shares, slip, fee, spread), gates.minTargetFrictionMultiple);
  }

  lemma LeftAfterSlippage(move: real, spread: real, a: real, b: real, perShare: real, m: real, slip: real)
    requires a > 0.0 && b > 0.0 && spread >= 0.0 && perShare >= 0.0
    requires slip < 1.0 && m * (1.0 - slip) >= 1.0 && move >= m * (spread + a + b + perShare)
    ensures move * (1.0 - slip) - b > perShare
  {
    SlippedMove(move, spread + a + b + perShare, m, slip);
  }

  /** An economically viable trade pays at its target, although the exit slips the target price. */
  lemma ViableTradePaysAtTarget(
      gates: Gates, entry: real, stop: real, target: real, shares: nat, slip: real, fee: real, spread: Option<real>)
    requires LongTrade(entry, stop, target, shares, slip, fee, spread)
    requires Viable(gates, entry, stop, target, shares, slip, fee, spread)
    requires slip == 0.0 || gates.minTargetFrictionMultiple * (1.0 - slip) >= 1.0
    ensures SimulatedNet(entry, target, shares, slip, fee) > 0.0
  {
    if slip > 0.0 {
      hide Viable;
      PaysPerShare(gates, entry, stop, target, shares, slip, fee, spread);
      FeePerShare(fee, shares, target * (1.0 - slip) - entry);
    }
  }

  /** Otherwise the gate lets a trade pass that does not pay: its move is eaten up by the slipped exit. */
  function LosingStop(m: real, slip: real): real { (1.0 - m * (1.0 - slip)) / 2.0 }

  function LosingTarget(slip: real): real
    requires slip < 1.0
  {
    1.0 + slip / (1.0 - slip)
  }

  lemma LosingMove(m: real, slip: real)
    requires 0.0 < slip < 1.0 && 0.0 <= m && m * (1.0 - slip) < 1.0
    ensures var s, d := LosingStop(m, slip), slip / (1.0 - slip);
            && 0.0 < s <= 0.5 && d > 0.0
            && (1.0 + d) * (1.0 - slip) == 1.0
            && m * (s * slip + slip) <= d
  {
    var k := 1.0 - slip;
    var s, d, a := LosingStop(m, slip), slip / k, m * k;
    assert m * k >= 0.0;
    assert d * k == slip;
    assert (1.0 + d) * k == k + d * k;
    assert a * (1.0 + s) <= 1.0 by {
      assert a == 1.0 - 2.0 * s;
      assert (1.0 - 2.0 * s) * (1.0 + s) == 1.0 - s - 2.0 * s * s;
      assert s * s >= 0.0;
    }
    LosingMoveBound(m, slip, s, d, k);
  }

  lemma LosingMoveBound(m: real, slip: real, s: real, d: real, k: real)
    requires k > 0.0 && slip > 0.0 && d * k == slip && (m * k) * (1.0 + s) <= 1.0 && d > 0.0
    ensures m * (s * slip + slip) <= d
  {
    assert m * (s * slip + slip) == m * (1.0 + s) * (d * k);
    assert m * (1.0 + s) * (d * k) == ((m * k) * (1.0 + s)) * d;
    ProductAtLeast(d, 1.0, (m * k) * (1.0 + s));
  }

  lemma LosingTradeIsViable(m: real, slip: real)
    requires 0.0 < slip < 1.0 && 0.0 <= m && m * (1.0 - slip) < 1.0
    ensures var s, t := LosingStop(m, slip), LosingTarget(slip);
            && LongTrade(1.0, s, t, 1, slip, 0.0, None)
            && Viable(Gates(0.0, 0.0, m, 1.0), 1.0, s, t, 1, slip, 0.0, None)
            && SimulatedNet(1.0, t, 1, slip, 0.0) == 0.0
  {
    hide LosingStop;
    LosingMove(m, slip);
    var s, d := LosingStop(m, slip), slip / (1.0 - slip);
    var f := Friction(1.0, s, 1, slip, 0.0, None);
    assert f == s * slip + slip;
    assert s * slip > 0.0;
    QuotientAtLeast(d, f, m);
    assert 1.0 - s >= 0.0 && (1.0 - s) / f >= 0.0;
    assert s * (1.0 - slip) < s;
    var stopNet := StopNet(1.0, s, 1, slip, 0.0);
    assert stopNet == s * (1.0 - slip) - 1.0 < 0.0;
    assert d / -stopNet >= 0.0;
  }

  /** The gate's target multiple guarantees a paying target for all trades and all other settings of the
      gate exactly when there is no slippage or the multiple makes up for it. */
  lemma PaysAtTargetExactly(m: real, slip: real)
    requires 0.0 <= m && 0.0 <= slip < 1.0
    ensures (forall gates: Gates, entry, stop, target, shares, fee, spread ::
              gates.minTargetFrictionMultiple == m &&
              LongTrade(entry, stop, target, shares, slip, fee, spread) &&
              Viable(gates, entry, stop, target, shares, slip, fee, spread) ==>
              SimulatedNet(entry, target, shares, slip, fee) > 0.0)
            <==> slip == 0.0 || m * (1.0 - slip) >= 1.0
  {
    hide Viable, SimulatedNet, LosingStop, LosingTarget;
    if slip == 0.0 || m * (1.0 - slip) >= 1.0 {
      forall gates: Gates, entry, stop, target, shares, fee, spread |
        gates.minTargetFrictionMultiple == m &&
        LongTrade(entry, stop, target, shares, slip, fee, spread) &&
        Viable(gates, entry, stop, target, shares, slip, fee, spread)
        ensures SimulatedNet(entry, target, shares, slip, fee) > 0.0 {
        ViableTradePaysAtTarget(gates, entry, stop, target, shares, slip, fee, spread);
      }
    } else {
      LosingTradeIsViable(m, slip);
    }
  }

  // ------------------------------------------------------------------ monotonicity

  /** Larger gains over smaller costs still clear the gate. */
  lemma QuotientGrows(a: real, b: real, c: real, d: real, m: real)
    requires b > 0.0 && d > 0.0 && d <= b && a <= c && 0.0 <= m && 0.0 <= a && a / b >= m
    ensures c / d >= m
  {
    QuotientBound(a, b, m);
    ProductAtLeast(m, b, d);
    QuotientAtLeast(c, d, m);
  }

  lemma FrictionShrinks(entry: real, stop: real, shares: nat, slip: real, fee: real, lower: real,
                        spread: Option<real>, narrower: Option<real>)
    requires shares > 0 && 0.0 <= lower <= fee && SpreadOr0(narrower) <= SpreadOr0(spread)
    ensures Friction(entry, stop, shares, slip, lower, narrower) <= Friction(entry, stop, shares, slip, fee, spread)
  {
    assert lower / shares as real <= fee / shares as real;
  }

  predicate NoWider(narrower: Option<real>, spread: Option<real>) {
    narrower.None? || (spread.Some? && 0.0 <= narrower.value <= spread.value)
  }

  lemma StopNetNegative(entry: real, stop: real, shares: nat, slip: real, fee: real)
    requires 0.0 < stop < entry && 0 < shares && 0.0 <= slip < 1.0 && 0.0 <= fee
    ensures StopNet(entry, stop, shares, slip, fee) < 0.0
  {
    ProductAtLeast(stop, 1.0, 1.0 - slip);
    var loss := entry - stop * (1.0 - slip);
    assert loss * shares as real > 0.0;
    assert StopNet(entry, stop, shares, slip, fee) == -(loss * shares as real) - fee;
  }

  lemma TargetNetGrows(entry: real, target: real, higher: real, shares: nat, fee: real, lower: real)
    requires target <= higher && lower <= fee
    ensures TargetNet(entry, target, shares, fee) <= TargetNet(entry, higher, shares, lower)
  {
    ProductAtLeast(shares as real, higher - entry, target - entry);
  }

  /** Viability is monotone in the target and antitone in the fee and in the spread. */
  lemma ViabilityIsMonotone(
      gates: Gates, entry: real, stop: real, target: real, shares: nat, slip: real, fee: real, spread: Option<real>,
      higher: real, lower: real, narrower: Option<real>)
    requires LongTrade(entry, stop, target, shares, slip, fee, spread)
    requires Viable(gates, entry, stop, target, shares, slip, fee, spread)
    requires 0.0 <= gates.minNetRewardRisk
    requires 0.0 <= gates.minStopFrictionMultiple && 0.0 <= gates.minTargetFrictionMultiple
    requires target <= higher && 0.0 <= lower <= fee && NoWider(narrower, spread)
    ensures Viable(gates, entry, stop, higher, shares, slip, lower, narrower)
  {
    hide Friction, StopNet, TargetNet;
    var f, g := Friction(entry, stop, shares, slip, fee, spread), Friction(entry, stop, shares, slip, lower, narrower);
    FrictionShrinks(entry, stop, shares, slip, fee, lower, spread, narrower);
    TargetNetGrows(entry, target, higher, shares, fee, lower);
    StopNetNegative(entry, stop, shares, slip, fee);
    StopNetNegative(entry, stop, shares, slip, lower);
    StopNetGrows(entry, stop, shares, slip, fee, lower);
    if g > 0.0 {
      QuotientGrows(entry - stop, f, entry - stop, g, gates.minStopFrictionMultiple);
      QuotientGrows(target - entry, f, higher - entry, g, gates.minTargetFrictionMultiple);
    }
    QuotientGrows(TargetNet(entry, target, shares, fee), -StopNet(entry, stop, shares, slip, fee),
                  TargetNet(entry, higher, shares, lower), -StopNet(entry, stop, shares, slip, lower),
                  gates.minNetRewardRisk);
    SpreadShareShrinks(entry, spread, narrower);
  }

  lemma StopNetGrows(entry: real, stop: real, shares: nat, slip: real, fee: real, lower: real)
    requires lower <= fee
    ensures StopNet(entry, stop, shares, slip, fee) <= StopNet(entry, stop, shares, slip, lower)
  {
  }

  lemma SpreadShareShrinks(entry: real, spread: Option<real>, narrower: Option<real>)
    requires entry > 0.0 && NoWider(narrower, spread)
    ensures narrower.Some? ==> narrower.value / entry * 100.0 <= spread.value / entry * 100.0
  {
    if narrower.Some? {
      assert narrower.value / entry <= spread.value / entry;
    }
  }
}
