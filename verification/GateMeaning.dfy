/** What the entry gates let through, in prices, times and amounts (src/asm/engine/gates.py), and what size a
    decision asks for (src/asm/engine/sizing.py, src/asm/engine/decision.py). */
module GateMeaning {
  import opened Numeric
  import opened Domain
  import opened Gates
  import opened Decision

  // ---------------------------------------------------------------- the conditions

  predicate Trusted(t: Trader, cfg: CopyRules) {
    && (t.status == Probation || t.status == Active) && t.composite >= cfg.minTraderScore
    && t.confidence >= cfg.minConfidence && t.copyability >= cfg.minCopyability
  }

  /** The price moved against us by no more than so many percent of the source's. */
  predicate MovedAtMost(c: Signal, pct: real) {
    var room := Percent(c.sourcePrice, pct);
    if c.buying then PriceNow(c) <= c.sourcePrice + room else PriceNow(c) >= c.sourcePrice - room
  }

  predicate Priced(c: Signal) { c.sourcePrice > 0.0 && PriceNow(c) > 0.0 }

  predicate NotChased(c: Signal, cfg: CopyRules) {
    Priced(c) && (MovedAtMost(c, cfg.moveNormalPct) || MovedAtMost(c, cfg.moveAcceptablePct)
                  || MovedAtMost(c, cfg.moveReducedPct) || MovedAtMost(c, cfg.moveCautionPct))
  }

  /** More whole milliseconds than that since the source's trade confirmed. */
  predicate OlderThan(c: Signal, ms: int) {
    var span := c.decidedAt - c.confirmedAt;
    if ms >= 0 then span >= (ms + 1) * 1000 else span > ms * 1000
  }

  predicate Fresh(c: Signal, cfg: CopyRules) {
    && !OlderThan(c, cfg.maxDetectionAgeMs)
    && match c.trader.latencyToleranceMs case None => true case Some(tol) => tol == 0 || !OlderThan(c, tol)
  }

  predicate Liquid(c: Signal, cfg: CopyRules, intended: real) {
    && c.market.liquidityUsd > 0.0 && c.market.liquidityUsd >= cfg.minLiquidityUsd
    && (intended <= LiquidityRoom(c, cfg) || cfg.minPositionUsd <= LiquidityRoom(c, cfg))
  }

  /** The edge the trader is expected to have. */
  function EdgePct(t: Trader): real {
    match t.expectedEdgePct case None => 15.0 case Some(edge) => if edge == 0.0 then 15.0 else edge
  }

  /** What is left of the edge after the move exceeds impact, fees and margin. */
  predicate WorthIt(c: Signal, cfg: CopyRules) {
    && c.impactPct.Some? && c.impactPct.value <= cfg.maxSlippagePct
    && var left := EdgePct(c.trader) - c.impactPct.value - 0.35 - cfg.safetyMarginPct;
       && left > 0.0
       && (c.sourcePrice != 0.0 ==> (PriceNow(c) - c.sourcePrice) / c.sourcePrice * 100.0 < left)
  }

  predicate RightCap(c: Signal, cfg: CopyRules) {
    c.market.marketCapUsd <= 0.0 || cfg.minMarketCapUsd <= c.market.marketCapUsd <= cfg.maxMarketCapUsd
  }

  predicate OldEnough(c: Signal, cfg: CopyRules) {
    match c.market.tokenAgeSeconds case None => true case Some(age) => age >= cfg.minTokenAge
  }

  predicate Safe(c: Signal, cfg: CopyRules) {
    match c.risk
    case None => false
    case Some(r) => !r.unknown && !r.honeypot && r.score <= cfg.maxTokenRisk && !r.flagged
  }

  predicate Acceptable(c: Signal, cfg: CopyRules, intended: real) {
    && Trusted(c.trader, cfg) && NotChased(c, cfg) && Fresh(c, cfg) && Liquid(c, cfg, intended) && WorthIt(c, cfg)
    && RightCap(c, cfg) && OldEnough(c, cfg) && Safe(c, cfg)
  }

  // ---------------------------------------------------------------- the multipliers

  function ChaseShare(c: Signal, cfg: CopyRules): real {
    if MovedAtMost(c, cfg.moveNormalPct) || MovedAtMost(c, cfg.moveAcceptablePct) then 1.0
    else if MovedAtMost(c, cfg.moveReducedPct) then cfg.moveReducedMult
    else cfg.moveCautionMult
  }

  /** Six tenths once more than six tenths of the tolerance are used up. */
  function AgeShare(c: Signal): real {
    match c.trader.latencyToleranceMs
    case None => 1.0
    case Some(tol) => if tol != 0 && 10.0 * AgeMs(c) as real > 6.0 * tol as real then 0.6 else 1.0
  }

  function BookShare(c: Signal, cfg: CopyRules, intended: real): real
    requires intended > 0.0
  {
    if intended <= LiquidityRoom(c, cfg) then 1.0 else LiquidityRoom(c, cfg) / intended
  }

  function NewShare(c: Signal, cfg: CopyRules): real {
    match c.market.tokenAgeSeconds case None => 1.0
    case Some(age) => if age < cfg.newTokenAge then cfg.newTokenMult else 1.0
  }

  function BonusShare(c: Signal): real { if c.confirmations >= 2 then 1.25 else 1.0 }

  // ---------------------------------------------------------------- gate by gate

  lemma MovedMeans(c: Signal, pct: real)
    requires Priced(c)
    ensures var move := PctChange(c.sourcePrice, PriceNow(c));
            (if c.buying then move else -move) <= pct <==> MovedAtMost(c, pct)
  {
    var base, now := c.sourcePrice, PriceNow(c);
    var share, limit := (now - base) / base, pct / 100.0;
    Quotient(now - base, base);
    assert limit * base == Percent(base, pct) && -limit * base == -Percent(base, pct);
    if share < limit { MulLess(share, limit, base); }
    if share > limit { MulLess(limit, share, base); }
    if share < -limit { MulLess(share, -limit, base); }
    if share > -limit { MulLess(-limit, share, base); }
  }

  lemma ChaseMeans(c: Signal, cfg: CopyRules)
    ensures PriceChaseGate(c, cfg).Pass? <==> NotChased(c, cfg)
    ensures NotChased(c, cfg) ==> PriceChaseGate(c, cfg) == Pass(ChaseShare(c, cfg))
  {
    if Priced(c) {
      MovedMeans(c, cfg.moveNormalPct);
      MovedMeans(c, cfg.moveAcceptablePct);
      MovedMeans(c, cfg.moveReducedPct);
      MovedMeans(c, cfg.moveCautionPct);
    }
  }

  lemma OlderMeans(c: Signal, ms: int)
    ensures AgeMs(c) > ms <==> OlderThan(c, ms)
  {
    var span := c.decidedAt - c.confirmedAt;
    var x := span as real / 1000.0;
    if span >= 0 {
      assert x.Floor as real <= x < x.Floor as real + 1.0;
    } else {
      assert (-x).Floor as real <= -x < (-x).Floor as real + 1.0;
    }
  }

  lemma LatencyMeans(c: Signal, cfg: CopyRules)
    ensures LatencyGate(c, cfg).Pass? <==> Fresh(c, cfg)
    ensures Fresh(c, cfg) ==> LatencyGate(c, cfg) == Pass(AgeShare(c))
  {
    OlderMeans(c, cfg.maxDetectionAgeMs);
    match c.trader.latencyToleranceMs
    case None =>
    case Some(tol) => OlderMeans(c, tol);
  }

  lemma LiquidityMeans(c: Signal, cfg: CopyRules, intended: real)
    requires intended > 0.0
    ensures LiquidityGate(c, cfg, intended).Pass? <==> Liquid(c, cfg, intended)
    ensures Liquid(c, cfg, intended) ==> LiquidityGate(c, cfg, intended) == Pass(BookShare(c, cfg, intended))
  {
    if c.market.liquidityUsd > 0.0 { ShareIsRoom(c, cfg, intended); }
  }

  lemma SlippageMeans(c: Signal, cfg: CopyRules)
    ensures SlippageGate(c, cfg) == Pass(1.0) || SlippageGate(c, cfg).Fail?
    ensures SlippageGate(c, cfg).Pass? <==> WorthIt(c, cfg)
  {
  }

  /** The room is that percentage of the book. */
  lemma RoomMeans(c: Signal, cfg: CopyRules)
    ensures 100.0 * LiquidityRoom(c, cfg) == c.market.liquidityUsd * cfg.maxPctOfLiquidity
  {
  }

  // ---------------------------------------------------------------- the sweep

  function Shares(c: Signal, cfg: CopyRules): seq<real> {
    [c.trader.sizeMultiplier, ChaseShare(c, cfg), AgeShare(c), 1.0, NewShare(c, cfg), 1.0, 1.0, BonusShare(c)]
  }

  /** The product of a list, from the left. */
  function Product(xs: seq<real>): real {
    if xs == [] then 1.0 else Scaled(Product(xs[..|xs| - 1]), xs[|xs| - 1])
  }

  lemma {:induction false} MultiplierIsProduct(results: seq<GateResult>, xs: seq<real>)
    requires |results| == |xs| && forall i :: 0 <= i < |xs| ==> results[i] == Pass(xs[i])
    ensures AllPass(results) && Multiplier(results) == Product(xs)
  {
    if xs != [] { MultiplierIsProduct(results[..|xs| - 1], xs[..|xs| - 1]); }
  }

  lemma EachGateMeans(c: Signal, cfg: CopyRules, intended: real)
    requires intended > 0.0
    ensures AllPass(EntryGates(c, cfg, intended)) <==> Acceptable(c, cfg, intended)
    ensures Acceptable(c, cfg, intended) ==>
              forall i :: 0 <= i < 9 ==>
                EntryGates(c, cfg, intended)[i] == Pass((Shares(c, cfg) + [BookShare(c, cfg, intended)])[i])
  {
    ChaseMeans(c, cfg);
    LatencyMeans(c, cfg);
    LiquidityMeans(c, cfg, intended);
    SlippageMeans(c, cfg);
    var gates := EntryGates(c, cfg, intended);
    assert gates[0] == TraderGate(c, cfg) && gates[1] == PriceChaseGate(c, cfg) && gates[2] == LatencyGate(c, cfg);
    assert gates[3] == MarketCapGate(c, cfg) && gates[4] == TokenAgeGate(c, cfg) && gates[5] == TokenSafetyGate(c, cfg);
    assert gates[6] == SlippageGate(c, cfg) && gates[7] == ConfirmationGate(c);
    assert gates[8] == LiquidityGate(c, cfg, intended);
  }

  /** The sweep passes exactly the acceptable signals, and its multiplier is the product of the shares. */
  lemma SweepMeans(c: Signal, cfg: CopyRules, intended: real)
    requires intended > 0.0
    ensures AllPass(EntryGates(c, cfg, intended)) <==> Acceptable(c, cfg, intended)
    ensures Acceptable(c, cfg, intended) ==>
              Multiplier(EntryGates(c, cfg, intended)) == Product(Shares(c, cfg) + [BookShare(c, cfg, intended)])
  {
    EachGateMeans(c, cfg, intended);
    if Acceptable(c, cfg, intended) {
      MultiplierIsProduct(EntryGates(c, cfg, intended), Shares(c, cfg) + [BookShare(c, cfg, intended)]);
    }
  }

  // ---------------------------------------------------------------- the base

  /** The score as a share, a fifth at least and the whole at most. */
  predicate IsWeight(w: real, score: real) {
    if score < 20.0 then w == 0.2 else if score > 100.0 then w == 1.0 else 100.0 * w == score
  }

  /** `size` relates to the normal one as the trade does to the trader's usual one, a quarter at least and three times
      at most. */
  predicate IsProportional(size: real, normal: real, traded: real, usual: real) {
    if usual <= 0.0 then size == normal
    else if 4.0 * traded < usual then 4.0 * size == normal
    else if traded > 3.0 * usual then size == 3.0 * normal
    else size * usual == normal * traded
  }

  function Usual(t: Trader, traded: real): real {
    match t.avgTradeUsd case None => traded case Some(usual) => if usual == 0.0 then traded else usual
  }

  /** A quarter of what the bet is worth by Kelly's formula, win rate less loss rate over the odds; nothing for a bet
      that is not worth it, and the position cap at most. */
  predicate IsKelly(fraction: real, winRatePct: real, winPct: real, lossPct: real, maxPct: real)
    requires lossPct > 0.0 && winPct != 0.0
  {
    var win := winRatePct / 100.0;
    var odds := winPct / lossPct;
    var quarter := (win - (1.0 - win) / odds) / 4.0;
    if quarter > maxPct / 100.0 then fraction == Max(0.0, maxPct / 100.0) else fraction == Max(0.0, quarter)
  }

  lemma WeightMeans(score: real)
    ensures IsWeight(Weight(score), score)
  {
  }

  lemma ClampedRatio(normal: real, traded: real, usual: real, ratio: real)
    requires usual > 0.0 && ratio * usual == traded
    ensures IsProportional(Scaled(normal, Clamp(ratio, 0.25, 3.0)), normal, traded, usual)
  {
    if ratio < 0.25 {
      MulLess(ratio, 0.25, usual);
    } else if ratio > 3.0 {
      MulMono(usual, 0.25, ratio);
      MulLess(3.0, ratio, usual);
    } else {
      MulMono(usual, 0.25, ratio);
      MulMono(usual, ratio, 3.0);
      assert normal * ratio * usual == normal * (ratio * usual);
    }
  }

  lemma ProportionMeans(t: Trader, traded: real, normal: real)
    ensures IsProportional(Scaled(normal, Conviction(t, traded)), normal, traded, Usual(t, traded))
  {
    var usual := Usual(t, traded);
    if usual > 0.0 {
      Quotient(traded, usual);
      ClampedRatio(normal, traded, usual, traded / usual);
    }
  }

  lemma KellyMeans(t: Trader, cfg: SizeRules)
    requires t.avgLossPct > 0.0 && t.avgWinPct != 0.0 && t.winRate.Some?
    ensures IsKelly(KellyFraction(t, cfg), t.winRate.value, t.avgWinPct, t.avgLossPct, cfg.maxPct)
  {
    var win, odds := WinRate(t), (t.avgWinPct / 100.0) / (t.avgLossPct / 100.0);
    assert odds == t.avgWinPct / t.avgLossPct;
    assert odds != 0.0;
    assert (odds * win - (1.0 - win)) / odds == win - (1.0 - win) / odds;
  }

  /** The size before any gate, mode by mode. */
  lemma BaseMeans(t: Trader, traded: real, p: Portfolio, mode: SizingMode, cfg: SizeRules)
    ensures p.equity <= 0.0 ==> TraderSize(t, traded, p, mode, cfg) == Some(0.0)
    ensures p.equity > 0.0 && mode == Fixed ==> TraderSize(t, traded, p, mode, cfg) == Some(5.0 * cfg.minPositionUsd)
    ensures p.equity > 0.0 && mode == PortfolioPct ==>
              TraderSize(t, traded, p, mode, cfg) == Some(Percent(p.equity, cfg.basePct))
    ensures p.equity > 0.0 && mode == SourceProportional ==>
              var size := TraderSize(t, traded, p, mode, cfg);
              size.Some? && IsProportional(size.value, Percent(p.equity, cfg.basePct), traded, Usual(t, traded))
  {
    if mode == SourceProportional { ProportionMeans(t, traded, Percent(p.equity, cfg.basePct)); }
  }

  lemma ConfidenceMeans(t: Trader, traded: real, p: Portfolio, cfg: SizeRules)
    requires p.equity > 0.0
    ensures var normal := Percent(p.equity, cfg.basePct);
            var a, b, c := Weight(t.composite), Weight(t.confidence), Weight(t.copyability);
            && IsWeight(a, t.composite) && IsWeight(b, t.confidence) && IsWeight(c, t.copyability)
            && TraderSize(t, traded, p, ConfidenceWeighted, cfg) == Some(Scaled(Scaled(Scaled(normal, a), b), c))
  {
    WeightMeans(t.composite);
    WeightMeans(t.confidence);
    WeightMeans(t.copyability);
  }

  // ---------------------------------------------------------------- the decision

  /** An amount as it is asked for: within the cap and free cash, in cents, and nothing below the minimum. */
  predicate IsAsked(size: real, amount: real, p: Portfolio, cfg: SizeRules) {
    var most := Min(Percent(p.equity, cfg.maxPct), p.cash);
    var cut := if amount <= most then amount else most;
    if cut < cfg.minPositionUsd then size == 0.0
    else -0.005 <= size - cut <= 0.005 && (size * 100.0).Floor as real == size * 100.0
  }

  lemma AskedMeans(base: real, multiplier: real, p: Portfolio, cfg: SizeRules)
    ensures IsAsked(FinalSize(base, multiplier, p, cfg), Scaled(base, multiplier), p, cfg)
  {
    RoundedMeans(Scaled(base, multiplier), p, cfg);
  }

  lemma RoundedMeans(amount: real, p: Portfolio, cfg: SizeRules)
    ensures IsAsked(Rounded(Capped(amount, p, cfg), cfg), amount, p, cfg)
  {
    CentsMean(Capped(amount, p, cfg));
  }

  lemma CentsMean(x: real)
    ensures -0.005 <= Cents(x) - x <= 0.005 && (Cents(x) * 100.0).Floor as real == Cents(x) * 100.0
  {
    CentsNear(x);
    var k := RoundHalfEven(x * 100.0);
    assert Cents(x) * 100.0 == k as real;
  }

  /** What the code looks up before it sizes, and the base it sizes from. */
  predicate Ready(c: Signal, p: Portfolio, mode: SizingMode, cfg: SizeRules) {
    && c.buying && !c.market.stale && c.market.priceUsd > 0.0 && c.solPriceUsd > 0.0
    && BaseSize(c, p, mode, cfg).Some? && FinalSize(BaseSize(c, p, mode, cfg).value, 1.0, p, cfg) > 0.0
  }

  /** Where the code stops early, the sweep would have failed. */
  lemma ReadyPlan(c: Signal, p: Portfolio, mode: SizingMode, gates: CopyRules, cfg: SizeRules, base: real,
                  provisional: real)
    requires Ready(c, p, mode, cfg) && BaseSize(c, p, mode, cfg) == Some(base)
    requires provisional == FinalSize(base, 1.0, p, cfg)
    ensures var plan := PlanEntry(c, p, mode, gates, cfg);
            var sweep := Decision.Sweep(EntryGates(c, gates, provisional), base, p, cfg);
            (plan.Ask? <==> sweep.Ask?) && (plan.Ask? ==> plan == sweep)
  {
    var results := EntryGates(c, gates, provisional);
    assert results[0] == TraderGate(c, gates) && results[6] == SlippageGate(c, gates);
  }

  /** What is asked for from a base, when a signal is ready: exactly when it is acceptable at its provisional size and
      the base times the product of its shares leaves something, and then that amount. */
  ghost predicate AsksFor(plan: Plan, c: Signal, gates: CopyRules, base: real, provisional: real, p: Portfolio,
                          cfg: SizeRules)
    requires provisional > 0.0
  {
    var product := Product(Shares(c, gates) + [BookShare(c, gates, provisional)]);
    && (plan.Ask? <==> Acceptable(c, gates, provisional) && FinalSize(base, product, p, cfg) > 0.0)
    && (plan.Ask? ==> plan.multiplier == product && IsAsked(plan.size, Scaled(base, product), p, cfg))
  }

  lemma SweepAsksFor(c: Signal, gates: CopyRules, base: real, provisional: real, p: Portfolio, cfg: SizeRules)
    requires provisional > 0.0
    ensures var plan := Decision.Sweep(EntryGates(c, gates, provisional), base, p, cfg);
            AsksFor(plan, c, gates, base, provisional, p, cfg)
  {
    var results := EntryGates(c, gates, provisional);
    SweepMeans(c, gates, provisional);
    SweepWith(results, base, p, cfg);
  }

  lemma SweepWith(results: seq<GateResult>, base: real, p: Portfolio, cfg: SizeRules)
    ensures var plan, product := Decision.Sweep(results, base, p, cfg), Multiplier(results);
            && (plan.Ask? <==> AllPass(results) && FinalSize(base, product, p, cfg) > 0.0)
            && (plan.Ask? ==> plan.multiplier == product && IsAsked(plan.size, Scaled(base, product), p, cfg))
  {
    AskedMeans(base, Multiplier(results), p, cfg);
  }

  /** Exactly when a decision asks for a size, and for which. */
  lemma AsksExactlyWhen(c: Signal, p: Portfolio, mode: SizingMode, gates: CopyRules, cfg: SizeRules)
    ensures var plan := PlanEntry(c, p, mode, gates, cfg);
            && (!Ready(c, p, mode, cfg) ==> !plan.Ask?)
            && (Ready(c, p, mode, cfg) ==>
                  var base := BaseSize(c, p, mode, cfg).value;
                  AsksFor(plan, c, gates, base, FinalSize(base, 1.0, p, cfg), p, cfg))
  {
    if Ready(c, p, mode, cfg) {
      var base := BaseSize(c, p, mode, cfg).value;
      ReadyPlan(c, p, mode, gates, cfg, base, FinalSize(base, 1.0, p, cfg));
      SweepAsksFor(c, gates, base, FinalSize(base, 1.0, p, cfg), p, cfg);
    }
  }
}
