/** The entry gates (src/asm/engine/gates.py): each looks at one risk of copying a trade and either
    rejects it or passes it with a size multiplier. Here they are proved monotone: nothing about a
    candidate can get worse and make a gate kinder. */
module Gates {
  import opened Numeric
  import opened Domain

  datatype Trader = Trader(
    status: TraderStatus, composite: real, confidence: real, copyability: real, sizeMultiplier: real,
    latencyToleranceMs: Option<int>, expectedEdgePct: Option<real>,
    avgTradeUsd: Option<real>, winRate: Option<real>, tradeCount: int, avgWinPct: real, avgLossPct: real)

  datatype Market = Market(price: real, priceUsd: real, liquidityUsd: real, marketCapUsd: real,
                           tokenAgeSeconds: Option<int>, stale: bool)

  datatype TokenRisk = TokenRisk(unknown: bool, honeypot: bool, score: int, flagged: bool)

  /** A source trade with everything looked up about it; `impactPct` is the quote's, if there is a route. */
  datatype Signal = Signal(
    trader: Trader, buying: bool, sourcePrice: real, quotedInSol: bool, sourceValueUsd: real,
    confirmedAt: Time, decidedAt: Time, market: Market, risk: Option<TokenRisk>,
    impactPct: Option<real>, solPriceUsd: real, confirmations: nat)

  datatype CopyRules = CopyRules(
    minTraderScore: real, minConfidence: real, minCopyability: real,
    moveNormalPct: real, moveAcceptablePct: real, moveReducedPct: real, moveCautionPct: real,
    moveReducedMult: real, moveCautionMult: real,
    maxDetectionAgeMs: int, minLiquidityUsd: real, maxPctOfLiquidity: real,
    maxSlippagePct: real, safetyMarginPct: real, minMarketCapUsd: real, maxMarketCapUsd: real,
    minTokenAge: int, newTokenAge: int, newTokenMult: real, maxTokenRisk: int, minPositionUsd: real)

  datatype Fault =
    | TraderNotFollowed | ScoreTooLow | ConfidenceTooLow | CopyabilityTooLow | DataUnavailable
    | PriceMovedTooFar | SignalTooOld | BeyondTolerance | LowLiquidity | TooLargeForLiquidity
    | NoRoute | SlippageTooHigh | AlphaBelowCost | CapTooLow | CapTooHigh | TokenTooNew
    | TokenRiskTooHigh | InsiderPattern

  datatype GateResult = Pass(mult: real) | Fail(fault: Fault)

  function PctChange(before: real, after: real): real {
    if before == 0.0 then 0.0 else (after - before) / before * 100.0
  }

  /** The price compared with the source's, in the source's own quote currency. */
  function PriceNow(c: Signal): real { if c.quotedInSol then c.market.price else c.market.priceUsd }

  function TraderGate(c: Signal, cfg: CopyRules): GateResult {
    var t := c.trader;
    if !Followed(t.status) then Fail(TraderNotFollowed)
    else if t.composite < cfg.minTraderScore then Fail(ScoreTooLow)
    else if t.confidence < cfg.minConfidence then Fail(ConfidenceTooLow)
    else if t.copyability < cfg.minCopyability then Fail(CopyabilityTooLow)
    else Pass(t.sizeMultiplier)
  }

  function PriceChaseGate(c: Signal, cfg: CopyRules): GateResult {
    if c.sourcePrice <= 0.0 || PriceNow(c) <= 0.0 then Fail(DataUnavailable)
    else
      var move := PctChange(c.sourcePrice, PriceNow(c));
      var adverse := if c.buying then move else -move;
      if adverse <= cfg.moveNormalPct then Pass(1.0)
      else if adverse <= cfg.moveAcceptablePct then Pass(1.0)
      else if adverse <= cfg.moveReducedPct then Pass(cfg.moveReducedMult)
      else if adverse <= cfg.moveCautionPct then Pass(cfg.moveCautionMult)
      else Fail(PriceMovedTooFar)
  }

  /** int(seconds * 1000) */
  function AgeMs(c: Signal): int { Trunc((c.decidedAt - c.confirmedAt) as real / 1000.0) }

  function LatencyGate(c: Signal, cfg: CopyRules): GateResult {
    var age := AgeMs(c);
    if age > cfg.maxDetectionAgeMs then Fail(SignalTooOld)
    else match c.trader.latencyToleranceMs
      case None => Pass(1.0)
      case Some(tol) =>
        if tol != 0 && age > tol then Fail(BeyondTolerance)
        else if tol != 0 && age as real > tol as real * 0.6 then Pass(0.6)
        else Pass(1.0)
  }

  /** The most the book lets in. */
  function LiquidityRoom(c: Signal, cfg: CopyRules): real { c.market.liquidityUsd * cfg.maxPctOfLiquidity / 100.0 }

  function LiquidityGate(c: Signal, cfg: CopyRules, intended: real): GateResult
    requires intended > 0.0
  {
    if c.market.liquidityUsd <= 0.0 then Fail(LowLiquidity)
    else if c.market.liquidityUsd < cfg.minLiquidityUsd then Fail(LowLiquidity)
    else if intended / c.market.liquidityUsd * 100.0 > cfg.maxPctOfLiquidity then
      if LiquidityRoom(c, cfg) < cfg.minPositionUsd then Fail(TooLargeForLiquidity)
      else Pass(LiquidityRoom(c, cfg) / intended)
    else Pass(1.0)
  }

  const FEE_PCT := 0.35

  function SlippageGate(c: Signal, cfg: CopyRules): GateResult {
    if c.impactPct.None? then Fail(NoRoute)
    else if c.impactPct.value > cfg.maxSlippagePct then Fail(SlippageTooHigh)
    else
      var edge := if c.trader.expectedEdgePct.Some? && c.trader.expectedEdgePct.value != 0.0
                  then c.trader.expectedEdgePct.value else 15.0;
      var alpha := edge - Max(0.0, PctChange(c.sourcePrice, PriceNow(c)));
      if alpha <= c.impactPct.value + FEE_PCT + cfg.safetyMarginPct then Fail(AlphaBelowCost) else Pass(1.0)
  }

  function MarketCapGate(c: Signal, cfg: CopyRules): GateResult {
    var cap := c.market.marketCapUsd;
    if cap <= 0.0 then Pass(1.0)
    else if cap < cfg.minMarketCapUsd then Fail(CapTooLow)
    else if cap > cfg.maxMarketCapUsd then Fail(CapTooHigh)
    else Pass(1.0)
  }

  function TokenAgeGate(c: Signal, cfg: CopyRules): GateResult {
    match c.market.tokenAgeSeconds
    case None => Pass(1.0)
    case Some(age) =>
      if age < cfg.minTokenAge then Fail(TokenTooNew)
      else if age < cfg.newTokenAge then Pass(cfg.newTokenMult)
      else Pass(1.0)
  }

  function TokenSafetyGate(c: Signal, cfg: CopyRules): GateResult {
    if c.risk.None? || c.risk.value.unknown then Fail(DataUnavailable)
    else if c.risk.value.honeypot then Fail(TokenRiskTooHigh)
    else if c.risk.value.score > cfg.maxTokenRisk then Fail(TokenRiskTooHigh)
    else if c.risk.value.flagged then Fail(InsiderPattern)
    else Pass(1.0)
  }

  function ConfirmationGate(c: Signal): GateResult { Pass(if c.confirmations >= 2 then 1.25 else 1.0) }

  /** The gates that need no size. */
  function SignalGates(c: Signal, cfg: CopyRules): seq<GateResult> {
    [TraderGate(c, cfg), PriceChaseGate(c, cfg), LatencyGate(c, cfg), MarketCapGate(c, cfg), TokenAgeGate(c, cfg),
     TokenSafetyGate(c, cfg), SlippageGate(c, cfg), ConfirmationGate(c)]
  }

  /** Every gate runs, whatever the earlier ones said. */
  function EntryGates(c: Signal, cfg: CopyRules, intended: real): seq<GateResult>
    requires intended > 0.0
  {
    SignalGates(c, cfg) + [LiquidityGate(c, cfg, intended)]
  }

  predicate AllPass(results: seq<GateResult>) { forall i :: 0 <= i < |results| ==> results[i].Pass? }

  /** The product of the multipliers of the gates that passed. */
  function Multiplier(results: seq<GateResult>): real {
    if results == [] then 1.0
    else
      var r := results[|results| - 1];
      Scaled(Multiplier(results[..|results| - 1]), if r.Pass? then r.mult else 1.0)
  }

  // ---------------------------------------------------------------- monotonicity

  /** Multipliers shrink step by step as the price runs away, and none is negative. */
  predicate SaneGates(cfg: CopyRules, t: Trader) {
    && 0.0 <= cfg.moveCautionMult <= cfg.moveReducedMult <= 1.0
    && 0.0 <= cfg.newTokenMult <= 1.0
    && cfg.maxPctOfLiquidity >= 0.0 && t.sizeMultiplier >= 0.0
  }

  /** `d` is the same buy signal in worse circumstances: the price has run further, the signal is older,
      the impact larger, the liquidity thinner, the token younger. */
  ghost predicate Worse(c: Signal, d: Signal) {
    && c.buying && c.sourcePrice > 0.0
    && d == c.(decidedAt := d.decidedAt, impactPct := d.impactPct, risk := d.risk,
               market := c.market.(price := d.market.price, priceUsd := d.market.priceUsd,
                                   liquidityUsd := d.market.liquidityUsd,
                                   tokenAgeSeconds := d.market.tokenAgeSeconds, stale := d.market.stale))
    && 0.0 < c.market.price <= d.market.price && 0.0 < c.market.priceUsd <= d.market.priceUsd
    && c.decidedAt <= d.decidedAt
    && d.market.liquidityUsd <= c.market.liquidityUsd
    && (c.market.stale ==> d.market.stale)
    && (d.impactPct.Some? ==> c.impactPct.Some? && c.impactPct.value <= d.impactPct.value)
    && (c.market.tokenAgeSeconds.None? <==> d.market.tokenAgeSeconds.None?)
    && (c.market.tokenAgeSeconds.Some? ==> d.market.tokenAgeSeconds.value <= c.market.tokenAgeSeconds.value)
    && (d.risk == c.risk || (d.risk.Some? && d.risk.value.flagged))
  }

  predicate NoKinder(worse: GateResult, better: GateResult) {
    worse.Pass? ==> better.Pass? && 0.0 <= worse.mult <= better.mult
  }

  lemma PctChangeMonotone(base: real, x: real, y: real)
    requires base > 0.0 && x <= y
    ensures PctChange(base, x) <= PctChange(base, y)
  {
    assert (x - base) / base <= (y - base) / base;
  }

  lemma TruncMonotone(x: real, y: real)
    requires x <= y
    ensures Trunc(x) <= Trunc(y)
  {
  }

  lemma PriceGatesMonotone(c: Signal, d: Signal, cfg: CopyRules)
    requires Worse(c, d) && SaneGates(cfg, c.trader)
    ensures NoKinder(PriceChaseGate(d, cfg), PriceChaseGate(c, cfg))
    ensures NoKinder(SlippageGate(d, cfg), SlippageGate(c, cfg))
  {
    PctChangeMonotone(c.sourcePrice, PriceNow(c), PriceNow(d));
  }

  lemma LatencyMonotone(c: Signal, d: Signal, cfg: CopyRules)
    requires Worse(c, d)
    ensures NoKinder(LatencyGate(d, cfg), LatencyGate(c, cfg))
  {
    TruncMonotone((c.decidedAt - c.confirmedAt) as real / 1000.0, (d.decidedAt - d.confirmedAt) as real / 1000.0);
  }

  /** The gate's percentage test is the same as comparing with the room in the book. */
  lemma ShareIsRoom(c: Signal, cfg: CopyRules, intended: real)
    requires c.market.liquidityUsd > 0.0
    ensures intended / c.market.liquidityUsd * 100.0 > cfg.maxPctOfLiquidity <==> intended > LiquidityRoom(c, cfg)
  {
    var liquidity := c.market.liquidityUsd;
    var share, limit := intended / liquidity, cfg.maxPctOfLiquidity / 100.0;
    assert share * liquidity == intended;
    assert LiquidityRoom(c, cfg) == limit * liquidity;
    if share > limit { MulLess(limit, share, liquidity); } else { MulMono(liquidity, share, limit); }
  }

  lemma LiquidityMonotone(c: Signal, d: Signal, cfg: CopyRules, intended: real)
    requires Worse(c, d) && SaneGates(cfg, c.trader) && intended > 0.0
    ensures NoKinder(LiquidityGate(d, cfg, intended), LiquidityGate(c, cfg, intended))
  {
    if d.market.liquidityUsd > 0.0 {
      ShareIsRoom(c, cfg, intended);
      ShareIsRoom(d, cfg, intended);
      MulMono(cfg.maxPctOfLiquidity, 0.0, d.market.liquidityUsd);
      MulMono(cfg.maxPctOfLiquidity, d.market.liquidityUsd, c.market.liquidityUsd);
      var small, large := LiquidityRoom(d, cfg), LiquidityRoom(c, cfg);
      assert 0.0 <= small <= large;
      QuotientMonotone(small, large, intended);
      if small <= intended { QuotientMonotone(small, intended, intended); }
    }
  }

  lemma QuotientMonotone(x: real, y: real, k: real)
    requires k > 0.0 && 0.0 <= x <= y
    ensures 0.0 <= x / k <= y / k
  {
  }

  ghost predicate AllNoKinder(worse: seq<GateResult>, better: seq<GateResult>) {
    |worse| == |better| && forall i :: 0 <= i < |worse| ==> NoKinder(worse[i], better[i])
  }

  lemma GatesMonotone(c: Signal, d: Signal, cfg: CopyRules, intended: real)
    requires Worse(c, d) && SaneGates(cfg, c.trader) && intended > 0.0
    ensures AllNoKinder(EntryGates(d, cfg, intended), EntryGates(c, cfg, intended))
  {
    PriceGatesMonotone(c, d, cfg);
    LatencyMonotone(c, d, cfg);
    LiquidityMonotone(c, d, cfg, intended);
    assert NoKinder(TokenAgeGate(d, cfg), TokenAgeGate(c, cfg));
    assert NoKinder(TokenSafetyGate(d, cfg), TokenSafetyGate(c, cfg));
    assert NoKinder(MarketCapGate(d, cfg), MarketCapGate(c, cfg));
    assert NoKinder(TraderGate(d, cfg), TraderGate(c, cfg));
    assert NoKinder(ConfirmationGate(d), ConfirmationGate(c));
  }

  lemma {:induction false} MultiplierMonotone(worse: seq<GateResult>, better: seq<GateResult>)
    requires AllNoKinder(worse, better) && AllPass(worse)
    ensures AllPass(better) && 0.0 <= Multiplier(worse) <= Multiplier(better)
  {
    if worse != [] {
      var n := |worse| - 1;
      MultiplierMonotone(worse[..n], better[..n]);
      assert NoKinder(worse[n], better[n]);
      ScaledOrder(Multiplier(worse[..n]), Multiplier(better[..n]), worse[n].mult, better[n].mult);
      forall i | 0 <= i < |better| ensures better[i].Pass? {
        assert i < n ==> better[..n][i] == better[i];
      }
    }
  }

  /** In worse circumstances the sweep rejects, or it passed before with at least the multiplier. */
  lemma SweepMonotone(c: Signal, d: Signal, cfg: CopyRules, intended: real)
    requires Worse(c, d) && SaneGates(cfg, c.trader) && intended > 0.0
    requires AllPass(EntryGates(d, cfg, intended))
    ensures AllPass(EntryGates(c, cfg, intended))
    ensures 0.0 <= Multiplier(EntryGates(d, cfg, intended)) <= Multiplier(EntryGates(c, cfg, intended))
  {
    GatesMonotone(c, d, cfg, intended);
    MultiplierMonotone(EntryGates(d, cfg, intended), EntryGates(c, cfg, intended));
  }
}
