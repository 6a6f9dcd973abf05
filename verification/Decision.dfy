/** Sizing and the decision (src/asm/engine/sizing.py, src/asm/engine/decision.py): a signal that
    survives the gates gets a size, and only then the ledger is asked to reserve it. */
module Decision {
  import opened Numeric
  import opened Domain
  import opened Ledger
  import opened Gates
  import LB = LedgerBook
  import LL = LedgerLimits

  datatype SizingMode = Fixed | PortfolioPct | SourceProportional | ConfidenceWeighted | Kelly

  datatype SizeRules = SizeRules(basePct: real, maxPct: real, minPositionUsd: real)

  datatype Portfolio = Portfolio(equity: real, cash: real)

  function Snapshot(s: Ledger): Portfolio { Portfolio(s.cash + s.deployed + s.unrealized, s.cash) }

  function WinRate(t: Trader): real { (match t.winRate case None => 0.0 case Some(w) => w) / 100.0 }

  /** A quarter of the Kelly fraction, between nothing and the position cap. */
  function KellyFraction(t: Trader, cfg: SizeRules): (f: real)
    ensures f >= 0.0
  {
    if t.avgLossPct <= 0.0 || t.avgWinPct == 0.0 then 0.0
    else
      var b := (t.avgWinPct / 100.0) / (t.avgLossPct / 100.0);
      if b == 0.0 then 0.0
      else Clamp((b * WinRate(t) - (1.0 - WinRate(t))) / b * 0.25, 0.0, cfg.maxPct / 100.0)
  }

  /** Fractional Kelly; None where the formula divides by zero, because the average win is zero. */
  function KellySize(t: Trader, equity: real, cfg: SizeRules): Option<real> {
    if WinRate(t) <= 0.0 || t.tradeCount < 30 then Some(equity * cfg.basePct / 100.0 * 0.5)
    else if t.avgLossPct <= 0.0 then Some(equity * cfg.basePct / 100.0)
    else if t.avgWinPct == 0.0 then None
    else Some(equity * KellyFraction(t, cfg))
  }

  /** The source's trade against its usual size. */
  function Conviction(t: Trader, traded: real): real {
    var usual := if t.avgTradeUsd.Some? && t.avgTradeUsd.value != 0.0 then t.avgTradeUsd.value else traded;
    Clamp(if usual > 0.0 then traded / usual else 1.0, 0.25, 3.0)
  }

  function Weight(score: real): real { Clamp(score / 100.0, 0.2, 1.0) }

  function TraderSize(t: Trader, traded: real, p: Portfolio, mode: SizingMode, cfg: SizeRules): Option<real> {
    if p.equity <= 0.0 then Some(0.0)
    else
      var normal := Percent(p.equity, cfg.basePct);
      match mode
      case Fixed => Some(cfg.minPositionUsd * 5.0)
      case PortfolioPct => Some(normal)
      case SourceProportional => Some(Scaled(normal, Conviction(t, traded)))
      case ConfidenceWeighted =>
        Some(Scaled(Scaled(Scaled(normal, Weight(t.composite)), Weight(t.confidence)), Weight(t.copyability)))
      case Kelly => KellySize(t, p.equity, cfg)
  }

  /** The size before any gate: it depends on the trader and the portfolio, not on the market. */
  function BaseSize(c: Signal, p: Portfolio, mode: SizingMode, cfg: SizeRules): Option<real> {
    TraderSize(c.trader, c.sourceValueUsd, p, mode, cfg)
  }

  function Cap(p: Portfolio, cfg: SizeRules): real { Percent(p.equity, cfg.maxPct) }

  /** An amount cut to the hard cap and to free cash. */
  function Capped(amount: real, p: Portfolio, cfg: SizeRules): real { Min(Min(amount, Cap(p, cfg)), p.cash) }

  /** Nothing below the minimum, otherwise rounded to cents. */
  function Rounded(size: real, cfg: SizeRules): real { if size < cfg.minPositionUsd then 0.0 else Cents(size) }

  function FinalSize(base: real, multiplier: real, p: Portfolio, cfg: SizeRules): real {
    Rounded(Capped(Scaled(base, multiplier), p, cfg), cfg)
  }

  // ---------------------------------------------------------------- the decision

  datatype Rejection =
    NotABuy | TraderRefused | StaleMarket | BelowMinimum | NoSolPrice | NoQuote | GatesFailed

  datatype Plan = Turned(why: Rejection) | Raised | Ask(size: real, multiplier: real)

  /** The full sweep: rejected, or sized with the combined multiplier. */
  function Sweep(results: seq<GateResult>, base: real, p: Portfolio, cfg: SizeRules): Plan {
    if !AllPass(results) then Turned(GatesFailed)
    else
      var size := FinalSize(base, Multiplier(results), p, cfg);
      if size <= 0.0 then Turned(BelowMinimum) else Ask(size, Multiplier(results))
  }

  /** Everything evaluate_entry does before it touches the ledger. */
  function PlanEntry(c: Signal, p: Portfolio, mode: SizingMode, gates: CopyRules, cfg: SizeRules): Plan {
    if !c.buying then Turned(NotABuy)
    else if TraderGate(c, gates).Fail? then Turned(TraderRefused)
    else if c.market.stale || c.market.priceUsd <= 0.0 then Turned(StaleMarket)
    else match BaseSize(c, p, mode, cfg)
      case None => Raised
      case Some(base) =>
        var provisional := FinalSize(base, 1.0, p, cfg);
        if provisional <= 0.0 then Turned(BelowMinimum)
        else if c.solPriceUsd <= 0.0 then Turned(NoSolPrice)
        else if c.impactPct.None? then Turned(NoQuote)
        else Sweep(EntryGates(c, gates, provisional), base, p, cfg)
  }

  /** The size asked for, a rejection counting as nothing. */
  function SizeOf(plan: Plan): real { if plan.Ask? then plan.size else 0.0 }

  datatype Order = Order(reservation: ResId, size: real, multiplier: real)

  class DecisionEngine {
    const ledger: RiskLedger

    constructor (risk: RiskLedger)
      ensures ledger == risk
    {
      ledger := risk;
    }

    /** The reservation is the last step: whatever rejects before it leaves the ledger untouched, and
        so does the ledger's own refusal. An approved order holds exactly the size asked for. */
    method EvaluateEntry(c: Signal, mode: SizingMode, gates: CopyRules, cfg: SizeRules,
                         ctl: Control, lim: Limits, id: ResId, mint: Mint, wallet: Wallet)
      returns (order: Option<Order>)
      modifies ledger
      ensures var s := old(ledger.State());
              var plan := PlanEntry(c, Snapshot(s), mode, gates, cfg);
              && (order.Some? <==> plan.Ask? && Refusal(s, ctl, lim, mint, wallet, plan.size) == None)
              && (order.None? ==> ledger.State() == s)
              && (order.Some? ==> order.value == Order(id, plan.size, plan.multiplier)
                                  && ledger.State() == AfterReserve(s, ctl, lim, id, mint, wallet, plan.size))
    {
      if !c.buying { return None; }
      if TraderGate(c, gates).Fail? { return None; }
      if c.market.stale || c.market.priceUsd <= 0.0 { return None; }
      var portfolio := Portfolio(ledger.risk.cash + ledger.risk.deployed + ledger.risk.unrealized, ledger.risk.cash);
      var base := BaseSize(c, portfolio, mode, cfg);
      if base.None? { return None; }
      var provisional := FinalSize(base.value, 1.0, portfolio, cfg);
      if provisional <= 0.0 { return None; }
      if c.solPriceUsd <= 0.0 { return None; }
      if c.impactPct.None? { return None; }
      var results := EntryGates(c, gates, provisional);
      if !AllPass(results) { return None; }
      var size := FinalSize(base.value, Multiplier(results), portfolio, cfg);
      if size <= 0.0 { return None; }
      var refusal := ledger.Reserve(ctl, lim, id, mint, wallet, size);
      if refusal.Some? { return None; }
      return Some(Order(id, size, Multiplier(results)));
    }
  }

  // ---------------------------------------------------------------- bounds and monotonicity

  predicate SaneSizes(cfg: SizeRules) { cfg.basePct >= 0.0 && cfg.minPositionUsd >= 0.0 }

  /** Whatever is asked for stays within the hard cap and free cash, up to rounding to cents. */
  lemma SizeWithinCaps(c: Signal, p: Portfolio, mode: SizingMode, gates: CopyRules, cfg: SizeRules)
    ensures var plan := PlanEntry(c, p, mode, gates, cfg);
            plan.Ask? ==> 0.0 < plan.size <= Min(Cap(p, cfg), p.cash) + 0.005
                          && plan.size >= cfg.minPositionUsd - 0.005
  {
    var plan := PlanEntry(c, p, mode, gates, cfg);
    if plan.Ask? {
      CentsNear(Capped(Scaled(BaseSize(c, p, mode, cfg).value, plan.multiplier), p, cfg));
    }
  }

  lemma SizeNonNegative(t: Trader, traded: real, p: Portfolio, mode: SizingMode, cfg: SizeRules)
    requires SaneSizes(cfg) && TraderSize(t, traded, p, mode, cfg).Some?
    ensures TraderSize(t, traded, p, mode, cfg).value >= 0.0
  {
    if p.equity > 0.0 {
      var normal := Percent(p.equity, cfg.basePct);
      MulMono(p.equity, 0.0, cfg.basePct);
      assert normal >= 0.0;
      match mode
      case Fixed =>
      case PortfolioPct =>
      case SourceProportional => MulOrder(0.0, normal, 0.0, Conviction(t, traded));
      case ConfidenceWeighted =>
        var a, b, c := Weight(t.composite), Weight(t.confidence), Weight(t.copyability);
        MulOrder(0.0, normal, 0.0, a);
        MulOrder(0.0, normal * a, 0.0, b);
        MulOrder(0.0, normal * a * b, 0.0, c);
      case Kelly => KellyNonNegative(t, p.equity, cfg);
    }
  }

  lemma KellyNonNegative(t: Trader, equity: real, cfg: SizeRules)
    requires SaneSizes(cfg) && equity > 0.0 && KellySize(t, equity, cfg).Some?
    ensures KellySize(t, equity, cfg).value >= 0.0
  {
    MulMono(equity, 0.0, cfg.basePct);
    MulMono(equity, 0.0, KellyFraction(t, cfg));
  }

  lemma FinalSizeMonotone(base: real, m: real, k: real, p: Portfolio, cfg: SizeRules)
    requires base >= 0.0 && 0.0 <= m <= k && cfg.minPositionUsd >= 0.0
    ensures FinalSize(base, m, p, cfg) <= FinalSize(base, k, p, cfg)
  {
    ScaledOrder(base, base, m, k);
    RoundedOrder(Scaled(base, m), Scaled(base, k), p, cfg);
  }

  lemma RoundedOrder(x: real, y: real, p: Portfolio, cfg: SizeRules)
    requires x <= y && cfg.minPositionUsd >= 0.0
    ensures Rounded(Capped(x, p, cfg), cfg) <= Rounded(Capped(y, p, cfg), cfg)
  {
    CentsMonotone(Capped(x, p, cfg), Capped(y, p, cfg));
    CentsNear(Capped(y, p, cfg));
  }

  lemma SweepSizes(worse: seq<GateResult>, better: seq<GateResult>, base: real, p: Portfolio, cfg: SizeRules)
    requires AllNoKinder(worse, better) && base >= 0.0 && cfg.minPositionUsd >= 0.0
    ensures SizeOf(Sweep(worse, base, p, cfg)) <= SizeOf(Sweep(better, base, p, cfg))
  {
    if AllPass(worse) {
      MultiplierMonotone(worse, better);
      FinalSizeMonotone(base, Multiplier(worse), Multiplier(better), p, cfg);
    }
  }

  lemma SameBase(c: Signal, d: Signal, p: Portfolio, mode: SizingMode, cfg: SizeRules)
    requires Worse(c, d)
    ensures BaseSize(c, p, mode, cfg) == BaseSize(d, p, mode, cfg)
  {
    assert c.trader == d.trader;
  }

  /** The same signal in worse circumstances is never asked for at a larger size. */
  lemma WorseNeverLarger(c: Signal, d: Signal, p: Portfolio, mode: SizingMode, gates: CopyRules, cfg: SizeRules)
    requires Worse(c, d) && SaneGates(gates, c.trader) && SaneSizes(cfg)
    ensures SizeOf(PlanEntry(d, p, mode, gates, cfg)) <= SizeOf(PlanEntry(c, p, mode, gates, cfg))
  {
    SameBase(c, d, p, mode, cfg);
    if BaseSize(c, p, mode, cfg).Some? {
      var base := BaseSize(c, p, mode, cfg).value;
      var provisional := FinalSize(base, 1.0, p, cfg);
      SizeNonNegative(c.trader, c.sourceValueUsd, p, mode, cfg);
      if provisional > 0.0 {
        GatesMonotone(c, d, gates, provisional);
        SweepSizes(EntryGates(d, gates, provisional), EntryGates(c, gates, provisional), base, p, cfg);
      }
    }
  }

  /** The ledger's limits are downward closed: where a size is granted, so is any smaller one that is
      not below the minimum position. */
  lemma SmallerIsGranted(s: Ledger, ctl: Control, lim: Limits, mint: Mint, wallet: Wallet, size: real, less: real)
    requires Refusal(s, ctl, lim, mint, wallet, size) == None
    requires lim.minPositionUsd <= less <= size
    ensures Refusal(s, ctl, lim, mint, wallet, less) == None
  {
  }

  /** What ends up reserved, nothing when the ledger refuses. */
  function Reserved(s: Ledger, ctl: Control, lim: Limits, mint: Mint, wallet: Wallet, size: real): real {
    if Refusal(s, ctl, lim, mint, wallet, size) == None then size else 0.0
  }

  /** The system runs, no breaker has tripped and a slot is free. */
  predicate OpenFor(s: Ledger, ctl: Control, lim: Limits) {
    !ctl.kill && ctl.state == Some("running") && LL.BreakersClosed(s, lim) && LL.SlotFree(s, lim)
  }

  function RoomUnder(s: Ledger, lim: Limits, sc: LB.Scope): real { LL.Ceiling(s, lim, sc) - LB.Shown(s, sc) }

  /** The largest size that cash and the three exposure ceilings leave room for. */
  function Headroom(s: Ledger, lim: Limits, mint: Mint, wallet: Wallet): real {
    Min(Min(s.cash, RoomUnder(s, lim, LB.Everything)),
        Min(RoomUnder(s, lim, LB.OfToken(mint)), RoomUnder(s, lim, LB.OfTrader(wallet))))
  }

  lemma GrantedWithinHeadroom(s: Ledger, ctl: Control, lim: Limits, mint: Mint, wallet: Wallet, size: real)
    ensures Refusal(s, ctl, lim, mint, wallet, size) == None
       <==> OpenFor(s, ctl, lim) && lim.minPositionUsd <= size <= Headroom(s, lim, mint, wallet)
  {
    LL.GrantedExactlyWhen(s, ctl, lim, mint, wallet, size);
  }

  /** Through the ledger the order can turn round: the worse signal reserves more exactly when the ledger is
      open and its headroom lies between the two sizes. */
  lemma WorseReservesMoreExactlyWhen(c: Signal, d: Signal, s: Ledger, mode: SizingMode, gates: CopyRules,
                                     cfg: SizeRules, ctl: Control, lim: Limits, mint: Mint, wallet: Wallet)
    requires Worse(c, d) && SaneGates(gates, c.trader) && SaneSizes(cfg)
    ensures var better := SizeOf(PlanEntry(c, Snapshot(s), mode, gates, cfg));
            var worse := SizeOf(PlanEntry(d, Snapshot(s), mode, gates, cfg));
            Reserved(s, ctl, lim, mint, wallet, worse) > Reserved(s, ctl, lim, mint, wallet, better)
            <==> OpenFor(s, ctl, lim) && 0.0 < worse && lim.minPositionUsd <= worse
                 && worse <= Headroom(s, lim, mint, wallet) < better
  {
    WorseNeverLarger(c, d, Snapshot(s), mode, gates, cfg);
    HeadroomBetween(s, ctl, lim, mint, wallet, SizeOf(PlanEntry(d, Snapshot(s), mode, gates, cfg)),
                    SizeOf(PlanEntry(c, Snapshot(s), mode, gates, cfg)));
  }

  lemma HeadroomBetween(s: Ledger, ctl: Control, lim: Limits, mint: Mint, wallet: Wallet, worse: real, better: real)
    requires 0.0 <= worse <= better
    ensures Reserved(s, ctl, lim, mint, wallet, worse) > Reserved(s, ctl, lim, mint, wallet, better)
            <==> OpenFor(s, ctl, lim) && 0.0 < worse && lim.minPositionUsd <= worse
                 && worse <= Headroom(s, lim, mint, wallet) < better
  {
    GrantedWithinHeadroom(s, ctl, lim, mint, wallet, worse);
    GrantedWithinHeadroom(s, ctl, lim, mint, wallet, better);
  }
}
