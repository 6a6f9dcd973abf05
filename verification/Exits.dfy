/** The exit rules (src/asm/engine/exits.py): which rule closes how much of a position, how the
    peak and the trailing stop are tracked, and what a sale realizes. */
module Exits {
  import opened Numeric
  import opened Domain
  import opened Ledger

  datatype ExitReason =
    | StopLoss | LiquidityDeterioration | TraderDegraded | TrailingStop | TakeProfit | Mirror | TimeExit
    | Emergency | Manual

  /** Past `thresholdPct` of gain, sell `takePct` percent of what is left. */
  datatype Rung = Rung(thresholdPct: real, takePct: real)

  datatype ExitRules = ExitRules(stopLossPct: real, trailingStopPct: real, trailingArmPct: real,
                                 ladder: seq<Rung>, maxHoldSeconds: int)

  /** A position, as a row of the database or as the object loaded from it. */
  datatype Holding = Holding(
    mint: Mint, wallet: Wallet, decimals: nat, openedAt: Time, entryPrice: real,
    amountRaw: nat, costBasis: real, realizedPnl: real, currentPrice: real,
    peakPrice: real, trailingArmed: bool, levelsHit: seq<nat>, isOpen: bool)

  /** What a rule may look at besides the position. */
  datatype Signals = Signals(price: real, exitLiquidity: Option<real>, trader: Option<TraderStatus>,
                             sourceSold: Option<real>, now: Time)

  datatype Intent = Intent(reason: ExitReason, fraction: real, rung: Option<nat>)

  function Gain(entry: real, price: real): real
    requires entry > 0.0
  {
    (price - entry) / entry * 100.0
  }

  lemma GainMonotone(entry: real, p: real, q: real)
    requires entry > 0.0 && p <= q
    ensures Gain(entry, p) <= Gain(entry, q)
  {
    assert (p - entry) / entry <= (q - entry) / entry;
  }

  function MarketValue(h: Holding): real { Ui(h.amountRaw, h.decimals) * h.currentPrice }

  // ---------------------------------------------------------------- the rules

  /** The lowest rung at or above `start` not yet hit whose threshold the gain reaches. */
  function FirstRung(ladder: seq<Rung>, hit: seq<nat>, pnlPct: real, start: nat): (r: Option<nat>)
    requires start <= |ladder|
    ensures match r
            case None => forall j :: start <= j < |ladder| ==> j in hit || pnlPct < ladder[j].thresholdPct
            case Some(idx) =>
              && start <= idx < |ladder| && idx !in hit && pnlPct >= ladder[idx].thresholdPct
              && forall j :: start <= j < idx ==> j in hit || pnlPct < ladder[j].thresholdPct
    decreases |ladder| - start
  {
    if start == |ladder| then None
    else if start !in hit && pnlPct >= ladder[start].thresholdPct then Some(start)
    else FirstRung(ladder, hit, pnlPct, start + 1)
  }

  predicate TrailingStopHit(h: Holding, rules: ExitRules, price: real) {
    && h.peakPrice > 0.0 && h.entryPrice > 0.0
    && (h.trailingArmed || Gain(h.entryPrice, h.peakPrice) >= rules.trailingArmPct)
    && (h.peakPrice - price) / h.peakPrice * 100.0 >= rules.trailingStopPct
  }

  function PnlPct(h: Holding, price: real): real {
    if h.entryPrice > 0.0 then Gain(h.entryPrice, price) else 0.0
  }

  /** The first rule that applies, capital preservation before profit taking. */
  function EvaluateExits(h: Holding, rules: ExitRules, s: Signals): Option<Intent> {
    if h.amountRaw <= 0 || s.price <= 0.0 then None
    else
      var pnl := PnlPct(h, s.price);
      if pnl <= rules.stopLossPct then Some(Intent(StopLoss, 1.0, None))
      else if s.exitLiquidity.Some? && s.exitLiquidity.value < MarketValue(h) * 2.0
      then Some(Intent(LiquidityDeterioration, 1.0, None))
      else if s.trader.Some? && Distrusted(s.trader.value) then Some(Intent(TraderDegraded, 1.0, None))
      else if TrailingStopHit(h, rules, s.price) then Some(Intent(TrailingStop, 1.0, None))
      else
        match FirstRung(rules.ladder, h.levelsHit, pnl, 0)
        case Some(idx) => Some(Intent(TakeProfit, rules.ladder[idx].takePct / 100.0, Some(idx)))
        case None =>
          if s.sourceSold.Some? then Some(Intent(Mirror, Min(s.sourceSold.value, 1.0), None))
          else if WholeSeconds(s.now - h.openedAt) > rules.maxHoldSeconds then Some(Intent(TimeExit, 1.0, None))
          else None
  }

  // ---------------------------------------------------------------- marks

  function Marked(h: Holding, price: real, rules: ExitRules): Holding {
    var peak := Max(h.peakPrice, price);
    h.(currentPrice := price, peakPrice := peak,
       trailingArmed := h.trailingArmed
                        || (h.entryPrice > 0.0 && Gain(h.entryPrice, peak) >= rules.trailingArmPct))
  }

  // ---------------------------------------------------------------- sales

  /** How much a sale of `fraction` takes: int() of the product, all of it from 0.999 up. */
  function ToSell(amount: nat, fraction: real): (n: nat)
    ensures n <= amount
    ensures 0 < n < amount ==> fraction < 0.999 && n as real <= amount as real * fraction < n as real + 1.0
    ensures n == 0 <==> amount as real * fraction < 1.0
  {
    var n := Trunc(amount as real * fraction);
    if n <= 0 then 0
    else if fraction >= 0.999 || n >= amount then amount
    else n
  }

  datatype Sale = Sale(amount: nat, price: real, proceeds: real, pnl: real, reason: ExitReason,
                       rung: Option<nat>, fully: bool)

  /** (proceeds, realized) of selling `amount` units: cost leaves in proportion. */
  function RealizedPnl(h: Holding, amount: nat, exitPrice: real): (real, real) {
    if h.amountRaw <= 0 then (0.0, 0.0)
    else
      var fraction := amount as real / h.amountRaw as real;
      var proceeds := Ui(amount, h.decimals) * exitPrice;
      (proceeds, proceeds - h.costBasis * fraction)
  }

  function CostOf(s: Sale): real { s.proceeds - s.pnl }

  /** The sale an intent leads to, when the order fills: `actual` is the fill price, and a zero
      there falls back to the market price. */
  function SaleFor(h: Holding, intent: Intent, market: real, actual: real): Sale {
    var n := ToSell(h.amountRaw, intent.fraction);
    var price := if actual == 0.0 then market else actual;
    var (proceeds, pnl) := RealizedPnl(h, n, price);
    Sale(n, actual, proceeds, pnl, intent.reason, intent.rung, n == h.amountRaw)
  }

  lemma ShareOfCost(cost: real, amount: nat, whole: nat)
    requires 0 < amount <= whole
    ensures var part := cost * (amount as real / whole as real);
            && part * whole as real == cost * amount as real
            && (cost >= 0.0 ==> 0.0 <= part <= cost)
            && (amount == whole ==> part == cost)
  {
    var n := whole as real;
    var share := amount as real / n;
    Quotient(amount as real, n);
    ScaledTwice(cost, share, n);
    ShareWithin(share, amount as real, n);
    if cost >= 0.0 {
      MulMono(cost, 0.0, share);
      MulMono(cost, share, 1.0);
    }
  }

  lemma ShareWithin(share: real, amount: real, whole: real)
    requires share * whole == amount && 0.0 < amount <= whole
    ensures 0.0 < share <= 1.0 && (amount == whole ==> share == 1.0)
  {
    if share <= 0.0 { MulMono(whole, share, 0.0); }
    if share > 1.0 { MulLess(1.0, share, whole); }
    if share < 1.0 { MulLess(share, 1.0, whole); }
  }

  /** The cost a sale releases is the sold share of the basis: never more than the basis, never
      negative, and exactly the basis when everything is sold. */
  lemma CostIsShare(h: Holding, intent: Intent, market: real, actual: real)
    requires ToSell(h.amountRaw, intent.fraction) > 0
    ensures var s := SaleFor(h, intent, market, actual);
            && CostOf(s) * h.amountRaw as real == h.costBasis * s.amount as real
            && (h.costBasis >= 0.0 ==> 0.0 <= CostOf(s) <= h.costBasis)
            && (s.fully ==> CostOf(s) == h.costBasis)
  {
    ShareOfCost(h.costBasis, ToSell(h.amountRaw, intent.fraction), h.amountRaw);
  }
}
