/** Simulated fills (src/asm/backtest/executor.py). The random stream of the seed is any sequence of
    numbers; the executor consumes one per order that has a route. */
module Fills {
  import opened Numeric

  datatype FillOrder = FillOrder(buying: bool, mark: real, sizeUsd: real, inAmount: nat, decimals: nat, analysisMs: int)

  datatype Fill = Fill(outAmount: int, valueUsd: real, price: real)

  const NETWORK_FEE := 5000

  /** Settings: failures, drift against us while we wait, and what a transaction costs. */
  datatype FillModel = FillModel(failRate: real, driftPctPerSecond: real, solPrice: real, priorityFee: int)

  function FeeUsd(m: FillModel): real { (NETWORK_FEE + m.priorityFee) as real / 1000000000.0 * m.solPrice }

  /** More impact, more failures, one in two at most. */
  function FailureRate(m: FillModel, impactPct: real): real { Min(m.failRate + impactPct / 100.0 * 0.5, 0.5) }

  function CostPct(m: FillModel, o: FillOrder, impactPct: real): real {
    impactPct + m.driftPctPerSecond * (o.analysisMs as real / 1000.0)
  }

  function ActualPrice(o: FillOrder, costPct: real): real {
    Max(if o.buying then o.mark * (1.0 + costPct / 100.0) else o.mark * (1.0 - costPct / 100.0), 0.0)
  }

  function FillFor(m: FillModel, o: FillOrder, impactPct: real): Fill {
    var price := ActualPrice(o, CostPct(m, o, impactPct));
    if o.buying then
      Fill(UnitsFor(o.sizeUsd, price, Pow10(o.decimals)), o.sizeUsd, price)
    else
      var proceeds := Ui(o.inAmount, o.decimals) * price;
      Fill(if m.solPrice == 0.0 then 0 else Trunc(proceeds / m.solPrice * Pow10(9)), proceeds, price)
  }

  /** What an order comes to: nothing without a route, nothing when the draw is below the failure rate. */
  function Outcome(m: FillModel, o: FillOrder, impactPct: Option<real>, draw: real): Option<Fill> {
    if impactPct.None? || draw < FailureRate(m, impactPct.value) then None else Some(FillFor(m, o, impactPct.value))
  }

  class BacktestExecutor {
    const model: FillModel
    const draws: nat -> real
    var drawn: nat
    var fills: nat
    var failures: nat

    constructor (settings: FillModel, stream: nat -> real)
      ensures model == settings && draws == stream && drawn == fills == failures == 0
    {
      model, draws, drawn, fills, failures := settings, stream, 0, 0, 0;
    }

    method Execute(o: FillOrder, impactPct: Option<real>) returns (fill: Option<Fill>)
      modifies this
      ensures fill == Outcome(model, o, impactPct, draws(old(drawn)))
      ensures drawn == old(drawn) + (if impactPct.Some? then 1 else 0)
      ensures fills + failures == old(fills + failures) + 1 && fills == old(fills) + (if fill.Some? then 1 else 0)
    {
      if impactPct.None? {
        failures := failures + 1;
        return None;
      }
      var draw := draws(drawn);
      drawn := drawn + 1;
      if draw < FailureRate(model, impactPct.value) {
        failures := failures + 1;
        return None;
      }
      fills := fills + 1;
      return Some(FillFor(model, o, impactPct.value));
    }
  }

  /** Costs only ever work against us: a buy is never below the mark and never yields more tokens than
      its size pays for, and it is worth exactly the size reserved. */
  lemma BuysWorkAgainstUs(m: FillModel, o: FillOrder, impactPct: real)
    requires o.buying && o.mark >= 0.0 && o.sizeUsd >= 0.0 && CostPct(m, o, impactPct) >= 0.0
    ensures var f := FillFor(m, o, impactPct);
            && f.price >= o.mark && f.valueUsd == o.sizeUsd
            && f.outAmount >= 0 && Ui(f.outAmount, o.decimals) * f.price <= o.sizeUsd
  {
    var f := FillFor(m, o, impactPct);
    PriceAgainstUs(o, CostPct(m, o, impactPct));
    if f.price > 0.0 { BuyFits(o.sizeUsd, f.price, Pow10(o.decimals)); }
  }

  /** A sale is never above the mark. */
  lemma SalesWorkAgainstUs(m: FillModel, o: FillOrder, impactPct: real)
    requires !o.buying && o.mark >= 0.0 && CostPct(m, o, impactPct) >= 0.0
    ensures var f := FillFor(m, o, impactPct);
            0.0 <= f.price <= o.mark && f.valueUsd == Ui(o.inAmount, o.decimals) * f.price
  {
    PriceAgainstUs(o, CostPct(m, o, impactPct));
  }

  lemma PriceAgainstUs(o: FillOrder, costPct: real)
    requires o.mark >= 0.0 && costPct >= 0.0
    ensures o.buying ==> ActualPrice(o, costPct) >= o.mark
    ensures !o.buying ==> 0.0 <= ActualPrice(o, costPct) <= o.mark
  {
    if o.buying {
      MulMono(o.mark, 1.0, 1.0 + costPct / 100.0);
    } else {
      MulMono(o.mark, 1.0 - costPct / 100.0, 1.0);
    }
  }

  lemma BuyFits(size: real, price: real, unit: real)
    requires size >= 0.0 && price > 0.0 && unit > 0.0
    ensures 0 <= Trunc(size / price * unit)
    ensures Trunc(size / price * unit) as real / unit * price <= size
  {
    var tokens := size / price;
    QuotientOrder(size, price, price);
    MulMono(unit, 0.0, tokens);
    var out := Trunc(tokens * unit) as real;
    Quotient(size, price);
    Quotient(out, unit);
    if out / unit > tokens { MulLess(tokens, out / unit, unit); }
    MulMono(price, out / unit, tokens);
  }
}
