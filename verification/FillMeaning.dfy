/** What a simulated fill comes to (src/asm/backtest/executor.py): when an order fails, at which price it fills,
    and for how many units. */
module FillMeaning {
  import opened Numeric
  import opened Fills
  import P = ProviderMeaning

  /** An order fails without a route, or when the draw is below both one half and the base rate plus half the
      impact's share; and only then. */
  lemma FailsExactlyWhen(m: FillModel, o: FillOrder, impactPct: Option<real>, draw: real)
    ensures Outcome(m, o, impactPct, draw) == None
       <==> impactPct.None? || (2.0 * draw < 1.0 && 200.0 * draw < 200.0 * m.failRate + impactPct.value)
  {
  }

  /** The impact and the drift of so many milliseconds. */
  predicate IsCost(m: FillModel, o: FillOrder, impactPct: real, cost: real) {
    1000.0 * (cost - impactPct) == m.driftPctPerSecond * o.analysisMs as real
  }

  lemma CostMeans(m: FillModel, o: FillOrder, impactPct: real)
    ensures IsCost(m, o, impactPct, CostPct(m, o, impactPct))
  {
    var waited := o.analysisMs as real / 1000.0;
    assert m.driftPctPerSecond * o.analysisMs as real == m.driftPctPerSecond * waited * 1000.0;
  }

  lemma InPercent(mark: real, x: real, y: real)
    requires 100.0 * x == y
    ensures 100.0 * (mark * x) == mark * y
  {
  }

  /** A buy fills above the mark by the cost, a sale below it, and never below zero. */
  lemma BuyPriceMeans(o: FillOrder, cost: real)
    requires o.buying && o.mark >= 0.0
    ensures 100.0 * ActualPrice(o, cost) == if cost >= -100.0 then o.mark * (100.0 + cost) else 0.0
  {
    var up := 1.0 + cost / 100.0;
    if cost >= -100.0 {
      MulOrder(0.0, o.mark, 0.0, up);
      InPercent(o.mark, up, 100.0 + cost);
    } else {
      MulMono(o.mark, up, 0.0);
    }
  }

  lemma SalePriceMeans(o: FillOrder, cost: real)
    requires !o.buying && o.mark >= 0.0
    ensures 100.0 * ActualPrice(o, cost) == if cost <= 100.0 then o.mark * (100.0 - cost) else 0.0
  {
    var down := 1.0 - cost / 100.0;
    if cost <= 100.0 {
      MulOrder(0.0, o.mark, 0.0, down);
      InPercent(o.mark, down, 100.0 - cost);
    } else {
      MulMono(o.mark, down, 0.0);
    }
  }

  /** A buy is worth its size and yields every whole unit the size pays for at its price. */
  lemma BuyFillMeans(m: FillModel, o: FillOrder, impactPct: real)
    requires o.buying && o.sizeUsd >= 0.0
    ensures var f := FillFor(m, o, impactPct);
            && f.price == ActualPrice(o, CostPct(m, o, impactPct)) >= 0.0 && f.valueUsd == o.sizeUsd
            && if f.price == 0.0 then f.outAmount == 0
               else P.WholeUnits(f.outAmount, f.price, o.sizeUsd * Pow10(o.decimals))
  {
    var price := FillFor(m, o, impactPct).price;
    if price > 0.0 { Whole(o.sizeUsd, price, Pow10(o.decimals)); }
  }

  /** A sale is worth its units at its price, and yields every whole lamport of that. */
  lemma SaleFillMeans(m: FillModel, o: FillOrder, impactPct: real)
    requires !o.buying && m.solPrice >= 0.0
    ensures var f := FillFor(m, o, impactPct);
            && f.price == ActualPrice(o, CostPct(m, o, impactPct)) >= 0.0
            && f.valueUsd == Ui(o.inAmount, o.decimals) * f.price
            && if m.solPrice == 0.0 then f.outAmount == 0
               else P.WholeUnits(f.outAmount, m.solPrice, f.valueUsd * Pow10(9))
  {
    var f := FillFor(m, o, impactPct);
    QuotientOrder(o.inAmount as real, Pow10(o.decimals), Pow10(o.decimals));
    MulOrder(0.0, Ui(o.inAmount, o.decimals), 0.0, f.price);
    if m.solPrice > 0.0 { Whole(f.valueUsd, m.solPrice, Pow10(9)); }
  }

  lemma Whole(usd: real, price: real, scale: real)
    requires usd >= 0.0 && price > 0.0 && scale > 0.0
    ensures P.WholeUnits(Trunc(usd / price * scale), price, usd * scale)
  {
    P.TimesUnit(usd, price, scale);
    MulOrder(0.0, usd, 0.0, scale);
    P.UnitsMean(usd * scale, price, usd / price * scale);
  }

  /** Fees are lamports, a billion to one SOL. */
  lemma FeeMeans(m: FillModel)
    ensures FeeUsd(m) * 1000000000.0 == (5000 + m.priorityFee) as real * m.solPrice
  {
    var sol := (NETWORK_FEE + m.priorityFee) as real / 1000000000.0;
    assert sol * m.solPrice * 1000000000.0 == sol * 1000000000.0 * m.solPrice;
  }
}
