/** What the steps of a backtest mean in units, prices and dollars (src/asm/backtest/engine.py): what a close books,
    what a mirrored sale, a stop and the final liquidation take, what a buy enters and under which rules, and what
    every marked equity is made of. */
module EngineMeaning {
  import opened Numeric
  import opened Domain
  import opened Ledger
  import opened Exits
  import opened Replay
  import opened Engine
  import F = Fills
  import H = History
  import G = Gates
  import D = Decision
  import LB = LedgerBook
  import M = ExitMeaning
  import GM = GateMeaning
  import P = ProviderMeaning
  import S = EngineSound

  // ---------------------------------------------------------------- what a close books

  /** The price a sale is booked at. */
  function BookedPrice(fill: real, market: real): real { if fill != 0.0 then fill else market }

  /** What so many raw units are worth at a price. */
  function Worth(n: nat, decimals: nat, price: real): real { Ui(n, decimals) * price }

  /** A sale of n units of a position at a price: cash, the closed trade and the table tell the same. */
  ghost predicate Books(before: Sim, after: Sim, id: ResId, n: nat, price: real, now: Time, reason: ExitReason,
                        fee: real)
    requires id in before.positions
  {
    var h, trades := before.positions[id], after.tally.trades;
    var proceeds := Worth(n, h.decimals, price);
    && 0 < n <= h.amountRaw && after.ledger.cash == before.ledger.cash + proceeds
    && |trades| == |before.tally.trades| + 1 && before.tally.trades <= trades
    && var t := trades[|trades| - 1];
       && t == ClosedTrade(h.mint, h.wallet, h.openedAt, now, h.entryPrice, price, t.sizeUsd, t.pnl, fee, reason)
       && t.sizeUsd + t.pnl == proceeds && (t.sizeUsd - fee) * h.amountRaw as real == h.costBasis * n as real
       && after.tally.realized == before.tally.realized + t.pnl && after.tally.fees == before.tally.fees + fee
       && (if n == h.amountRaw then after.positions == before.positions - {id}
           else after.positions - {id} == before.positions - {id} && id in after.positions
                && after.positions[id].amountRaw == h.amountRaw - n
                && after.positions[id].costBasis == h.costBasis - (t.sizeUsd - fee))
  }

  lemma SaleBooked(s: Sim, fee: real, x: Exit)
    requires x.id in s.positions && Sells(s.positions[x.id], x)
    ensures var n := ToSell(s.positions[x.id].amountRaw, x.fraction);
            Books(s, AfterClose(s, fee, x), x.id, n, BookedPrice(x.fill.value, x.market), x.at, x.reason, fee)
  {
    var h := s.positions[x.id];
    M.SaleBooksTheFill(h, Intent(x.reason, x.fraction, x.rung), x.market, x.fill.value);
    PostedSale(s, fee, x, h, SaleOf(h, x), BookedPrice(x.fill.value, x.market));
  }

  lemma PostedSale(s: Sim, fee: real, x: Exit, h: Holding, sale: Sale, price: real)
    requires x.id in s.positions && s.positions[x.id] == h && 0 < sale.amount <= h.amountRaw
    requires sale.proceeds == Worth(sale.amount, h.decimals, price) && sale.reason == x.reason
    requires price == BookedPrice(sale.price, x.market) && (sale.fully <==> sale.amount == h.amountRaw)
    requires (sale.proceeds - sale.pnl) * h.amountRaw as real == h.costBasis * sale.amount as real
    ensures Books(s, AfterSale(s, fee, x, h, sale), x.id, sale.amount, price, x.at, x.reason, fee)
  {
  }

  lemma FillNeedsUnits(w: World, h: Holding, now: Time, fraction: real, drawn: nat)
    ensures SellFill(w, h, now, fraction, drawn).Some? ==>
              && ToSell(h.amountRaw, fraction) > 0 && MarketPrice(w, h, now, fraction) > 0.0
              && MarketPrice(w, h, now, fraction) == StateOf(w, now, h.mint, h.decimals).priceUsd
  {
  }

  /** An attempt to sell a fraction books a sale exactly when its order fills: so many units, at the fill's price; and
      changes nothing otherwise. */
  lemma CloseMeans(w: World, d: Desk, now: Time, id: ResId, reason: ExitReason, rung: Option<nat>, fraction: real)
    requires id in d.sim.positions
    ensures var h, after := d.sim.positions[id], CloseAt(w, d, now, id, reason, rung, fraction);
            var fill := SellFill(w, h, now, fraction, d.drawn);
            && (fill.None? ==> after.sim == d.sim && after.order == d.order)
            && (fill.Some? ==>
                  var price := BookedPrice(fill.value, StateOf(w, now, h.mint, h.decimals).priceUsd);
                  Books(d.sim, after.sim, id, ToSell(h.amountRaw, fraction), price, now, reason, Fee(w)))
  {
    var h := d.sim.positions[id];
    var x := ExitAt(w, d, now, id, reason, rung, fraction);
    if SellFill(w, h, now, fraction, d.drawn).Some? {
      FillNeedsUnits(w, h, now, fraction, d.drawn);
      SaleBooked(d.sim, Fee(w), x);
    }
  }

  /** The impact a quote tells, when there is a route. */
  function ImpactOf(quote: Option<H.Quote>): Option<real> {
    match quote case None => None case Some(q) => Some(q.priceImpactPct)
  }

  /** The executor's fill of that order: so many units at the clock's price, with the impact of a route for just those
      units into SOL, with no wait, and on the next draw. */
  function ExecutorFill(w: World, h: Holding, now: Time, fraction: real, drawn: nat): Option<F.Fill> {
    var n := ToSell(h.amountRaw, fraction);
    var m := H.StateAt(w.histories, w.setup, now, h.mint, h.decimals);
    F.Outcome(w.cfg.fills, F.FillOrder(false, m.priceUsd, Scaled(Ui(n, h.decimals), m.priceUsd), n, m.decimals, 0),
              ImpactOf(H.QuoteAt(w.histories, w.setup, now, h.mint, SOL_MINT, n, 0)), w.draws(drawn))
  }

  /** A position's decimals are its token's. */
  predicate RightDecimals(w: World, h: Holding) {
    h.mint in w.histories && h.decimals == w.histories[h.mint].decimals
  }

  /** What is booked for a sale is the value of the executor's fill, unless that filled at a price of zero: then, and
      only then, it is the market's price instead. */
  lemma BooksTheFillsValue(w: World, h: Holding, now: Time, fraction: real, drawn: nat)
    requires RightDecimals(w, h)
    ensures var fill, sold := ExecutorFill(w, h, now, fraction, drawn), SellFill(w, h, now, fraction, drawn);
            sold.Some? ==>
              && fill.Some? && sold == Some(fill.value.price)
              && var market := StateOf(w, now, h.mint, h.decimals).priceUsd;
                 var price := BookedPrice(fill.value.price, market);
                 var proceeds := Worth(ToSell(h.amountRaw, fraction), h.decimals, price);
                 proceeds == fill.value.valueUsd <==> fill.value.price != 0.0
  {
    if SellFill(w, h, now, fraction, drawn).Some? {
      FillNeedsUnits(w, h, now, fraction, drawn);
      var m := StateOf(w, now, h.mint, h.decimals);
      assert m.decimals == h.decimals;
      UnitsWorth(ToSell(h.amountRaw, fraction), h.decimals, m.priceUsd);
    }
  }

  lemma UnitsWorth(n: nat, decimals: nat, price: real)
    requires n > 0 && price > 0.0
    ensures Ui(n, decimals) * price > 0.0
  {
    var units := Ui(n, decimals);
    Quotient(n as real, Pow10(decimals));
    if units <= 0.0 { MulMono(Pow10(decimals), units, 0.0); }
    MulLess(0.0, units, price);
  }

  // ---------------------------------------------------------------- mirrored sales, stops, the liquidation

  /** The whole position went, and the trade says why. */
  predicate ClosedFor(before: Sim, after: Sim, id: ResId, reason: ExitReason) {
    && id in before.positions && after.positions == before.positions - {id}
    && |after.tally.trades| == |before.tally.trades| + 1
    && after.tally.trades[|before.tally.trades|].reason == reason
  }

  lemma WholeSale(w: World, d: Desk, now: Time, id: ResId, reason: ExitReason, rung: Option<nat>)
    requires id in d.sim.positions
    ensures SellFill(w, d.sim.positions[id], now, 1.0, d.drawn).Some? ==>
              ClosedFor(d.sim, CloseAt(w, d, now, id, reason, rung, 1.0).sim, id, reason)
  {
    CloseMeans(w, d, now, id, reason, rung, 1.0);
    FillNeedsUnits(w, d.sim.positions[id], now, 1.0, d.drawn);
  }

  /** It was bought after this trader, in this token. */
  predicate Copies(h: Holding, t: SourceTrade) { h.mint == t.mint && h.wallet == t.wallet }

  /** When the source sells, all of a position that copies it goes if the order fills; when it sells in part, half of
      its units, rounded down; and a position that does not copy it stays as it is. */
  lemma MirrorMeans(w: World, d: Desk, now: Time, t: SourceTrade, id: ResId)
    requires id in d.sim.positions && (t.action == Sell || t.action == PartialSell)
    ensures var h, after := d.sim.positions[id], MirrorAt(w, d, now, t, id);
            && (!Copies(h, t) ==> after == d)
            && (Copies(h, t) && t.action == Sell && SellFill(w, h, now, 1.0, d.drawn).Some? ==>
                  ClosedFor(d.sim, after.sim, id, Mirror))
            && (Copies(h, t) && t.action == PartialSell && SellFill(w, h, now, 0.5, d.drawn).Some? ==>
                  id in after.sim.positions && after.sim.positions[id].amountRaw == h.amountRaw - h.amountRaw / 2)
  {
    var h := d.sim.positions[id];
    if Mirrors(t, h) {
      if t.action == Sell {
        if SellFill(w, h, now, 1.0, d.drawn).Some? { WholeSale(w, d, now, id, Mirror, None); }
      } else if SellFill(w, h, now, 0.5, d.drawn).Some? {
        CloseMeans(w, d, now, id, Mirror, None, 0.5);
        FillNeedsUnits(w, h, now, 0.5, d.drawn);
        Half(h.amountRaw);
      }
    }
  }

  lemma Half(amount: nat)
    ensures ToSell(amount, 0.5) == amount / 2
  {
    var n := ToSell(amount, 0.5);
    assert amount as real * 0.5 == amount as real / 2.0;
  }

  /** What the rules look at in a backtest: the price, the trader's standing, and the clock. */
  function RuleSignals(w: World, price: real, wallet: Wallet, now: Time): Signals {
    Signals(price, None, if wallet in w.cfg.traders then Some(w.cfg.traders[wallet].status) else None, None, now)
  }

  /** A tick at a fresh price marks the position. It then sells nothing when no rule applies, and all of it when a
      protective rule does and the order fills. */
  lemma TickMeans(w: World, d: Desk, now: Time, id: ResId)
    requires id in d.sim.positions && d.sim.positions[id].amountRaw > 0
    ensures var h, m := d.sim.positions[id], StateOf(w, now, d.sim.positions[id].mint, d.sim.positions[id].decimals);
            var marked, signals := Marked(h, m.priceUsd, w.cfg.rules), RuleSignals(w, m.priceUsd, h.wallet, now);
            var after := TickAt(w, d, now, id);
            && (m.stale || m.priceUsd <= 0.0 ==> after == d)
            && (!m.stale && m.priceUsd > 0.0 && !M.Applies(marked, w.cfg.rules, signals) ==>
                  after == d.(sim := d.sim.(positions := d.sim.positions[id := marked])))
            && (!m.stale && m.priceUsd > 0.0 && M.Protects(marked, w.cfg.rules, signals)
                && SellFill(w, marked, now, 1.0, d.drawn).Some? ==>
                  && id !in after.sim.positions && |after.sim.tally.trades| == |d.sim.tally.trades| + 1
                  && (M.AtStop(h, w.cfg.rules, m.priceUsd) ==>
                        after.sim.tally.trades[|d.sim.tally.trades|].reason == StopLoss))
  {
    var h := d.sim.positions[id];
    var m := StateOf(w, now, h.mint, h.decimals);
    if !m.stale && m.priceUsd > 0.0 {
      var marked := Marked(h, m.priceUsd, w.cfg.rules);
      M.ExitsExactlyWhen(marked, w.cfg.rules, RuleSignals(w, m.priceUsd, h.wallet, now));
      if M.Protects(marked, w.cfg.rules, RuleSignals(w, m.priceUsd, h.wallet, now))
         && SellFill(w, marked, now, 1.0, d.drawn).Some? {
        ProtectedGoes(w, d, now, id, marked, m);
      }
    }
  }

  lemma ProtectedGoes(w: World, d: Desk, now: Time, id: ResId, marked: Holding, m: H.MarketState)
    requires id in d.sim.positions && marked.amountRaw > 0 && m.priceUsd > 0.0
    requires M.Protects(marked, w.cfg.rules, RuleSignals(w, m.priceUsd, marked.wallet, now))
    ensures var i := EvaluateExits(marked, w.cfg.rules, RuleSignals(w, m.priceUsd, marked.wallet, now));
            && i.Some? && i.value.fraction == 1.0
            && (M.AtStop(marked, w.cfg.rules, m.priceUsd) ==> i.value.reason == StopLoss)
            && (SellFill(w, marked, now, 1.0, d.drawn).Some? ==>
                  ClosedFor(Remark(d, id, marked).sim,
                            CloseAt(w, Remark(d, id, marked), now, id, i.value.reason, i.value.rung, 1.0).sim, id,
                            i.value.reason))
  {
    M.ExitsExactlyWhen(marked, w.cfg.rules, RuleSignals(w, m.priceUsd, marked.wallet, now));
    var i := EvaluateExits(marked, w.cfg.rules, RuleSignals(w, m.priceUsd, marked.wallet, now)).value;
    WholeSale(w, Remark(d, id, marked), now, id, i.reason, i.rung);
  }

  /** At the end whatever fills goes in full. */
  lemma LiquidationMeans(w: World, d: Desk, now: Time, id: ResId)
    requires id in d.sim.positions
    ensures SellFill(w, d.sim.positions[id], now, 1.0, d.drawn).Some? ==>
              ClosedFor(d.sim, LiquidateAt(w, d, now, id).sim, id, Manual)
  {
    WholeSale(w, d, now, id, Manual, None);
  }
}
