/** What the numbers of a backtest are made of, after every step of every timeline (src/asm/backtest/engine.py):
    the marked equities, the result, the fees and the counts, and what a buy enters and under which rules. */
module EngineNumbers {
  import opened Numeric
  import opened Domain
  import opened Ledger
  import opened Exits
  import opened Replay
  import opened Engine
  import F = Fills
  import H = History
  import G = Gates
  import D = Decision
  import LB = LedgerBook
  import LE = LedgerEquity
  import GM = GateMeaning
  import P = ProviderMeaning
  import S = EngineSound
  import M = EngineMeaning
  import EM = ExitMeaning

  // ---------------------------------------------------------------- every marked equity

  /** What a position is worth above its cost: its units at the clock's price, nothing without one. */
  function AboveCost(w: World, h: Holding, now: Time): real {
    var price := StateOf(w, now, h.mint, h.decimals).priceUsd;
    if price > 0.0 then Ui(h.amountRaw, h.decimals) * price - h.costBasis else 0.0
  }

  function AllAboveCost(w: World, positions: map<ResId, Holding>, ids: seq<ResId>, now: Time): real
    requires forall id :: id in ids ==> id in positions
  {
    if ids == [] then 0.0
    else AllAboveCost(w, positions, ids[..|ids| - 1], now) + AboveCost(w, positions[ids[|ids| - 1]], now)
  }

  /** Repricing some positions leaves the others alone. */
  lemma {:induction false} RepriceOthers(w: World, now: Time, positions: map<ResId, Holding>, ids: seq<ResId>,
                                         id: ResId)
    requires id !in ids
    ensures id in RepriceEach(w, now, positions, ids) <==> id in positions
    ensures id in positions ==> RepriceEach(w, now, positions, ids)[id] == positions[id]
  {
    if ids != [] { RepriceOthers(w, now, positions, ids[..|ids| - 1], id); }
  }

  lemma {:induction false} PaperIsAboveCost(w: World, now: Time, positions: map<ResId, Holding>, ids: seq<ResId>)
    requires forall id :: id in ids ==> id in positions
    requires forall i, j :: 0 <= i < j < |ids| ==> ids[i] != ids[j]
    ensures PaperEach(w, now, positions, ids) == AllAboveCost(w, positions, ids, now)
  {
    if ids != [] {
      var n := |ids| - 1;
      PaperIsAboveCost(w, now, positions, ids[..n]);
      RepriceOthers(w, now, positions, ids[..n], ids[n]);
    }
  }

  /** Repricing changes prices, not units or cost. */
  lemma {:induction false} RepricedAlike(w: World, now: Time, positions: map<ResId, Holding>, ids: seq<ResId>)
    ensures var after := RepriceEach(w, now, positions, ids);
            after.Keys == positions.Keys
            && forall id :: id in positions ==> after[id] == positions[id].(currentPrice := after[id].currentPrice)
  {
    if ids != [] { RepricedAlike(w, now, positions, ids[..|ids| - 1]); }
  }

  predicate OnlyRepriced(h: Holding, k: Holding) { k == h.(currentPrice := k.currentPrice) }

  lemma {:induction false} SameAboveCost(w: World, before: map<ResId, Holding>, after: map<ResId, Holding>,
                                         ids: seq<ResId>, now: Time)
    requires before.Keys == after.Keys && forall id :: id in ids ==> id in before
    requires forall id :: id in before ==> OnlyRepriced(before[id], after[id])
    ensures AllAboveCost(w, after, ids, now) == AllAboveCost(w, before, ids, now)
  {
    if ids != [] {
      var n := |ids| - 1;
      SameAboveCost(w, before, after, ids[..n], now);
      OneAboveCost(w, before[ids[n]], after[ids[n]], now);
    }
  }

  lemma OneAboveCost(w: World, h: Holding, k: Holding, now: Time)
    requires OnlyRepriced(h, k)
    ensures AboveCost(w, k, now) == AboveCost(w, h, now)
  {
  }

  /** The equity is the capital, the result of the closed trades, the fees they were charged on top of it, and what the
      open positions are worth above cost; less at most a millionth for each closed trade. */
  predicate IsEquity(equity: real, capital: real, result: real, exits: nat, fee: real, aboveCost: real) {
    LB.Drifts(capital + result + exits as real * fee + aboveCost, equity, exits)
  }

  ghost predicate EquityIs(w: World, d: Desk, now: Time) {
    && (forall id :: id in d.order ==> id in d.sim.positions)
    && IsEquity(d.sim.ledger.equity, w.cfg.capital, d.sim.tally.realized, |d.sim.tally.trades|, Fee(w),
                AllAboveCost(w, d.sim.positions, d.order, now))
  }

  lemma MarkedResult(b: LB.Book, s: Sim, capital: real, fee: real, unrealized: real)
    requires Agree(b, s, capital, fee)
    ensures IsEquity(AfterMark(s.ledger, unrealized).equity, capital, s.tally.realized, |s.tally.trades|, fee,
                     unrealized)
  {
    LE.MarkedEquity(b, capital, unrealized);
  }

  lemma PaperAfterMark(w: World, d: Desk, now: Time)
    requires S.Listed(d.order, d.sim.positions.Keys)
    ensures var after := MarkAt(w, d, now);
            && (forall id :: id in after.order ==> id in after.sim.positions)
            && PaperEach(w, now, d.sim.positions, d.order) == AllAboveCost(w, after.sim.positions, after.order, now)
            && after.sim.ledger == AfterMark(d.sim.ledger, PaperEach(w, now, d.sim.positions, d.order))
            && after.sim.tally.realized == d.sim.tally.realized && after.sim.tally.trades == d.sim.tally.trades
  {
    PaperIsAboveCost(w, now, d.sim.positions, d.order);
    RepricedAlike(w, now, d.sim.positions, d.order);
    SameAboveCost(w, d.sim.positions, RepriceEach(w, now, d.sim.positions, d.order), d.order, now);
  }

  lemma MarkMeans(w: World, d: Desk, now: Time, b: LB.Book, curve: seq<real>)
    requires S.Sound(w, d, now, b, curve)
    ensures EquityIs(w, MarkAt(w, d, now), now)
  {
    PaperAfterMark(w, d, now);
    MarkedResult(b, d.sim, w.cfg.capital, Fee(w), PaperEach(w, now, d.sim.positions, d.order));
  }

  /** So it is after every step of every timeline: for every point of the equity curve but the capital itself. */
  lemma EquityMeans(w: World, steps: seq<Step>)
    requires w.cfg.capital >= 0.0 && S.OwnIds(steps) && steps != []
    ensures var e := Play(w, Start(w.cfg), steps);
            e.clock.Some? && EquityIs(w, e.desk, e.clock.value)
  {
    var n := |steps| - 1;
    var b := SoundBefore(w, steps, n);
    StepMarks(w, Play(w, Start(w.cfg), steps[..n]), b, S.Curve(w, steps[..n]), steps[n]);
  }

  lemma SoundBefore(w: World, steps: seq<Step>, n: nat) returns (b: LB.Book)
    requires w.cfg.capital >= 0.0 && S.OwnIds(steps) && |steps| == n + 1
    ensures S.SoundEngine(w, Play(w, Start(w.cfg), steps[..n]), b, S.Curve(w, steps[..n])) && S.Ids(steps[n]) !! b.used
  {
    assert steps == steps[..n] + [steps[n]];
    b := S.PlaySound(w, steps[..n]);
    S.EarlierIds(steps[..n], steps[n]);
  }

  lemma StepMarks(w: World, e: Engine, b: LB.Book, curve: seq<real>, step: Step)
    requires S.SoundEngine(w, e, b, curve) && w.cfg.capital >= 0.0 && S.Ids(step) !! b.used
    ensures EquityIs(w, StepAt(w, e, step).desk, ClockAfter(w, e.clock, step))
  {
    var now := ClockAfter(w, e.clock, step);
    var c := S.TradedSound(w, e, b, curve, step);
    var traded := Traded(w, e, step).desk;
    c := S.TicksSound(w, traded, now, c, curve, traded.order);
    MarkMeans(w, TickAll(w, traded, now, traded.order), now, c, curve);
  }

  // ---------------------------------------------------------------- results, fees and counts

  function PnlOf(trades: seq<ClosedTrade>): real {
    if trades == [] then 0.0 else PnlOf(trades[..|trades| - 1]) + trades[|trades| - 1].pnl
  }

  lemma PnlAppend(trades: seq<ClosedTrade>, t: ClosedTrade)
    ensures PnlOf(trades + [t]) == PnlOf(trades) + t.pnl
  {
    assert (trades + [t])[..|trades|] == trades;
  }

  /** The reported result is the sum over the trades, every signal was approved or rejected, and every position has its
      token's decimals. */
  ghost predicate Proper(w: World, s: Sim) {
    && s.tally.realized == PnlOf(s.tally.trades) && s.tally.signals == s.tally.approved + s.tally.rejected
    && forall id :: id in s.positions ==> M.RightDecimals(w, s.positions[id])
  }

  lemma CloseProper(w: World, d: Desk, now: Time, id: ResId, reason: ExitReason, rung: Option<nat>, fraction: real)
    requires Proper(w, d.sim) && id in d.sim.positions
    ensures Proper(w, CloseAt(w, d, now, id, reason, rung, fraction).sim)
    ensures CloseAt(w, d, now, id, reason, rung, fraction).sim.tally.signals == d.sim.tally.signals
  {
    var x := ExitAt(w, d, now, id, reason, rung, fraction);
    var h := d.sim.positions[id];
    if Sells(h, x) { PnlAppend(d.sim.tally.trades, Closed(h, x, SaleOf(h, x), Fee(w))); }
  }

  lemma TickProper(w: World, d: Desk, now: Time, id: ResId)
    requires Proper(w, d.sim)
    ensures Proper(w, TickAt(w, d, now, id).sim) && TickAt(w, d, now, id).sim.tally.signals == d.sim.tally.signals
  {
    if id in d.sim.positions {
      var h := d.sim.positions[id];
      var m := StateOf(w, now, h.mint, h.decimals);
      if m.priceUsd > 0.0 && !m.stale {
        var marked := Marked(h, m.priceUsd, w.cfg.rules);
        assert Proper(w, Remark(d, id, marked).sim);
        match EvaluateExits(marked, w.cfg.rules, SignalsAt(w, m, h.wallet, now))
        case None =>
        case Some(i) => CloseProper(w, Remark(d, id, marked), now, id, i.reason, i.rung, i.fraction);
      }
    }
  }

  lemma {:induction false} TicksProper(w: World, d: Desk, now: Time, ids: seq<ResId>)
    requires Proper(w, d.sim)
    ensures Proper(w, TickAll(w, d, now, ids).sim) && TickAll(w, d, now, ids).sim.tally.signals == d.sim.tally.signals
  {
    if ids != [] {
      TicksProper(w, d, now, ids[..|ids| - 1]);
      TickProper(w, TickAll(w, d, now, ids[..|ids| - 1]), now, ids[|ids| - 1]);
    }
  }

  lemma {:induction false} MirrorsProper(w: World, d: Desk, now: Time, t: SourceTrade, ids: seq<ResId>)
    requires Proper(w, d.sim)
    ensures Proper(w, MirrorAll(w, d, now, t, ids).sim)
    ensures MirrorAll(w, d, now, t, ids).sim.tally.signals == d.sim.tally.signals
  {
    if ids != [] {
      MirrorsProper(w, d, now, t, ids[..|ids| - 1]);
      var mid, id := MirrorAll(w, d, now, t, ids[..|ids| - 1]), ids[|ids| - 1];
      if id in mid.sim.positions && Mirrors(t, mid.sim.positions[id]) {
        CloseProper(w, mid, now, id, Mirror, None, if t.action == Sell then 1.0 else 0.5);
      }
    }
  }

  lemma MarkProper(w: World, d: Desk, now: Time)
    requires Proper(w, d.sim)
    ensures Proper(w, MarkAt(w, d, now).sim) && MarkAt(w, d, now).sim.tally.signals == d.sim.tally.signals
  {
    RepricedAlike(w, now, d.sim.positions, d.order);
  }

  /** What a followed buy looks at: nothing it approves is stale or unpriced, so its token is known. */
  lemma KnownToken(w: World, now: Time, m: Mint, decimals: nat)
    requires StateOf(w, now, m, decimals).priceUsd > 0.0
    ensures m in w.histories && StateOf(w, now, m, decimals).decimals == w.histories[m].decimals
  {
  }

  lemma DecideProper(w: World, d: Desk, t: SourceTrade, c: G.Signal, decimals: nat)
    requires Proper(w, d.sim)
    requires Approves(w, d.sim.ledger, t, c) ==> t.mint in w.histories && decimals == w.histories[t.mint].decimals
    ensures Proper(w, DecideAt(w, d, t, c, decimals).sim)
    ensures DecideAt(w, d, t, c, decimals).sim.tally.signals == d.sim.tally.signals + 1
  {
  }

  lemma BuyProper(w: World, d: Desk, now: Time, t: SourceTrade, trader: G.Trader)
    requires Proper(w, d.sim)
    ensures Proper(w, BuyAt(w, d, now, t, trader).sim)
    ensures BuyAt(w, d, now, t, trader).sim.tally.signals == d.sim.tally.signals + 1
  {
    var c := SignalAt(w, now, D.Snapshot(d.sim.ledger), t, trader);
    if Approves(w, d.sim.ledger, t, c) { KnownToken(w, now, t.mint, t.decimals); }
    DecideProper(w, d, t, c, StateOf(w, now, t.mint, t.decimals).decimals);
  }

  lemma TradeProper(w: World, e: Engine, t: SourceTrade)
    requires e.clock.Some? && Proper(w, e.desk.sim)
    ensures Proper(w, TradeAt(w, e, t).desk.sim)
    ensures TradeAt(w, e, t).desk.sim.tally.signals == e.desk.sim.tally.signals + if IsBuy(w, t) then 1 else 0
  {
    if IsBuy(w, t) {
      BuyProper(w, e.desk, Later(e.clock, Detected(w, t)), t, w.cfg.traders[t.wallet]);
    } else if t.action == Sell || t.action == PartialSell {
      MirrorsProper(w, e.desk, e.clock.value, t, e.desk.order);
    }
  }

  function BuysIn(w: World, steps: seq<Step>): nat {
    if steps == [] then 0
    else
      var last := steps[|steps| - 1];
      BuysIn(w, steps[..|steps| - 1]) + if last.TradeStep? && IsBuy(w, last.trade) then 1 else 0
  }

  lemma StepProper(w: World, e: Engine, step: Step)
    requires Proper(w, e.desk.sim)
    ensures Proper(w, StepAt(w, e, step).desk.sim)
    ensures StepAt(w, e, step).desk.sim.tally.signals
         == e.desk.sim.tally.signals + if step.TradeStep? && IsBuy(w, step.trade) then 1 else 0
  {
    var now, traded := ClockAfter(w, e.clock, step), Traded(w, e, step).desk;
    if step.TradeStep? { TradeProper(w, Engine(Some(Later(e.clock, step.when)), e.desk), step.trade); }
    TicksProper(w, traded, now, traded.order);
    MarkProper(w, TickAll(w, traded, now, traded.order), now);
  }

  /** After every step of every timeline the result is the sum over the trades, and the signals counted are the buys of
      followed traders, each approved or rejected. */
  lemma {:induction false} TallyMeans(w: World, steps: seq<Step>)
    ensures var s := Play(w, Start(w.cfg), steps).desk.sim;
            Proper(w, s) && s.tally.signals == BuysIn(w, steps)
  {
    if steps != [] {
      TallyMeans(w, steps[..|steps| - 1]);
      StepProper(w, Play(w, Start(w.cfg), steps[..|steps| - 1]), steps[|steps| - 1]);
    }
  }

  /** If a close of that position at that moment sells, it pays the value of the executor's fill into cash, exactly when
      that did not fill at a price of zero. */
  ghost predicate PaysTheFill(w: World, d: Desk, id: ResId, now: Time, fraction: real, after: Desk)
    requires id in d.sim.positions
  {
    var fill := M.ExecutorFill(w, d.sim.positions[id], now, fraction, d.drawn);
    SellFill(w, d.sim.positions[id], now, fraction, d.drawn).Some? ==>
      fill.Some?
      && (after.sim.ledger.cash == d.sim.ledger.cash + fill.value.valueUsd <==> fill.value.price != 0.0)
  }

  lemma CloseBooksFill(w: World, d: Desk, id: ResId, now: Time, reason: ExitReason, rung: Option<nat>, fraction: real)
    requires id in d.sim.positions && M.RightDecimals(w, d.sim.positions[id])
    ensures PaysTheFill(w, d, id, now, fraction, CloseAt(w, d, now, id, reason, rung, fraction))
  {
    if SellFill(w, d.sim.positions[id], now, fraction, d.drawn).Some? {
      M.BooksTheFillsValue(w, d.sim.positions[id], now, fraction, d.drawn);
      M.CloseMeans(w, d, now, id, reason, rung, fraction);
    }
  }

  /** So it is with a close of any position at any moment of any run. */
  lemma ClosesBookFills(w: World, steps: seq<Step>, id: ResId, now: Time, reason: ExitReason, rung: Option<nat>,
                        fraction: real)
    ensures var d := Play(w, Start(w.cfg), steps).desk;
            id in d.sim.positions ==>
              PaysTheFill(w, d, id, now, fraction, CloseAt(w, d, now, id, reason, rung, fraction))
  {
    TallyMeans(w, steps);
    var d := Play(w, Start(w.cfg), steps).desk;
    if id in d.sim.positions { CloseBooksFill(w, d, id, now, reason, rung, fraction); }
  }

  // ---------------------------------------------------------------- buys

  /** A buy is counted once. It enters a position exactly when it is approved and its order fills with some units; then
      the position has those units, at the fill's price, and a fee is charged; cash goes down by what it cost. */
  lemma BuyMeans(w: World, d: Desk, t: SourceTrade, c: G.Signal, decimals: nat, b: LB.Book, curve: seq<real>, now: Time)
    requires S.Sound(w, d, now, b, curve) && t.id !in b.used
    ensures t.id !in d.sim.positions
    ensures var after := DecideAt(w, d, t, c, decimals).sim;
            var granted := Approves(w, d.sim.ledger, t, c);
            var size := if granted then PlanFor(w, d.sim.ledger, c).size else 0.0;
            var order := F.FillOrder(true, c.market.priceUsd, size, 0, decimals, w.cfg.analysisMs);
            var fill := F.Outcome(w.cfg.fills, order, c.impactPct, w.draws(d.drawn));
            && after.tally.approved == d.sim.tally.approved + (if granted then 1 else 0)
            && after.tally.rejected == d.sim.tally.rejected + (if granted then 0 else 1)
            && (t.id in after.positions <==> granted && fill.Some? && fill.value.outAmount > 0)
            && (t.id in after.positions ==>
                  var h := after.positions[t.id];
                  && h.amountRaw == fill.value.outAmount && h.decimals == decimals
                  && h.entryPrice == h.currentPrice == h.peakPrice == fill.value.price
                  && !h.trailingArmed && h.levelsHit == [] && h.realizedPnl == 0.0
                  && after.tally.fees == d.sim.tally.fees + Fee(w)
                  && after.ledger.cash == d.sim.ledger.cash - h.costBasis)
            && (t.id !in after.positions ==>
                  after.tally.fees == d.sim.tally.fees && after.ledger.cash == d.sim.ledger.cash)
            && DecideAt(w, d, t, c, decimals).order
               == if t.id in after.positions then d.order + [t.id] else d.order
  {
    S.UnusedId(b, d.sim, w.cfg.capital, Fee(w), t.id);
  }

  /** The rules a buy that is entered has met, on what the histories show at the clock: a followed and trusted trader, a
      fresh price that has not run away from the source's, an age within the limit, a liquid book, an impact and a
      token that are acceptable. */
  predicate KeepsTheRules(w: World, now: Time, t: SourceTrade, trader: G.Trader) {
    var m, g := StateOf(w, now, t.mint, t.decimals), w.cfg.gates;
    && t.action == Buy && t.mint in w.histories && !m.stale && m.priceUsd > 0.0 && GM.Trusted(trader, g)
    && t.price > 0.0
    && (var price := if t.quotedInSol then m.price else m.priceUsd;
        || price <= t.price + Percent(t.price, g.moveNormalPct)
        || price <= t.price + Percent(t.price, g.moveAcceptablePct)
        || price <= t.price + Percent(t.price, g.moveReducedPct)
        || price <= t.price + Percent(t.price, g.moveCautionPct))
    && (g.maxDetectionAgeMs >= 0 ==> now - t.at < (g.maxDetectionAgeMs + 1) * 1000)
    && m.liquidityUsd >= g.minLiquidityUsd && m.liquidityUsd > 0.0
    && w.histories[t.mint].riskScore <= g.maxTokenRisk
    && (m.tokenAgeSeconds.Some? ==> m.tokenAgeSeconds.value >= g.minTokenAge && m.tokenAgeSeconds.value >= 120)
  }

  /** The buy enters a position. */
  predicate Enters(w: World, d: Desk, now: Time, t: SourceTrade, trader: G.Trader) {
    t.id !in d.sim.positions && t.id in BuyAt(w, d, now, t, trader).sim.positions
  }

  /** The signal a buy was entered on: it was ready, and had an impact within the limit. */
  predicate EntersOn(w: World, d: Desk, now: Time, t: SourceTrade, trader: G.Trader, c: G.Signal) {
    && c == SignalAt(w, now, D.Snapshot(d.sim.ledger), t, trader) && c.solPriceUsd == w.setup.solPrice
    && GM.Ready(c, D.Snapshot(d.sim.ledger), w.cfg.mode, w.cfg.sizes)
    && c.impactPct.Some? && c.impactPct.value <= w.cfg.gates.maxSlippagePct
    && D.BaseSize(c, D.Snapshot(d.sim.ledger), w.cfg.mode, w.cfg.sizes)
       == D.TraderSize(trader, t.valueUsd, D.Snapshot(d.sim.ledger), w.cfg.mode, w.cfg.sizes)
  }

  lemma EnteredSignal(w: World, d: Desk, now: Time, t: SourceTrade, trader: G.Trader) returns (c: G.Signal)
    ensures Enters(w, d, now, t, trader) ==> EntersOn(w, d, now, t, trader, c)
  {
    var p := D.Snapshot(d.sim.ledger);
    c := SignalAt(w, now, p, t, trader);
    if Enters(w, d, now, t, trader) {
      assert Approves(w, d.sim.ledger, t, c);
      GM.AsksExactlyWhen(c, p, w.cfg.mode, w.cfg.gates, w.cfg.sizes);
    }
  }

  /** The quote a buy was judged by: at the size it was sized at before the gates, in whole lamports, and with an impact
      within the limit. */
  ghost predicate WellQuoted(w: World, d: Desk, now: Time, t: SourceTrade, trader: G.Trader, usd: real, lamports: nat) {
    var base := D.TraderSize(trader, t.valueUsd, D.Snapshot(d.sim.ledger), w.cfg.mode, w.cfg.sizes);
    var route := H.QuoteAt(w.histories, w.setup, now, SOL_MINT, t.mint, lamports, 0);
    && w.setup.solPrice > 0.0 && usd > 0.0 && IsNearest(lamports, usd, w.setup.solPrice)
    && base.Some? && GM.IsAsked(usd, base.value, D.Snapshot(d.sim.ledger), w.cfg.sizes)
    && route.Some? && route.value.priceImpactPct <= w.cfg.gates.maxSlippagePct
  }

  lemma BuysAreQuoted(w: World, d: Desk, now: Time, t: SourceTrade, trader: G.Trader)
    ensures Enters(w, d, now, t, trader) ==>
              exists usd: real, lamports: nat :: WellQuoted(w, d, now, t, trader, usd, lamports)
  {
    if Enters(w, d, now, t, trader) {
      var c := EnteredSignal(w, d, now, t, trader);
      var usd, lamports := QuotedSize(w, now, D.Snapshot(d.sim.ledger), t, trader, c);
      assert WellQuoted(w, d, now, t, trader, usd, lamports);
    }
  }

  predicate IsNearest(lamports: nat, usd: real, sol: real)
    requires sol > 0.0
  {
    var exact := usd / sol * Pow10(9);
    exact - 0.5 <= lamports as real <= exact + 0.5
  }

  lemma QuotedSize(w: World, now: Time, p: D.Portfolio, t: SourceTrade, trader: G.Trader, c: G.Signal)
    returns (usd: real, lamports: nat)
    requires c == SignalAt(w, now, p, t, trader) && GM.Ready(c, p, w.cfg.mode, w.cfg.sizes) && c.impactPct.Some?
    requires D.BaseSize(c, p, w.cfg.mode, w.cfg.sizes)
          == D.TraderSize(trader, t.valueUsd, p, w.cfg.mode, w.cfg.sizes)
    requires c.solPriceUsd == w.setup.solPrice
    ensures w.setup.solPrice > 0.0 && usd > 0.0 && IsNearest(lamports, usd, w.setup.solPrice)
    ensures var base := D.TraderSize(trader, t.valueUsd, p, w.cfg.mode, w.cfg.sizes);
            base.Some? && GM.IsAsked(usd, base.value, p, w.cfg.sizes)
    ensures c.impactPct == RouteIn(w, now, t.mint, lamports)
  {
    var base := D.BaseSize(c, p, w.cfg.mode, w.cfg.sizes).value;
    usd := D.FinalSize(base, 1.0, p, w.cfg.sizes);
    lamports := Lamports(usd, w.setup.solPrice);
    GM.AskedMeans(base, 1.0, p, w.cfg.sizes);
    NearestLamport(usd, w.setup.solPrice);
  }

  lemma NearestLamport(usd: real, sol: real)
    requires usd >= 0.0 && sol > 0.0
    ensures IsNearest(Lamports(usd, sol), usd, sol)
  {
  }

  lemma BuysKeepTheRules(w: World, d: Desk, now: Time, t: SourceTrade, trader: G.Trader)
    ensures Enters(w, d, now, t, trader) ==> KeepsTheRules(w, now, t, trader)
  {
    var c := EnteredSignal(w, d, now, t, trader);
    if Enters(w, d, now, t, trader) {
      assert Approves(w, d.sim.ledger, t, c);
      GM.AsksExactlyWhen(c, D.Snapshot(d.sim.ledger), w.cfg.mode, w.cfg.gates, w.cfg.sizes);
      KnownToken(w, now, t.mint, t.decimals);
    }
  }

  // ---------------------------------------------------------------- whole steps, when orders fill

  /** At this clock every order to sell that fraction of a position fills, if it is for some units and has a price. */
  ghost predicate AllFill(w: World, now: Time, fraction: real) {
    forall h: Holding, drawn: nat ::
      ToSell(h.amountRaw, fraction) > 0 && StateOf(w, now, h.mint, h.decimals).priceUsd > 0.0 ==>
        SellFill(w, h, now, fraction, drawn).Some?
  }

  ghost predicate HasUnits(positions: map<ResId, Holding>) {
    forall id :: id in positions ==> positions[id].amountRaw > 0
  }

  /** Nothing protective applies to a position at a fresh price. */
  predicate Unprotected(w: World, h: Holding, now: Time) {
    var m := StateOf(w, now, h.mint, h.decimals);
    m.stale || m.priceUsd <= 0.0
    || !EM.Protects(h, w.cfg.rules, M.RuleSignals(w, m.priceUsd, h.wallet, now))
  }

  lemma CloseLeavesUnits(w: World, d: Desk, now: Time, id: ResId, reason: ExitReason, rung: Option<nat>, fraction: real)
    requires id in d.sim.positions && HasUnits(d.sim.positions)
    ensures var after := CloseAt(w, d, now, id, reason, rung, fraction).sim.positions;
            && HasUnits(after) && S.OthersKept(d.sim.positions, after, id)
            && (id in after ==>
                  var h, k := d.sim.positions[id], after[id];
                  k == h.(amountRaw := k.amountRaw, costBasis := k.costBasis, realizedPnl := k.realizedPnl,
                          levelsHit := k.levelsHit))
  {
    S.CloseTouches(w, d, now, id, reason, rung, fraction);
    M.CloseMeans(w, d, now, id, reason, rung, fraction);
  }

  lemma StaysUnprotected(w: World, now: Time, h: Holding, k: Holding)
    requires k == h.(amountRaw := k.amountRaw, costBasis := k.costBasis, realizedPnl := k.realizedPnl,
                     levelsHit := k.levelsHit, currentPrice := k.currentPrice)
    requires Unprotected(w, h, now)
    ensures Unprotected(w, k, now)
  {
  }

  /** A marked position that a tick does not close is one nothing protective applies to. */
  lemma NotProtected(w: World, d: Desk, now: Time, id: ResId, marked: Holding, m: H.MarketState)
    requires AllFill(w, now, 1.0) && id in d.sim.positions && HasUnits(d.sim.positions) && d.sim.positions[id] == marked
    requires m == StateOf(w, now, marked.mint, marked.decimals) && m.priceUsd > 0.0 && !m.stale
    ensures var intent := EvaluateExits(marked, w.cfg.rules, M.RuleSignals(w, m.priceUsd, marked.wallet, now));
            && (intent.None? ==> Unprotected(w, marked, now))
            && (intent.Some? ==>
                  var i := intent.value;
                  var after := CloseAt(w, d, now, id, i.reason, i.rung, i.fraction).sim.positions;
                  HasUnits(after) && S.OthersKept(d.sim.positions, after, id)
                  && (id in after ==> Unprotected(w, after[id], now)))
  {
    var signals := M.RuleSignals(w, m.priceUsd, marked.wallet, now);
    EM.ExitsExactlyWhen(marked, w.cfg.rules, signals);
    var intent := EvaluateExits(marked, w.cfg.rules, signals);
    if intent.Some? {
      CloseLeavesUnits(w, d, now, id, intent.value.reason, intent.value.rung, intent.value.fraction);
      if EM.Protects(marked, w.cfg.rules, signals) {
        M.WholeSale(w, d, now, id, intent.value.reason, intent.value.rung);
      } else {
        var after := CloseAt(w, d, now, id, intent.value.reason, intent.value.rung, intent.value.fraction);
        if id in after.sim.positions { StaysUnprotected(w, now, marked, after.sim.positions[id]); }
      }
    }
  }

  lemma TickProtects(w: World, d: Desk, now: Time, id: ResId)
    requires AllFill(w, now, 1.0) && HasUnits(d.sim.positions)
    ensures var after := TickAt(w, d, now, id).sim.positions;
            && HasUnits(after) && S.OthersKept(d.sim.positions, after, id)
            && (id in after ==> Unprotected(w, after[id], now))
  {
    if id in d.sim.positions {
      var h := d.sim.positions[id];
      var m := StateOf(w, now, h.mint, h.decimals);
      if m.priceUsd > 0.0 && !m.stale {
        var marked := Marked(h, m.priceUsd, w.cfg.rules);
        NotProtected(w, Remark(d, id, marked), now, id, marked, m);
      }
    }
  }

  lemma {:induction false} TicksProtect(w: World, d: Desk, now: Time, ids: seq<ResId>)
    requires AllFill(w, now, 1.0) && HasUnits(d.sim.positions)
    ensures var after := TickAll(w, d, now, ids).sim.positions;
            && HasUnits(after) && after.Keys <= d.sim.positions.Keys
            && forall i :: 0 <= i < |ids| && ids[i] in after ==> Unprotected(w, after[ids[i]], now)
  {
    if ids != [] {
      var n := |ids| - 1;
      TicksProtect(w, d, now, ids[..n]);
      TickProtects(w, TickAll(w, d, now, ids[..n]), now, ids[n]);
      forall i | 0 <= i < |ids| && ids[i] in TickAll(w, d, now, ids).sim.positions
        ensures Unprotected(w, TickAll(w, d, now, ids).sim.positions[ids[i]], now)
      {
        if ids[i] != ids[n] { assert ids[..n][i] == ids[i]; }
      }
    }
  }

  ghost predicate NoneProtected(w: World, positions: map<ResId, Holding>, now: Time) {
    forall id :: id in positions ==> Unprotected(w, positions[id], now)
  }

  lemma AllTicksProtect(w: World, d: Desk, now: Time)
    requires AllFill(w, now, 1.0) && HasUnits(d.sim.positions) && S.Listed(d.order, d.sim.positions.Keys)
    ensures NoneProtected(w, TickAll(w, d, now, d.order).sim.positions, now)
  {
    TicksProtect(w, d, now, d.order);
    var after := TickAll(w, d, now, d.order).sim.positions;
    forall id | id in after ensures Unprotected(w, after[id], now) {
      assert id in d.order;
      var i :| 0 <= i < |d.order| && d.order[i] == id;
    }
  }

  lemma MarkKeepsUnprotected(w: World, d: Desk, now: Time)
    requires NoneProtected(w, d.sim.positions, now)
    ensures NoneProtected(w, MarkAt(w, d, now).sim.positions, now)
  {
    RepricedAlike(w, now, d.sim.positions, d.order);
    var after := MarkAt(w, d, now).sim.positions;
    forall id | id in after ensures Unprotected(w, after[id], now) {
      StaysUnprotected(w, now, d.sim.positions[id], after[id]);
    }
  }

  /** When orders fill, no position is left after a step to which a stop, a trailing stop or a lost trader applies at
      the clock's fresh price. */
  lemma StepProtects(w: World, e: Engine, step: Step, b: LB.Book, curve: seq<real>)
    requires S.SoundEngine(w, e, b, curve) && w.cfg.capital >= 0.0 && S.Ids(step) !! b.used
    requires AllFill(w, ClockAfter(w, e.clock, step), 1.0)
    ensures NoneProtected(w, StepAt(w, e, step).desk.sim.positions, ClockAfter(w, e.clock, step))
  {
    var now, traded := ClockAfter(w, e.clock, step), Traded(w, e, step).desk;
    var c := S.TradedSound(w, e, b, curve, step);
    AllTicksProtect(w, traded, now);
    MarkKeepsUnprotected(w, TickAll(w, traded, now, traded.order), now);
  }

  /** Positions with a price, and units. */
  ghost predicate AllPriced(w: World, positions: map<ResId, Holding>, now: Time) {
    forall id :: id in positions ==>
      positions[id].amountRaw > 0 && StateOf(w, now, positions[id].mint, positions[id].decimals).priceUsd > 0.0
  }

  lemma {:induction false} LiquidationEmpties(w: World, d: Desk, now: Time, ids: seq<ResId>)
    requires AllFill(w, now, 1.0) && AllPriced(w, d.sim.positions, now)
    ensures var after := LiquidateAll(w, d, now, ids).sim.positions;
            forall id :: id in after <==> id in d.sim.positions && id !in ids
    ensures var after := LiquidateAll(w, d, now, ids).sim.positions;
            forall id :: id in after ==> after[id] == d.sim.positions[id]
  {
    if ids != [] {
      var n := |ids| - 1;
      LiquidationEmpties(w, d, now, ids[..n]);
      var mid := LiquidateAll(w, d, now, ids[..n]);
      if ids[n] in mid.sim.positions { M.LiquidationMeans(w, mid, now, ids[n]); }
      assert ids == ids[..n] + [ids[n]];
    }
  }

  /** A run whose last orders fill ends with nothing open. */
  lemma FinishEmpties(w: World, e: Engine, when: Time, b: LB.Book, curve: seq<real>)
    requires S.SoundEngine(w, e, b, curve) && w.cfg.capital >= 0.0
    requires AllFill(w, Later(e.clock, when), 1.0) && AllPriced(w, e.desk.sim.positions, Later(e.clock, when))
    ensures FinishAt(w, e, when).desk.sim.positions == map[]
  {
    var now := Later(e.clock, when);
    S.AdvanceSound(w, e, b, curve, when);
    LiquidationEmpties(w, e.desk, now, e.desk.order);
    var left := LiquidateAll(w, e.desk, now, e.desk.order);
    RepricedAlike(w, now, left.sim.positions, left.order);
  }

  lemma {:induction false} MirrorsClear(w: World, d: Desk, now: Time, t: SourceTrade, ids: seq<ResId>)
    requires AllFill(w, now, 1.0) && AllPriced(w, d.sim.positions, now) && t.action == Sell
    ensures var after := MirrorAll(w, d, now, t, ids).sim.positions;
            forall id :: id in after <==>
              id in d.sim.positions && (id !in ids || !M.Copies(d.sim.positions[id], t))
    ensures var after := MirrorAll(w, d, now, t, ids).sim.positions;
            forall id :: id in after ==> after[id] == d.sim.positions[id]
  {
    if ids != [] {
      var n := |ids| - 1;
      MirrorsClear(w, d, now, t, ids[..n]);
      var mid := MirrorAll(w, d, now, t, ids[..n]);
      if ids[n] in mid.sim.positions { M.MirrorMeans(w, mid, now, t, ids[n]); }
      assert ids == ids[..n] + [ids[n]];
    }
  }

  /** When orders fill, a source's sale closes every position that copies it in that token, and no other. */
  lemma SaleClearsCopies(w: World, e: Engine, t: SourceTrade, b: LB.Book, curve: seq<real>)
    requires S.SoundEngine(w, e, b, curve) && e.clock.Some? && t.action == Sell
    requires AllFill(w, e.clock.value, 1.0) && AllPriced(w, e.desk.sim.positions, e.clock.value)
    ensures var before, after := e.desk.sim.positions, TradeAt(w, e, t).desk.sim.positions;
            forall id :: id in after <==> id in before && !M.Copies(before[id], t)
  {
    MirrorsClear(w, e.desk, e.clock.value, t, e.desk.order);
  }

  /** What a source's part sale leaves of the positions listed: half the units of those that copy it, rounded up. */
  ghost predicate Halved(t: SourceTrade, ids: seq<ResId>, before: map<ResId, Holding>, after: map<ResId, Holding>) {
    && after.Keys == before.Keys
    && forall id :: id in before ==>
         after[id].amountRaw == (if id in ids && M.Copies(before[id], t)
                                 then before[id].amountRaw - before[id].amountRaw / 2 else before[id].amountRaw)
         && after[id].mint == before[id].mint && after[id].wallet == before[id].wallet
         && after[id].decimals == before[id].decimals
  }

  lemma HalvesOne(w: World, d: Desk, now: Time, t: SourceTrade, id: ResId)
    requires AllFill(w, now, 0.5) && AllPriced(w, d.sim.positions, now) && t.action == PartialSell
    ensures Halved(t, [id], d.sim.positions, MirrorAt(w, d, now, t, id).sim.positions)
  {
    if id in d.sim.positions && Mirrors(t, d.sim.positions[id]) {
      var h := d.sim.positions[id];
      M.Half(h.amountRaw);
      M.MirrorMeans(w, d, now, t, id);
      S.CloseTouches(w, d, now, id, Mirror, None, 0.5);
      if h.amountRaw < 2 { M.CloseMeans(w, d, now, id, Mirror, None, 0.5); }
    }
  }

  lemma HalvedMore(t: SourceTrade, ids: seq<ResId>, id: ResId, before: map<ResId, Holding>, mid: map<ResId, Holding>,
                   after: map<ResId, Holding>)
    requires Halved(t, ids, before, mid) && Halved(t, [id], mid, after) && id !in ids
    ensures Halved(t, ids + [id], before, after)
  {
  }

  lemma HalvedPriced(w: World, now: Time, t: SourceTrade, ids: seq<ResId>, before: map<ResId, Holding>,
                     after: map<ResId, Holding>)
    requires Halved(t, ids, before, after) && AllPriced(w, before, now)
    ensures AllPriced(w, after, now)
  {
  }

  lemma {:induction false} MirrorsHalve(w: World, d: Desk, now: Time, t: SourceTrade, ids: seq<ResId>)
    requires AllFill(w, now, 0.5) && AllPriced(w, d.sim.positions, now) && t.action == PartialSell
    requires forall i, j :: 0 <= i < j < |ids| ==> ids[i] != ids[j]
    ensures Halved(t, ids, d.sim.positions, MirrorAll(w, d, now, t, ids).sim.positions)
  {
    if ids != [] {
      var n := |ids| - 1;
      MirrorsHalve(w, d, now, t, ids[..n]);
      var mid := MirrorAll(w, d, now, t, ids[..n]);
      HalvedPriced(w, now, t, ids[..n], d.sim.positions, mid.sim.positions);
      HalvesOne(w, mid, now, t, ids[n]);
      HalvedMore(t, ids[..n], ids[n], d.sim.positions, mid.sim.positions,
                 MirrorAt(w, mid, now, t, ids[n]).sim.positions);
      assert ids == ids[..n] + [ids[n]];
    }
  }

  /** When orders fill, a source's part sale halves exactly the positions that copy it in that token. */
  lemma PartSaleHalvesCopies(w: World, e: Engine, t: SourceTrade, b: LB.Book, curve: seq<real>)
    requires S.SoundEngine(w, e, b, curve) && e.clock.Some? && t.action == PartialSell
    requires AllFill(w, e.clock.value, 0.5) && AllPriced(w, e.desk.sim.positions, e.clock.value)
    ensures Halved(t, e.desk.order, e.desk.sim.positions, TradeAt(w, e, t).desk.sim.positions)
    ensures forall id :: id in e.desk.sim.positions ==> id in e.desk.order
  {
    MirrorsHalve(w, e.desk, e.clock.value, t, e.desk.order);
  }
}
