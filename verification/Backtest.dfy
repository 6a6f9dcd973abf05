/** The backtest engine (src/asm/backtest/engine.py): a timeline of source trades and price points is replayed
    through the decision engine, the ledger and the exit rules, against a provider that cannot see past
    the clock. Each method performs a step of module Engine; what whole runs of them keep is proved in
    EngineSound and EngineBlind. */
module Backtest {
  import opened Numeric
  import opened Domain
  import opened Ledger
  import opened Exits
  import opened Drawdown
  import opened Replay
  import opened Engine
  import opened Timeline
  import F = Fills
  import H = History
  import G = Gates
  import D = Decision

  class BacktestEngine {
    const cfg: Config
    const ledger: RiskLedger
    const provider: H.HistoricalDataProvider
    const mints: seq<Mint>
    const engine: D.DecisionEngine
    const executor: F.BacktestExecutor
    var positions: map<ResId, Holding>
    var order: seq<ResId>
    var clock: Option<Time>
    var tally: Tally

    ghost function Around(): World { World(cfg, provider.histories, provider.setup, executor.draws) }

    ghost predicate Wired() { engine.ledger == ledger && executor.model == cfg.fills }

    ghost function Books(): Sim
      reads this, ledger
    {
      Sim(ledger.State(), positions, tally)
    }

    ghost function State(): Engine
      reads this, ledger, executor
    {
      Engine(clock, Now())
    }

    ghost function Now(): Desk
      reads this, ledger, executor
    {
      Desk(Books(), order, executor.drawn)
    }

    /** The clock is set and the provider answers from it. */
    ghost predicate InTime()
      reads this`clock, provider`now
    {
      clock.Some? && provider.now == clock.value
    }

    /** `listed` is the order in which the dictionary of histories lists its keys. */
    constructor (settings: Config, raw: H.Histories, listed: seq<Mint>, setup: H.Setup, draws: nat -> real,
                 started: Time)
      ensures Wired() && State() == Start(settings) && mints == listed
      ensures Around() == World(settings, H.LoadAll(raw), setup, draws)
      ensures fresh(ledger) && fresh(provider) && fresh(executor)
    {
      cfg, mints := settings, listed;
      var risk := new RiskLedger.Bootstrap(settings.capital);
      ledger := risk;
      provider := new H.HistoricalDataProvider(raw, setup, started);
      engine := new D.DecisionEngine(risk);
      executor := new F.BacktestExecutor(settings.fills, draws);
      positions, order, clock := map[], [], None;
      tally := Tally(0, 0, 0, 0.0, 0.0, [], Meter(settings.capital, 0.0));
    }

    /** The clock only ever moves forward, and the provider follows it. */
    method Advance(when: Time)
      modifies this`clock, provider`now
      ensures InTime() && clock == Some(Later(old(clock), when))
    {
      if clock.None? || when > clock.value {
        clock := Some(when);
      }
      provider.SetClock(clock.value);
    }

    // ---------------------------------------------------------------- closing

    /** One attempt to sell `fraction` of a position at the clock's price. */
    method Close(id: ResId, reason: ExitReason, rung: Option<nat>, fraction: real)
      requires Wired() && InTime() && id in positions
      modifies this`positions, this`order, this`tally, ledger, provider`misses, executor
      ensures Now() == CloseAt(Around(), old(Now()), clock.value, id, reason, rung, fraction)
    {
      var x := Offer(id, reason, rung, fraction);
      Settle(x);
    }

    /** The order goes to the executor, if there is anything to sell at any price. */
    method Offer(id: ResId, reason: ExitReason, rung: Option<nat>, fraction: real) returns (x: Exit)
      requires Wired() && InTime() && id in positions
      modifies provider`misses, executor
      ensures x == ExitAt(Around(), old(Now()), clock.value, id, reason, rung, fraction)
      ensures executor.drawn == old(executor.drawn) + Draws(Around(), positions[id], clock.value, fraction)
    {
      var price, fill := TrySell(positions[id], fraction);
      x := Exit(id, clock.value, reason, rung, fraction, price, fill);
    }

    method TrySell(h: Holding, fraction: real) returns (price: real, fill: Option<real>)
      requires Wired() && InTime()
      modifies provider`misses, executor
      ensures price == MarketPrice(Around(), h, clock.value, fraction)
      ensures fill == SellFill(Around(), h, clock.value, fraction, old(executor.drawn))
      ensures executor.drawn == old(executor.drawn) + Draws(Around(), h, clock.value, fraction)
    {
      var amount := ToSell(h.amountRaw, fraction);
      if amount == 0 { return 0.0, None; }
      var market := provider.GetMarketState(h.mint, h.decimals);
      price := market.priceUsd;
      if price <= 0.0 { return price, None; }
      var route := AskRoute(h.mint, amount);
      var f := executor.Execute(SellOrder(h, amount, market), route);
      fill := if f.Some? then Some(f.value.price) else None;
    }

    method AskRoute(mint: Mint, amount: nat) returns (impactPct: Option<real>)
      requires InTime()
      modifies provider`misses
      ensures impactPct == RouteOut(Around(), clock.value, mint, amount)
    {
      var quote := provider.GetQuote(mint, SOL_MINT, amount, 0);
      impactPct := if quote.Some? then Some(quote.value.priceImpactPct) else None;
    }

    method Settle(x: Exit)
      requires Wired() && x.id in positions
      modifies this`positions, this`order, this`tally, ledger
      ensures Books() == AfterClose(old(Books()), Fee(Around()), x)
      ensures order == if x.id in positions then old(order) else Without(old(order), x.id)
    {
      if !Sells(positions[x.id], x) { return; }
      Post(x, positions[x.id], SaleOf(positions[x.id], x));
    }

    /** A filled sale: ledger and result first, then the position. */
    method Post(x: Exit, h: Holding, sale: Sale)
      requires Wired() && sale.amount <= h.amountRaw
      modifies this`positions, this`order, this`tally, ledger
      ensures Books() == AfterSale(old(Books()), Fee(Around()), x, h, sale)
      ensures order == if x.id in positions then old(order) else Without(old(order), x.id)
    {
      PostResult(x, h, sale);
      if sale.fully {
        positions, order := positions - {x.id}, Without(order, x.id);
      } else {
        positions := positions[x.id := Remaining(h, sale, F.FeeUsd(executor.model))];
      }
    }

    method PostResult(x: Exit, h: Holding, sale: Sale)
      modifies this`tally, ledger
      ensures ledger.State() == SoldLedger(old(ledger.State()), h, sale, F.FeeUsd(executor.model))
      ensures tally == SoldTally(old(tally), x, h, sale, F.FeeUsd(executor.model))
    {
      var fee := F.FeeUsd(executor.model);
      var net := Net(sale, fee);
      ledger.ReleasePosition(h.mint, h.wallet, sale.proceeds - net - fee, net, sale.proceeds, sale.fully);
      tally := tally.(realized := tally.realized + net, fees := tally.fees + fee,
                      trades := tally.trades + [Closed(h, x, sale, fee)]);
    }

    // ---------------------------------------------------------------- exits

    /** Marks one position and attempts exactly the exit its rules ask for. */
    method TickExit(id: ResId)
      requires Wired() && InTime()
      modifies this`positions, this`order, this`tally, ledger, provider`misses, executor
      ensures Now() == TickAt(Around(), old(Now()), clock.value, id)
    {
      if id !in positions { return; }
      var h := positions[id];
      var m := provider.GetMarketState(h.mint, h.decimals);
      if m.priceUsd <= 0.0 || m.stale { return; }
      var marked := Marked(h, m.priceUsd, cfg.rules);
      positions := positions[id := marked];
      var trader := if h.wallet in cfg.traders then Some(cfg.traders[h.wallet].status) else None;
      var intent := EvaluateExits(marked, cfg.rules, Signals(m.priceUsd, None, trader, None, clock.value));
      if intent.None? { return; }
      Close(id, intent.value.reason, intent.value.rung, intent.value.fraction);
    }

    /** Every position open now, in the order they were entered. */
    method TickExits()
      requires Wired() && InTime()
      modifies this`positions, this`order, this`tally, ledger, provider`misses, executor
      ensures Now() == TickAll(Around(), old(Now()), clock.value, old(order))
    {
      var ids := order;
      for n := 0 to |ids|
        invariant Now() == TickAll(Around(), old(Now()), clock.value, ids[..n])
      {
        assert ids[..n + 1][..n] == ids[..n];
        TickExit(ids[n]);
      }
      assert ids[..|ids|] == ids;
    }

    /** The source sold: sell all of ours, or half when it sold in part. */
    method MirrorExit(t: SourceTrade)
      requires Wired() && InTime()
      modifies this`positions, this`order, this`tally, ledger, provider`misses, executor
      ensures Now() == MirrorAll(Around(), old(Now()), clock.value, t, old(order))
    {
      var ids := order;
      for n := 0 to |ids|
        invariant Now() == MirrorAll(Around(), old(Now()), clock.value, t, ids[..n])
      {
        assert ids[..n + 1][..n] == ids[..n];
        if ids[n] in positions && Mirrors(t, positions[ids[n]]) {
          Close(ids[n], Mirror, None, if t.action == Sell then 1.0 else 0.5);
        }
      }
      assert ids[..|ids|] == ids;
    }

    method Liquidate()
      requires Wired() && InTime()
      modifies this`positions, this`order, this`tally, ledger, provider`misses, executor
      ensures Now() == LiquidateAll(Around(), old(Now()), clock.value, old(order))
    {
      var ids := order;
      for n := 0 to |ids|
        invariant Now() == LiquidateAll(Around(), old(Now()), clock.value, ids[..n])
      {
        assert ids[..n + 1][..n] == ids[..n];
        if ids[n] in positions { Close(ids[n], Manual, None, 1.0); }
      }
      assert ids[..|ids|] == ids;
    }

    // ---------------------------------------------------------------- marks

    /** One position at the provider's price, and what it is worth above its cost. */
    method RepriceOne(id: ResId) returns (paper: real)
      requires InTime() && id in positions
      modifies this`positions, provider`misses
      ensures var h := old(positions)[id];
              var price := PriceAt(Around(), h, clock.value);
              positions == old(positions)[id := Repriced(h, price)] && paper == Paper(h, price)
    {
      var h := positions[id];
      var m := provider.GetMarketState(h.mint, h.decimals);
      if m.priceUsd <= 0.0 { return 0.0; }
      h := h.(currentPrice := m.priceUsd);
      positions := positions[id := h];
      paper := MarketValue(h) - h.costBasis;
    }

    /** Reprices every position and adds up what they are worth above cost. */
    method Reprice() returns (unrealized: real)
      requires InTime()
      modifies this`positions, provider`misses
      ensures positions == RepriceEach(Around(), clock.value, old(positions), order)
      ensures unrealized == PaperEach(Around(), clock.value, old(positions), order)
    {
      unrealized := 0.0;
      for n := 0 to |order|
        invariant positions == RepriceEach(Around(), clock.value, old(positions), order[..n])
        invariant unrealized == PaperEach(Around(), clock.value, old(positions), order[..n])
      {
        assert order[..n + 1][..n] == order[..n];
        if order[n] in positions {
          var paper := RepriceOne(order[n]);
          unrealized := unrealized + paper;
        }
      }
      assert order[..|order|] == order;
    }

    /** The ledger is marked with that sum, and the meter reads the equity. */
    method Mark()
      requires InTime()
      modifies this`positions, this`tally, ledger, provider`misses
      ensures Now() == MarkAt(Around(), old(Now()), clock.value)
    {
      var unrealized := Reprice();
      var equity, _ := ledger.Mark(unrealized);
      tally := tally.(meter := Observe(tally.meter, equity));
    }

    // ---------------------------------------------------------------- entries

    /** What the decision looks up about a trade: the market and the token's risk at the clock, and, if it
        gets that far, a quote at the provisional size. */
    method LookUp(t: SourceTrade, trader: G.Trader) returns (c: G.Signal, decimals: nat)
      requires InTime()
      modifies provider`misses
      ensures c == SignalAt(Around(), clock.value, D.Snapshot(ledger.State()), t, trader)
      ensures decimals == StateOf(Around(), clock.value, t.mint, t.decimals).decimals
    {
      var m := provider.GetMarketState(t.mint, t.decimals);
      decimals := m.decimals;
      var risk := RiskAt(World(cfg, provider.histories, provider.setup, executor.draws), t.mint, m.tokenAgeSeconds);
      c := G.Signal(trader, t.action == Buy, t.price, t.quotedInSol, t.valueUsd, t.at, clock.value,
                    G.Market(m.price, m.priceUsd, m.liquidityUsd, 0.0, m.tokenAgeSeconds, m.stale),
                    Some(risk), None, provider.setup.solPrice, 0);
      var portfolio := D.Portfolio(ledger.risk.cash + ledger.risk.deployed + ledger.risk.unrealized, ledger.risk.cash);
      var provisional := Provisional(cfg, c, portfolio);
      if provisional.None? { return; }
      var quote := provider.GetQuote(SOL_MINT, t.mint, Lamports(provisional.value, c.solPriceUsd), 0);
      if quote.Some? { c := c.(impactPct := Some(quote.value.priceImpactPct)); }
    }

    /** The decision, counted; an approved order is reserved. */
    method Decide(t: SourceTrade, c: G.Signal) returns (granted: Option<D.Order>)
      requires Wired()
      modifies this`tally, ledger
      ensures granted.Some? <==> old(Approves(Around(), ledger.State(), t, c))
      ensures granted.Some? ==> granted.value.size == old(PlanFor(Around(), ledger.State(), c)).size
      ensures Books() == if granted.Some? then Reserving(Around(), old(Books()), t, granted.value.size)
                         else Rejecting(old(Books()))
    {
      granted := engine.EvaluateEntry(c, cfg.mode, cfg.gates, cfg.sizes, cfg.control, cfg.limits,
                                      t.id, t.mint, t.wallet);
      if granted.None? {
        tally := tally.(signals := tally.signals + 1, rejected := tally.rejected + 1);
      } else {
        tally := tally.(signals := tally.signals + 1, approved := tally.approved + 1);
      }
    }

    /** The reserved order becomes a position at its fill, or is given back. */
    method PostFill(e: Entry, fill: Option<F.Fill>)
      requires Wired()
      modifies this`positions, this`order, this`tally, ledger
      ensures Books() == AfterFill(old(Books()), Fee(Around()), e, fill)
      ensures order == if Filled(fill) then old(order) + [e.id] else old(order)
    {
      if fill.None? || fill.value.outAmount <= 0 {
        var _ := ledger.Release(e.id);
        return;
      }
      var _ := ledger.Commit(e.id, fill.value.valueUsd);
      tally := tally.(fees := tally.fees + F.FeeUsd(executor.model));
      positions := positions[e.id := Bought(e, fill.value)];
      order := order + [e.id];
    }

    method FillBuy(c: G.Signal, e: Entry) returns (fill: Option<F.Fill>)
      requires Wired()
      modifies executor
      ensures fill == BuyFill(Around(), c, e, old(executor.drawn))
      ensures executor.drawn == old(executor.drawn) + if c.impactPct.Some? then 1 else 0
    {
      var o := F.FillOrder(true, c.market.priceUsd, e.size, 0, e.decimals, cfg.analysisMs);
      fill := executor.Execute(o, c.impactPct);
    }

    /** Once its size is reserved, a buy is filled at that size or given back. */
    method EnterBuy(t: SourceTrade, c: G.Signal, size: real, decimals: nat, ghost before: Sim)
      requires Wired() && Books() == Reserving(Around(), before, t, size)
      modifies this`positions, this`order, this`tally, ledger, executor
      ensures Now() == EnterAt(Around(), Desk(before, old(order), old(executor.drawn)), t, c, size, decimals)
    {
      var e := Entry(t.id, t.mint, t.wallet, size, decimals, t.at + cfg.detectionLatency);
      var fill := FillBuy(c, e);
      PostFill(e, fill);
    }

    /** A buy, once its signal is known: rejected and counted, or reserved and entered. */
    method DecideBuy(t: SourceTrade, c: G.Signal, decimals: nat)
      requires Wired()
      modifies this`positions, this`order, this`tally, ledger, executor
      ensures Now() == DecideAt(Around(), old(Now()), t, c, decimals)
    {
      ghost var before := Books();
      var granted := Decide(t, c);
      if granted.Some? { EnterBuy(t, c, granted.value.size, decimals, before); }
    }

    method OnBuy(t: SourceTrade, trader: G.Trader)
      requires Wired() && InTime()
      modifies this`positions, this`order, this`tally, ledger, provider`misses, executor
      ensures Now() == BuyAt(Around(), old(Now()), clock.value, t, trader)
    {
      var c, decimals := LookUp(t, trader);
      DecideBuy(t, c, decimals);
    }

    /** Detection takes time, so the clock moves before a buy is decided. */
    method Detect(t: SourceTrade, trader: G.Trader)
      requires Wired() && InTime()
      modifies this`positions, this`order, this`tally, this`clock, ledger, provider, executor
      ensures InTime() && clock == Some(Later(old(clock), Detected(Around(), t)))
      ensures Now() == BuyAt(Around(), old(Now()), clock.value, t, trader)
    {
      Advance(t.at + cfg.detectionLatency);
      OnBuy(t, trader);
    }

    /** A followed trader's buy is decided; a sale is mirrored at once. */
    method OnSourceTrade(t: SourceTrade)
      requires Wired() && InTime()
      modifies this`positions, this`order, this`tally, this`clock, ledger, provider, executor
      ensures InTime() && State() == TradeAt(Around(), old(State()), t)
    {
      if t.wallet in cfg.traders && t.action == Buy {
        Detect(t, cfg.traders[t.wallet]);
      } else if t.action == Sell || t.action == PartialSell {
        MirrorExit(t);
      }
    }

    // ---------------------------------------------------------------- the run

    method PlayStep(step: Step)
      requires Wired()
      modifies this, ledger, provider, executor
      ensures InTime() && State() == StepAt(Around(), old(State()), step)
    {
      Advance(step.when);
      if step.TradeStep? { OnSourceTrade(step.trade); }
      TickExits();
      Mark();
    }

    /** Sorts the trades, builds the timeline, replays it, and closes whatever is still open at its end. */
    method Run(trades: seq<SourceTrade>)
      requires Wired() && State() == Start(cfg)
      modifies this, ledger, provider, executor
      ensures State() == RunOf(Around(), mints, trades)
    {
      if trades == [] { return; }
      var timeline := BuildTimeline(provider.histories, mints, SortedOnes(trades), cfg.rules.maxHoldSeconds);
      PlanNotEmpty(provider.histories, mints, SortedOnes(trades), cfg.rules.maxHoldSeconds);
      ReplayAll(timeline);
      Advance(timeline[|timeline| - 1].when);
      Liquidate();
      Mark();
    }

    method ReplayAll(timeline: seq<Step>)
      requires Wired()
      modifies this, ledger, provider, executor
      ensures State() == Play(Around(), old(State()), timeline)
    {
      for n := 0 to |timeline|
        invariant State() == Play(Around(), old(State()), timeline[..n])
      {
        assert timeline[..n + 1][..n] == timeline[..n];
        PlayStep(timeline[n]);
      }
      assert timeline[..|timeline|] == timeline;
    }
  }
}
