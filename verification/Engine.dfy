/** What a backtest does, step by step, as functions of its state (src/asm/backtest/engine.py): every
    lookup goes to the token histories at the simulated clock. The class in module Backtest performs
    these steps; the modules EngineSound and EngineBlind prove what whole runs of them keep. */
module Engine {
  import opened Numeric
  import opened Domain
  import opened Ledger
  import opened Exits
  import opened Drawdown
  import opened Replay
  import F = Fills
  import H = History
  import G = Gates
  import D = Decision

  datatype Action = Buy | Sell | PartialSell | OtherAction

  datatype SourceTrade = SourceTrade(id: ResId, at: Time, mint: Mint, wallet: Wallet, action: Action, decimals: nat,
                                     price: real, quotedInSol: bool, valueUsd: real)

  datatype Step = PriceStep(when: Time) | TradeStep(when: Time, trade: SourceTrade)

  datatype Config = Config(
    capital: real, detectionLatency: Time, analysisMs: int, control: Control, limits: Limits, rules: ExitRules,
    gates: G.CopyRules, sizes: D.SizeRules, mode: D.SizingMode, traders: map<Wallet, G.Trader>, fills: F.FillModel)

  /** Everything a run depends on besides its timeline; `draws` is the seeded random stream. */
  datatype World = World(cfg: Config, histories: H.Histories, setup: H.Setup, draws: nat -> real)

  /** The state between lookups: positions in the order they were entered, and how many draws are used. */
  datatype Desk = Desk(sim: Sim, order: seq<ResId>, drawn: nat)

  datatype Engine = Engine(clock: Option<Time>, desk: Desk)

  const SOL_MINT := "So11111111111111111111111111111111111111112"

  function Start(cfg: Config): Engine {
    Engine(None, Desk(Sim(Fresh(cfg.capital), map[], Tally(0, 0, 0, 0.0, 0.0, [], Meter(cfg.capital, 0.0))), [], 0))
  }

  function Fee(w: World): real { F.FeeUsd(w.cfg.fills) }

  function StateOf(w: World, now: Time, mint: Mint, decimals: nat): H.MarketState {
    H.StateAt(w.histories, w.setup, now, mint, decimals)
  }

  // ---------------------------------------------------------------- closing

  /** The impact of the route out of a position, if there is one. */
  function RouteOut(w: World, now: Time, mint: Mint, amount: nat): Option<real> {
    match H.QuoteAt(w.histories, w.setup, now, mint, SOL_MINT, amount, 0)
    case None => None
    case Some(quote) => Some(quote.priceImpactPct)
  }

  /** The price a close looks up, once there is anything to sell. */
  function MarketPrice(w: World, h: Holding, now: Time, fraction: real): real {
    if ToSell(h.amountRaw, fraction) == 0 then 0.0 else StateOf(w, now, h.mint, h.decimals).priceUsd
  }

  /** Whether a close gets as far as the executor. */
  predicate Offers(w: World, h: Holding, now: Time, fraction: real) {
    ToSell(h.amountRaw, fraction) > 0 && MarketPrice(w, h, now, fraction) > 0.0
  }

  function SellOrder(h: Holding, amount: nat, m: H.MarketState): F.FillOrder {
    F.FillOrder(false, m.priceUsd, Scaled(Ui(amount, h.decimals), m.priceUsd), amount, m.decimals, 0)
  }

  /** What becomes of that order with the next draw. */
  function SellFill(w: World, h: Holding, now: Time, fraction: real, drawn: nat): Option<real> {
    if !Offers(w, h, now, fraction) then None
    else
      var amount := ToSell(h.amountRaw, fraction);
      match F.Outcome(w.cfg.fills, SellOrder(h, amount, StateOf(w, now, h.mint, h.decimals)),
                      RouteOut(w, now, h.mint, amount), w.draws(drawn))
      case None => None
      case Some(fill) => Some(fill.price)
  }

  function ExitAt(w: World, d: Desk, now: Time, id: ResId, reason: ExitReason, rung: Option<nat>, fraction: real): Exit
    requires id in d.sim.positions
  {
    var h := d.sim.positions[id];
    Exit(id, now, reason, rung, fraction, MarketPrice(w, h, now, fraction), SellFill(w, h, now, fraction, d.drawn))
  }

  function Draws(w: World, h: Holding, now: Time, fraction: real): nat {
    if Offers(w, h, now, fraction) && RouteOut(w, now, h.mint, ToSell(h.amountRaw, fraction)).Some? then 1 else 0
  }

  function Without(order: seq<ResId>, id: ResId): seq<ResId> {
    if order == [] then []
    else Without(order[..|order| - 1], id) + if order[|order| - 1] == id then [] else [order[|order| - 1]]
  }

  /** One attempt to sell `fraction` of a position. */
  function CloseAt(w: World, d: Desk, now: Time, id: ResId, reason: ExitReason, rung: Option<nat>, fraction: real): Desk
    requires id in d.sim.positions
  {
    Closing(d, Fee(w), ExitAt(w, d, now, id, reason, rung, fraction), Draws(w, d.sim.positions[id], now, fraction))
  }

  function Closing(d: Desk, fee: real, x: Exit, draws: nat): Desk
    requires x.id in d.sim.positions
  {
    var sim := AfterClose(d.sim, fee, x);
    Desk(sim, if x.id in sim.positions then d.order else Without(d.order, x.id), d.drawn + draws)
  }

  // ---------------------------------------------------------------- exits

  /** A backtest knows no exit liquidity and no pending mirror signal. */
  function SignalsAt(w: World, m: H.MarketState, wallet: Wallet, now: Time): Signals {
    Signals(m.priceUsd, None, if wallet in w.cfg.traders then Some(w.cfg.traders[wallet].status) else None, None, now)
  }

  function Remark(d: Desk, id: ResId, h: Holding): Desk {
    d.(sim := d.sim.(positions := d.sim.positions[id := h]))
  }

  /** Marks a position at a fresh price and attempts the exit its rules ask for. */
  function TickAt(w: World, d: Desk, now: Time, id: ResId): Desk {
    if id !in d.sim.positions then d
    else
      var h := d.sim.positions[id];
      var m := StateOf(w, now, h.mint, h.decimals);
      if m.priceUsd <= 0.0 || m.stale then d
      else
        var marked := Marked(h, m.priceUsd, w.cfg.rules);
        match EvaluateExits(marked, w.cfg.rules, SignalsAt(w, m, h.wallet, now))
        case None => Remark(d, id, marked)
        case Some(i) => CloseAt(w, Remark(d, id, marked), now, id, i.reason, i.rung, i.fraction)
  }

  function TickAll(w: World, d: Desk, now: Time, ids: seq<ResId>): Desk {
    if ids == [] then d else TickAt(w, TickAll(w, d, now, ids[..|ids| - 1]), now, ids[|ids| - 1])
  }

  predicate Mirrors(t: SourceTrade, h: Holding) { h.mint == t.mint && h.wallet == t.wallet }

  /** The source sold: sell all of a position that copies it, or half when it sold in part. */
  function MirrorAt(w: World, d: Desk, now: Time, t: SourceTrade, id: ResId): Desk {
    if id in d.sim.positions && Mirrors(t, d.sim.positions[id])
    then CloseAt(w, d, now, id, Mirror, None, if t.action == Sell then 1.0 else 0.5) else d
  }

  function MirrorAll(w: World, d: Desk, now: Time, t: SourceTrade, ids: seq<ResId>): Desk {
    if ids == [] then d else MirrorAt(w, MirrorAll(w, d, now, t, ids[..|ids| - 1]), now, t, ids[|ids| - 1])
  }

  function LiquidateAt(w: World, d: Desk, now: Time, id: ResId): Desk {
    if id in d.sim.positions then CloseAt(w, d, now, id, Manual, None, 1.0) else d
  }

  function LiquidateAll(w: World, d: Desk, now: Time, ids: seq<ResId>): Desk {
    if ids == [] then d else LiquidateAt(w, LiquidateAll(w, d, now, ids[..|ids| - 1]), now, ids[|ids| - 1])
  }

  // ---------------------------------------------------------------- marks

  function PriceAt(w: World, h: Holding, now: Time): real { StateOf(w, now, h.mint, h.decimals).priceUsd }

  /** The table repriced, position by position. */
  function RepriceEach(w: World, now: Time, positions: map<ResId, Holding>, ids: seq<ResId>): map<ResId, Holding> {
    if ids == [] then positions
    else
      var id := ids[|ids| - 1];
      var table := RepriceEach(w, now, positions, ids[..|ids| - 1]);
      if id in table then table[id := Repriced(table[id], PriceAt(w, table[id], now))] else table
  }

  /** What the positions are worth above their cost. */
  function PaperEach(w: World, now: Time, positions: map<ResId, Holding>, ids: seq<ResId>): real {
    if ids == [] then 0.0
    else
      var id := ids[|ids| - 1];
      var table := RepriceEach(w, now, positions, ids[..|ids| - 1]);
      PaperEach(w, now, positions, ids[..|ids| - 1])
      + if id in table then Paper(table[id], PriceAt(w, table[id], now)) else 0.0
  }

  /** Reprices every position and marks the ledger with what they are worth above cost. */
  function MarkAt(w: World, d: Desk, now: Time): Desk {
    d.(sim := AfterMarking(d.sim, RepriceEach(w, now, d.sim.positions, d.order),
                           PaperEach(w, now, d.sim.positions, d.order)))
  }

  // ---------------------------------------------------------------- entries

  /** What the safety provider says: unknown tokens are unsafe, and very young ones are flagged. */
  function RiskAt(w: World, mint: Mint, age: Option<int>): G.TokenRisk {
    var flagged := age.Some? && age.value < 120;
    if mint in w.histories then G.TokenRisk(false, false, w.histories[mint].riskScore, flagged)
    else G.TokenRisk(true, false, 100, flagged)
  }

  /** The signal as it stands before a quote is asked for. */
  function Unquoted(w: World, now: Time, t: SourceTrade, trader: G.Trader): G.Signal {
    var m := StateOf(w, now, t.mint, t.decimals);
    G.Signal(trader, t.action == Buy, t.price, t.quotedInSol, t.valueUsd, t.at, now,
             G.Market(m.price, m.priceUsd, m.liquidityUsd, 0.0, m.tokenAgeSeconds, m.stale),
             Some(RiskAt(w, t.mint, m.tokenAgeSeconds)), None, w.setup.solPrice, 0)
  }

  /** The provisional size, when the decision gets that far. */
  function Provisional(cfg: Config, c: G.Signal, p: D.Portfolio): Option<real> {
    if G.TraderGate(c, cfg.gates).Fail? || c.market.stale || c.market.priceUsd <= 0.0 then None
    else match D.BaseSize(c, p, cfg.mode, cfg.sizes)
      case None => None
      case Some(base) =>
        var provisional := D.FinalSize(base, 1.0, p, cfg.sizes);
        if provisional <= 0.0 || c.solPriceUsd <= 0.0 then None else Some(provisional)
  }

  /** ui_to_raw(usd / sol, 9), rounded half to even. */
  function Lamports(usd: real, sol: real): nat
    requires usd >= 0.0 && sol > 0.0
  {
    QuotientOrder(usd, sol, sol);
    MulOrder(0.0, usd / sol, 0.0, Pow10(9));
    RoundHalfEven(usd / sol * Pow10(9))
  }

  function RouteIn(w: World, now: Time, mint: Mint, amount: nat): Option<real> {
    match H.QuoteAt(w.histories, w.setup, now, SOL_MINT, mint, amount, 0)
    case None => None
    case Some(quote) => Some(quote.priceImpactPct)
  }

  /** The signal with the quote at its provisional size. */
  function SignalAt(w: World, now: Time, p: D.Portfolio, t: SourceTrade, trader: G.Trader): G.Signal {
    var c := Unquoted(w, now, t, trader);
    match Provisional(w.cfg, c, p)
    case None => c
    case Some(provisional) => c.(impactPct := RouteIn(w, now, t.mint, Lamports(provisional, c.solPriceUsd)))
  }

  function PlanFor(w: World, s: Ledger, c: G.Signal): D.Plan {
    D.PlanEntry(c, D.Snapshot(s), w.cfg.mode, w.cfg.gates, w.cfg.sizes)
  }

  /** The decision asks for a size and the ledger grants it. */
  predicate Approves(w: World, s: Ledger, t: SourceTrade, c: G.Signal) {
    PlanFor(w, s, c).Ask?
    && Refusal(s, w.cfg.control, w.cfg.limits, t.mint, t.wallet, PlanFor(w, s, c).size) == None
  }

  function Detected(w: World, t: SourceTrade): Time { t.at + w.cfg.detectionLatency }

  function EntryFor(w: World, t: SourceTrade, size: real, decimals: nat): Entry {
    Entry(t.id, t.mint, t.wallet, size, decimals, Detected(w, t))
  }

  function BuyFill(w: World, c: G.Signal, e: Entry, drawn: nat): Option<F.Fill> {
    F.Outcome(w.cfg.fills, F.FillOrder(true, c.market.priceUsd, e.size, 0, e.decimals, w.cfg.analysisMs),
              c.impactPct, w.draws(drawn))
  }

  /** The order's size is in the ledger. */
  function Reserving(w: World, s: Sim, t: SourceTrade, size: real): Sim {
    Sim(AfterReserve(s.ledger, w.cfg.control, w.cfg.limits, t.id, t.mint, t.wallet, size), s.positions,
        s.tally.(signals := s.tally.signals + 1, approved := s.tally.approved + 1))
  }

  function Rejecting(s: Sim): Sim {
    s.(tally := s.tally.(signals := s.tally.signals + 1, rejected := s.tally.rejected + 1))
  }

  /** The reserved order becomes a position at its fill, or is given back. */
  function EnterAt(w: World, d: Desk, t: SourceTrade, c: G.Signal, size: real, decimals: nat): Desk {
    var e := EntryFor(w, t, size, decimals);
    var fill := BuyFill(w, c, e, d.drawn);
    Desk(AfterFill(Reserving(w, d.sim, t, size), Fee(w), e, fill), if Filled(fill) then d.order + [t.id] else d.order,
         d.drawn + if c.impactPct.Some? then 1 else 0)
  }

  /** A buy, once its signal is known: rejected and counted, or reserved and filled. */
  function DecideAt(w: World, d: Desk, t: SourceTrade, c: G.Signal, decimals: nat): Desk {
    if Approves(w, d.sim.ledger, t, c) then EnterAt(w, d, t, c, PlanFor(w, d.sim.ledger, c).size, decimals)
    else d.(sim := Rejecting(d.sim))
  }

  /** A buy is decided on what the clock shows. */
  function BuyAt(w: World, d: Desk, now: Time, t: SourceTrade, trader: G.Trader): Desk {
    DecideAt(w, d, t, SignalAt(w, now, D.Snapshot(d.sim.ledger), t, trader),
             StateOf(w, now, t.mint, t.decimals).decimals)
  }

  // ---------------------------------------------------------------- steps

  /** The clock only ever moves forward. */
  function Later(clock: Option<Time>, when: Time): Time {
    if clock.None? || when > clock.value then when else clock.value
  }

  predicate IsBuy(w: World, t: SourceTrade) { t.wallet in w.cfg.traders && t.action == Buy }

  function TradeAt(w: World, e: Engine, t: SourceTrade): Engine
    requires e.clock.Some?
  {
    var now := e.clock.value;
    if IsBuy(w, t) then
      var seen := Later(e.clock, Detected(w, t));
      Engine(Some(seen), BuyAt(w, e.desk, seen, t, w.cfg.traders[t.wallet]))
    else if t.action == Sell || t.action == PartialSell then
      e.(desk := MirrorAll(w, e.desk, now, t, e.desk.order))
    else e
  }

  /** The clock after a step: it depends on the timeline alone. */
  function ClockAfter(w: World, clock: Option<Time>, step: Step): Time {
    var now := Later(clock, step.when);
    if step.TradeStep? && IsBuy(w, step.trade) then Later(Some(now), Detected(w, step.trade)) else now
  }

  function ClockThrough(w: World, clock: Option<Time>, steps: seq<Step>): Option<Time> {
    if steps == [] then clock
    else Some(ClockAfter(w, ClockThrough(w, clock, steps[..|steps| - 1]), steps[|steps| - 1]))
  }

  /** The clock advanced and the trade, if it is one, dealt with. */
  function Traded(w: World, e: Engine, step: Step): (traded: Engine)
    ensures traded.clock == Some(ClockAfter(w, e.clock, step))
  {
    var ticked := Engine(Some(Later(e.clock, step.when)), e.desk);
    if step.TradeStep? then TradeAt(w, ticked, step.trade) else ticked
  }

  /** Then every position is marked and its exit rules consulted, and the ledger is marked. */
  function TickAndMark(w: World, d: Desk, now: Time): Desk { MarkAt(w, TickAll(w, d, now, d.order), now) }

  function StepAt(w: World, e: Engine, step: Step): Engine {
    var now := ClockAfter(w, e.clock, step);
    Engine(Some(now), TickAndMark(w, Traded(w, e, step).desk, now))
  }

  function Play(w: World, e: Engine, steps: seq<Step>): Engine {
    if steps == [] then e else StepAt(w, Play(w, e, steps[..|steps| - 1]), steps[|steps| - 1])
  }

  /** Whatever is still open goes at the last known price. */
  function FinishAt(w: World, e: Engine, when: Time): Engine {
    var now := Later(e.clock, when);
    Engine(Some(now), MarkAt(w, LiquidateAll(w, e.desk, now, e.desk.order), now))
  }
}
