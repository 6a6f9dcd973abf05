/** What every step of a backtest keeps (src/asm/backtest/engine.py): ledger, positions and result agree,
    time runs forward and no trade closes before it opened, and the drawdown meter has read the whole
    curve of marked equities. */
module EngineSound {
  import opened Numeric
  import opened Domain
  import opened Ledger
  import opened Exits
  import opened Drawdown
  import opened Replay
  import opened Engine
  import LB = LedgerBook
  import F = Fills
  import G = Gates
  import D = Decision

  /** Closed trades lie behind each other and behind the clock, each after its own opening. */
  ghost predicate Ordered(trades: seq<ClosedTrade>, positions: map<ResId, Holding>, now: Time) {
    && (forall i :: 0 <= i < |trades| ==> trades[i].openedAt <= trades[i].closedAt <= now)
    && (forall i, j :: 0 <= i < j < |trades| ==> trades[i].closedAt <= trades[j].closedAt)
    && (forall id :: id in positions ==> positions[id].openedAt <= now)
  }

  /** The keys of the table, each once. */
  ghost predicate Listed(order: seq<ResId>, keys: set<ResId>) {
    && (forall id :: id in order <==> id in keys)
    && (forall i, j :: 0 <= i < j < |order| ==> order[i] != order[j])
  }

  /** `b` is the ledger's book and `curve` the capital followed by every equity marked. */
  ghost predicate Sound(w: World, d: Desk, now: Time, b: LB.Book, curve: seq<real>) {
    && Agree(b, d.sim, w.cfg.capital, Fee(w)) && b.control == w.cfg.control
    && Listed(d.order, d.sim.positions.Keys)
    && Ordered(d.sim.tally.trades, d.sim.positions, now)
    && Metered(curve, d.sim.tally.meter, w.cfg.capital, b.exits)
  }

  lemma LaterSound(w: World, d: Desk, now: Time, later: Time, b: LB.Book, curve: seq<real>)
    requires Sound(w, d, now, b, curve) && now <= later
    ensures Sound(w, d, later, b, curve)
  {
  }

  // ---------------------------------------------------------------- closing

  lemma {:induction false} WithoutHas(order: seq<ResId>, id: ResId, x: ResId)
    ensures x in Without(order, id) <==> x in order && x != id
  {
    if order != [] {
      var n := |order| - 1;
      WithoutHas(order[..n], id, x);
      assert x in order <==> x in order[..n] || x == order[n];
    }
  }

  lemma {:induction false} WithoutOnce(order: seq<ResId>, id: ResId)
    requires forall i, j :: 0 <= i < j < |order| ==> order[i] != order[j]
    ensures var rest := Without(order, id); forall i, j :: 0 <= i < j < |rest| ==> rest[i] != rest[j]
  {
    if order != [] {
      var n := |order| - 1;
      WithoutOnce(order[..n], id);
      WithoutHas(order[..n], id, order[n]);
      assert order[n] !in order[..n];
    }
  }

  /** The others keep the order they were entered in. */
  lemma {:induction false} WithoutKeepsOrder(order: seq<ResId>, i: nat)
    requires i < |order| && forall j, k :: 0 <= j < k < |order| ==> order[j] != order[k]
    ensures Without(order, order[i]) == order[..i] + order[i + 1..]
  {
    var n := |order| - 1;
    if i == n {
      WithoutAbsent(order[..n], order[n]);
    } else {
      WithoutKeepsOrder(order[..n], i);
      assert order[..n][..i] == order[..i] && order[..n][i + 1..] + [order[n]] == order[i + 1..];
    }
  }

  lemma {:induction false} WithoutAbsent(order: seq<ResId>, id: ResId)
    requires id !in order
    ensures Without(order, id) == order
  {
    if order != [] {
      WithoutAbsent(order[..|order| - 1], id);
      assert order == order[..|order| - 1] + [order[|order| - 1]];
    }
  }

  lemma WithoutListed(order: seq<ResId>, keys: set<ResId>, id: ResId)
    requires Listed(order, keys)
    ensures Listed(Without(order, id), keys - {id})
  {
    WithoutOnce(order, id);
    forall x ensures x in Without(order, id) <==> x in keys - {id} { WithoutHas(order, id, x); }
  }

  lemma CloseKeys(s: Sim, fee: real, x: Exit)
    requires x.id in s.positions
    ensures var keys := AfterClose(s, fee, x).positions.Keys;
            keys == if x.id in keys then s.positions.Keys else s.positions.Keys - {x.id}
  {
  }

  lemma CloseOrdered(s: Sim, fee: real, x: Exit)
    requires x.id in s.positions && Ordered(s.tally.trades, s.positions, x.at)
    ensures Ordered(AfterClose(s, fee, x).tally.trades, AfterClose(s, fee, x).positions, x.at)
  {
  }

  lemma CloseListed(d: Desk, fee: real, x: Exit, draws: nat)
    requires x.id in d.sim.positions && Listed(d.order, d.sim.positions.Keys)
    ensures Listed(Closing(d, fee, x, draws).order, Closing(d, fee, x, draws).sim.positions.Keys)
  {
    CloseKeys(d.sim, fee, x);
    WithoutListed(d.order, d.sim.positions.Keys, x.id);
  }

  lemma SellFillPayable(w: World, h: Holding, now: Time, fraction: real, drawn: nat)
    ensures SellFill(w, h, now, fraction, drawn).Some? ==> SellFill(w, h, now, fraction, drawn).value >= 0.0
  {
  }

  /** One exit, however it comes out. */
  lemma ClosingSound(w: World, d: Desk, now: Time, b: LB.Book, curve: seq<real>, x: Exit, draws: nat)
    returns (c: LB.Book)
    requires Sound(w, d, now, b, curve) && x.id in d.sim.positions && x.at == now && Payable(x)
    ensures Sound(w, Closing(d, Fee(w), x, draws), now, c, curve) && c.used == b.used
  {
    CloseListed(d, Fee(w), x, draws);
    CloseOrdered(d.sim, Fee(w), x);
    if Sells(d.sim.positions[x.id], x) {
      CloseAgrees(b, d.sim, w.cfg.capital, Fee(w), w.cfg.limits, x);
      c := LB.Apply(b, w.cfg.limits, ExitOp(d.sim, Fee(w), x));
      MeterWaits(curve, d.sim.tally.meter, w.cfg.capital, b.exits, c.exits);
    } else {
      c := b;
    }
  }

  lemma CloseSound(w: World, d: Desk, now: Time, b: LB.Book, curve: seq<real>, id: ResId, reason: ExitReason,
                   rung: Option<nat>, fraction: real) returns (c: LB.Book)
    requires Sound(w, d, now, b, curve) && id in d.sim.positions
    ensures Sound(w, CloseAt(w, d, now, id, reason, rung, fraction), now, c, curve) && c.used == b.used
  {
    var h := d.sim.positions[id];
    SellFillPayable(w, h, now, fraction, d.drawn);
    c := ClosingSound(w, d, now, b, curve, ExitAt(w, d, now, id, reason, rung, fraction), Draws(w, h, now, fraction));
  }

  // ---------------------------------------------------------------- exits

  lemma RemarkSound(w: World, d: Desk, now: Time, b: LB.Book, curve: seq<real>, id: ResId, h: Holding)
    requires Sound(w, d, now, b, curve) && id in d.sim.positions
    requires var was := d.sim.positions[id];
             ClaimOf(h) == ClaimOf(was) && h.openedAt == was.openedAt && h.isOpen && h.amountRaw > 0
    ensures Sound(w, Remark(d, id, h), now, b, curve)
  {
    MarksAgree(b, d.sim, w.cfg.capital, Fee(w), id, h);
  }

  lemma TickSound(w: World, d: Desk, now: Time, b: LB.Book, curve: seq<real>, id: ResId) returns (c: LB.Book)
    requires Sound(w, d, now, b, curve)
    ensures Sound(w, TickAt(w, d, now, id), now, c, curve) && c.used == b.used
  {
    c := b;
    if id in d.sim.positions {
      var h := d.sim.positions[id];
      var m := StateOf(w, now, h.mint, h.decimals);
      if m.priceUsd > 0.0 && !m.stale {
        var marked := Marked(h, m.priceUsd, w.cfg.rules);
        RemarkSound(w, d, now, b, curve, id, marked);
        match EvaluateExits(marked, w.cfg.rules, SignalsAt(w, m, h.wallet, now))
        case None =>
        case Some(i) => c := CloseSound(w, Remark(d, id, marked), now, b, curve, id, i.reason, i.rung, i.fraction);
      }
    }
  }

  lemma {:induction false} TicksSound(w: World, d: Desk, now: Time, b: LB.Book, curve: seq<real>, ids: seq<ResId>)
    returns (c: LB.Book)
    requires Sound(w, d, now, b, curve)
    ensures Sound(w, TickAll(w, d, now, ids), now, c, curve) && c.used == b.used
  {
    c := b;
    if ids != [] {
      var n := |ids| - 1;
      c := TicksSound(w, d, now, b, curve, ids[..n]);
      c := TickSound(w, TickAll(w, d, now, ids[..n]), now, c, curve, ids[n]);
    }
  }

  lemma {:induction false} MirrorsSound(w: World, d: Desk, now: Time, b: LB.Book, curve: seq<real>, t: SourceTrade,
                                        ids: seq<ResId>)
    returns (c: LB.Book)
    requires Sound(w, d, now, b, curve)
    ensures Sound(w, MirrorAll(w, d, now, t, ids), now, c, curve) && c.used == b.used
  {
    c := b;
    if ids != [] {
      var n := |ids| - 1;
      c := MirrorsSound(w, d, now, b, curve, t, ids[..n]);
      var mid := MirrorAll(w, d, now, t, ids[..n]);
      if ids[n] in mid.sim.positions && Mirrors(t, mid.sim.positions[ids[n]]) {
        c := CloseSound(w, mid, now, c, curve, ids[n], Mirror, None, if t.action == Sell then 1.0 else 0.5);
      }
    }
  }

  lemma {:induction false} LiquidationSound(w: World, d: Desk, now: Time, b: LB.Book, curve: seq<real>, ids: seq<ResId>)
    returns (c: LB.Book)
    requires Sound(w, d, now, b, curve)
    ensures Sound(w, LiquidateAll(w, d, now, ids), now, c, curve) && c.used == b.used
  {
    c := b;
    if ids != [] {
      var n := |ids| - 1;
      c := LiquidationSound(w, d, now, b, curve, ids[..n]);
      var mid := LiquidateAll(w, d, now, ids[..n]);
      if ids[n] in mid.sim.positions { c := CloseSound(w, mid, now, c, curve, ids[n], Manual, None, 1.0); }
    }
  }

  // ---------------------------------------------------------------- marks

  ghost function PricesAt(w: World, positions: map<ResId, Holding>, now: Time): (prices: map<ResId, real>)
    ensures prices.Keys == positions.Keys
    ensures forall id :: id in positions ==> prices[id] == PriceAt(w, positions[id], now)
  {
    map id | id in positions :: PriceAt(w, positions[id], now)
  }

  function Members(ids: seq<ResId>): set<ResId> { set id | id in ids }

  /** Repricing one by one, some still waiting. */
  lemma {:induction false} EachIsPartly(w: World, now: Time, positions: map<ResId, Holding>, prices: map<ResId, real>,
                                        ids: seq<ResId>)
    requires prices == PricesAt(w, positions, now) && Members(ids) <= positions.Keys
    requires forall i, j :: 0 <= i < j < |ids| ==> ids[i] != ids[j]
    ensures RepriceEach(w, now, positions, ids) == Partly(positions, prices, positions.Keys - Members(ids))
    ensures PaperEach(w, now, positions, ids) + Waiting(positions, prices, positions.Keys - Members(ids))
         == PaperTotal(positions, prices)
  {
    if ids == [] {
      assert positions.Keys - Members(ids) == positions.Keys;
      RepriceEnds(positions, prices);
    } else {
      var n := |ids| - 1;
      var id, todo := ids[n], positions.Keys - Members(ids[..n]);
      LastMember(ids);
      EachIsPartly(w, now, positions, prices, ids[..n]);
      assert todo - {id} == positions.Keys - Members(ids);
      RepriceStep(positions, prices, todo, id);
    }
  }

  lemma LastMember(ids: seq<ResId>)
    requires ids != [] && forall i, j :: 0 <= i < j < |ids| ==> ids[i] != ids[j]
    ensures var n := |ids| - 1; Members(ids) == Members(ids[..n]) + {ids[n]} && ids[n] !in Members(ids[..n])
  {
    var n := |ids| - 1;
    assert ids == ids[..n] + [ids[n]];
  }

  lemma EachIsAll(w: World, now: Time, positions: map<ResId, Holding>, order: seq<ResId>)
    requires Listed(order, positions.Keys)
    ensures var prices := PricesAt(w, positions, now);
            && RepriceEach(w, now, positions, order) == RepriceAll(positions, prices)
            && PaperEach(w, now, positions, order) == PaperTotal(positions, prices)
  {
    var prices := PricesAt(w, positions, now);
    assert Members(order) == positions.Keys;
    EachIsPartly(w, now, positions, prices, order);
    assert positions.Keys - Members(order) == {};
    RepriceEnds(positions, prices);
  }

  lemma RepriceKeeps(trades: seq<ClosedTrade>, order: seq<ResId>, positions: map<ResId, Holding>,
                     prices: map<ResId, real>, now: Time)
    requires Ordered(trades, positions, now) && Listed(order, positions.Keys) && positions.Keys == prices.Keys
    ensures Ordered(trades, RepriceAll(positions, prices), now) && Listed(order, RepriceAll(positions, prices).Keys)
  {
  }

  /** A mark adds its equity to the curve. */
  lemma MarkSound(w: World, d: Desk, now: Time, b: LB.Book, curve: seq<real>) returns (c: LB.Book, longer: seq<real>)
    requires Sound(w, d, now, b, curve)
    ensures Sound(w, MarkAt(w, d, now), now, c, longer) && c.used == b.used
    ensures longer == curve + [MarkAt(w, d, now).sim.ledger.equity]
  {
    EachIsAll(w, now, d.sim.positions, d.order);
    c, longer := MarkedSound(w, d, now, b, curve, PricesAt(w, d.sim.positions, now));
  }

  lemma MarkedSound(w: World, d: Desk, now: Time, b: LB.Book, curve: seq<real>, prices: map<ResId, real>)
    returns (c: LB.Book, longer: seq<real>)
    requires Sound(w, d, now, b, curve) && prices.Keys == d.sim.positions.Keys
    ensures var sim := AfterMarking(d.sim, RepriceAll(d.sim.positions, prices), PaperTotal(d.sim.positions, prices));
            && Sound(w, d.(sim := sim), now, c, longer) && c.used == b.used && longer == curve + [sim.ledger.equity]
  {
    var unrealized := PaperTotal(d.sim.positions, prices);
    MarkAgrees(b, d.sim, w.cfg.capital, Fee(w), w.cfg.limits, prices, unrealized);
    EquityFloor(b, d.sim, w.cfg.capital, Fee(w), prices);
    RepriceKeeps(d.sim.tally.trades, d.order, d.sim.positions, prices, now);
    c := LB.Apply(b, w.cfg.limits, LB.Mark(unrealized));
    var equity := AfterMark(d.sim.ledger, unrealized).equity;
    MeterReads(curve, d.sim.tally.meter, w.cfg.capital, b.exits, equity);
    longer := curve + [equity];
  }

  // ---------------------------------------------------------------- entries

  lemma UnusedId(b: LB.Book, s: Sim, capital: real, fee: real, id: ResId)
    requires Agree(b, s, capital, fee) && id !in b.used
    ensures id !in s.positions
  {
    assert ClaimsOf(s.positions).Keys == s.positions.Keys;
  }

  /** Counting a signal changes nothing that has to agree. */
  lemma CountsFree(b: LB.Book, s: Sim, capital: real, fee: real, tally: Tally)
    requires Agree(b, s, capital, fee)
    requires tally == s.tally.(signals := tally.signals, approved := tally.approved, rejected := tally.rejected)
    ensures Agree(b, s.(tally := tally), capital, fee)
  {
  }

  lemma EntryOrdered(s: Sim, fee: real, e: Entry, f: Option<F.Fill>, order: seq<ResId>, now: Time)
    requires Ordered(s.tally.trades, s.positions, now) && Listed(order, s.positions.Keys)
    requires e.id !in s.positions && e.at <= now
    ensures var after := AfterFill(s, fee, e, f);
            Ordered(after.tally.trades, after.positions, now)
            && Listed(if Filled(f) then order + [e.id] else order, after.positions.Keys)
  {
    assert e.id !in order;
    if Filled(f) { assert forall id :: id in order + [e.id] <==> id in order || id == e.id; }
  }

  lemma FillSound(w: World, d: Desk, now: Time, b: LB.Book, curve: seq<real>, e: Entry, f: Option<F.Fill>, drawn: nat)
    returns (c: LB.Book)
    requires AgreeHolding(b, d.sim, w.cfg.capital, Fee(w), e) && b.control == w.cfg.control
    requires Listed(d.order, d.sim.positions.Keys) && Ordered(d.sim.tally.trades, d.sim.positions, now) && e.at <= now
    requires Metered(curve, d.sim.tally.meter, w.cfg.capital, b.exits)
    requires Filled(f) ==> 0.0 <= f.value.valueUsd <= e.size
    ensures Sound(w, Desk(AfterFill(d.sim, Fee(w), e, f), if Filled(f) then d.order + [e.id] else d.order, drawn),
                  now, c, curve)
    ensures c.used == b.used
  {
    FillAgrees(b, d.sim, w.cfg.capital, Fee(w), w.cfg.limits, e, f);
    EntryOrdered(d.sim, Fee(w), e, f, d.order, now);
    c := LB.Apply(b, w.cfg.limits, FillOp(e, f));
  }

  lemma ReserveSound(w: World, d: Desk, now: Time, b: LB.Book, curve: seq<real>, t: SourceTrade, e: Entry)
    returns (held: LB.Book)
    requires Sound(w, d, now, b, curve) && t.id !in b.used && e == EntryFor(w, t, e.size, e.decimals) && e.size >= 0.0
    requires Refusal(d.sim.ledger, w.cfg.control, w.cfg.limits, e.mint, e.wallet, e.size) == None
    ensures AgreeHolding(held, Reserving(w, d.sim, t, e.size), w.cfg.capital, Fee(w), e)
    ensures held.control == b.control && held.exits == b.exits && held.used == b.used + {t.id}
  {
    var s := d.sim;
    var counted := s.tally.(signals := s.tally.signals + 1, approved := s.tally.approved + 1);
    CountsFree(b, s, w.cfg.capital, Fee(w), counted);
    ReserveAgrees(b, s.(tally := counted), w.cfg.capital, Fee(w), w.cfg.limits, e);
    held := LB.Apply(b, w.cfg.limits, LB.Reserve(e.id, e.mint, e.wallet, e.size));
  }

  lemma EnterSound(w: World, d: Desk, now: Time, b: LB.Book, curve: seq<real>, t: SourceTrade, c: G.Signal, size: real,
                   decimals: nat)
    returns (after: LB.Book)
    requires Sound(w, d, now, b, curve) && t.id !in b.used && Detected(w, t) <= now && size >= 0.0
    requires Refusal(d.sim.ledger, w.cfg.control, w.cfg.limits, t.mint, t.wallet, size) == None
    ensures Sound(w, EnterAt(w, d, t, c, size, decimals), now, after, curve) && after.used == b.used + {t.id}
  {
    var e := EntryFor(w, t, size, decimals);
    UnusedId(b, d.sim, w.cfg.capital, Fee(w), t.id);
    var held := ReserveSound(w, d, now, b, curve, t, e);
    after := FillSound(w, d.(sim := Reserving(w, d.sim, t, size)), now, held, curve, e, BuyFill(w, c, e, d.drawn),
                       d.drawn + if c.impactPct.Some? then 1 else 0);
  }

  lemma BuySound(w: World, d: Desk, now: Time, b: LB.Book, curve: seq<real>, t: SourceTrade, c: G.Signal, decimals: nat)
    returns (after: LB.Book)
    requires Sound(w, d, now, b, curve) && t.id !in b.used && Detected(w, t) <= now
    ensures Sound(w, DecideAt(w, d, t, c, decimals), now, after, curve) && after.used <= b.used + {t.id}
  {
    if Approves(w, d.sim.ledger, t, c) {
      after := EnterSound(w, d, now, b, curve, t, c, PlanFor(w, d.sim.ledger, c).size, decimals);
    } else {
      CountsFree(b, d.sim, w.cfg.capital, Fee(w), Rejecting(d.sim).tally);
      after := b;
    }
  }

  // ---------------------------------------------------------------- steps and runs

  function Ids(step: Step): set<ResId> { if step.TradeStep? then {step.trade.id} else {} }

  lemma TradeSound(w: World, e: Engine, b: LB.Book, curve: seq<real>, t: SourceTrade) returns (c: LB.Book)
    requires e.clock.Some? && Sound(w, e.desk, e.clock.value, b, curve) && t.id !in b.used
    ensures var after := TradeAt(w, e, t);
            after.clock.Some? && Sound(w, after.desk, after.clock.value, c, curve) && c.used <= b.used + {t.id}
  {
    var now := e.clock.value;
    c := b;
    if IsBuy(w, t) {
      var seen := Later(e.clock, Detected(w, t));
      LaterSound(w, e.desk, now, seen, b, curve);
      c := BuySound(w, e.desk, seen, b, curve, t,
                    SignalAt(w, seen, D.Snapshot(e.desk.sim.ledger), t, w.cfg.traders[t.wallet]),
                    StateOf(w, seen, t.mint, t.decimals).decimals);
    } else if t.action == Sell || t.action == PartialSell {
      c := MirrorsSound(w, e.desk, now, b, curve, t, e.desk.order);
    }
  }

  /** Before the first step there is no clock, and nothing has happened. */
  ghost predicate SoundEngine(w: World, e: Engine, b: LB.Book, curve: seq<real>) {
    match e.clock
    case Some(now) => Sound(w, e.desk, now, b, curve)
    case None => e == Start(w.cfg) && b == LB.Opening(w.cfg.capital, w.cfg.control) && curve == [w.cfg.capital]
  }

  lemma StartSound(w: World, now: Time)
    requires w.cfg.capital >= 0.0
    ensures Sound(w, Start(w.cfg).desk, now, LB.Opening(w.cfg.capital, w.cfg.control), [w.cfg.capital])
  {
    LB.OpeningBalanced(w.cfg.capital, w.cfg.control);
    assert ClaimsOf(map[]) == map[];
  }

  lemma AdvanceSound(w: World, e: Engine, b: LB.Book, curve: seq<real>, when: Time)
    requires SoundEngine(w, e, b, curve) && w.cfg.capital >= 0.0
    ensures Sound(w, e.desk, Later(e.clock, when), b, curve)
  {
    match e.clock
    case Some(now) => LaterSound(w, e.desk, now, Later(e.clock, when), b, curve);
    case None => StartSound(w, when);
  }

  lemma TradedSound(w: World, e: Engine, b: LB.Book, curve: seq<real>, step: Step) returns (c: LB.Book)
    requires SoundEngine(w, e, b, curve) && w.cfg.capital >= 0.0 && Ids(step) !! b.used
    ensures Sound(w, Traded(w, e, step).desk, ClockAfter(w, e.clock, step), c, curve) && c.used <= b.used + Ids(step)
  {
    AdvanceSound(w, e, b, curve, step.when);
    c := b;
    if step.TradeStep? {
      c := TradeSound(w, Engine(Some(Later(e.clock, step.when)), e.desk), b, curve, step.trade);
    }
  }

  lemma TickAndMarkSound(w: World, d: Desk, now: Time, b: LB.Book, curve: seq<real>)
    returns (c: LB.Book, longer: seq<real>)
    requires Sound(w, d, now, b, curve)
    ensures Sound(w, TickAndMark(w, d, now), now, c, longer) && c.used == b.used
    ensures longer == curve + [TickAndMark(w, d, now).sim.ledger.equity]
  {
    c := TicksSound(w, d, now, b, curve, d.order);
    c, longer := MarkSound(w, TickAll(w, d, now, d.order), now, c, curve);
  }

  lemma StepSound(w: World, e: Engine, b: LB.Book, curve: seq<real>, step: Step) returns (c: LB.Book, longer: seq<real>)
    requires SoundEngine(w, e, b, curve) && w.cfg.capital >= 0.0 && Ids(step) !! b.used
    ensures SoundEngine(w, StepAt(w, e, step), c, longer) && c.used <= b.used + Ids(step)
    ensures longer == curve + [StepAt(w, e, step).desk.sim.ledger.equity]
  {
    c := TradedSound(w, e, b, curve, step);
    c, longer := TickAndMarkSound(w, Traded(w, e, step).desk, ClockAfter(w, e.clock, step), c, curve);
  }

  /** No two steps name the same trade. */
  ghost predicate OwnIds(steps: seq<Step>) {
    forall i, j :: 0 <= i < j < |steps| ==> Ids(steps[i]) !! Ids(steps[j])
  }

  ghost function AllIds(steps: seq<Step>): set<ResId> {
    if steps == [] then {} else AllIds(steps[..|steps| - 1]) + Ids(steps[|steps| - 1])
  }

  lemma {:induction false} EarlierIds(steps: seq<Step>, step: Step)
    requires OwnIds(steps + [step])
    ensures AllIds(steps) !! Ids(step)
  {
    if steps != [] {
      var n := |steps| - 1;
      assert OwnIds(steps[..n] + [step]) by {
        forall i, j | 0 <= i < j < n + 1
          ensures Ids((steps[..n] + [step])[i]) !! Ids((steps[..n] + [step])[j])
        {
          assert (steps + [step])[if j == n then n + 1 else j] == (steps[..n] + [step])[j];
          assert (steps + [step])[i] == (steps[..n] + [step])[i];
        }
      }
      EarlierIds(steps[..n], step);
      assert Ids((steps + [step])[n]) !! Ids((steps + [step])[n + 1]);
    }
  }

  /** The equities marked during a run, the capital first. */
  ghost function Curve(w: World, steps: seq<Step>): seq<real> {
    if steps == [] then [w.cfg.capital]
    else Curve(w, steps[..|steps| - 1]) + [Play(w, Start(w.cfg), steps).desk.sim.ledger.equity]
  }

  /** After every step of every timeline: there is a book of the ledger with which positions and result agree,
      time has run forward, and the meter has read the curve. */
  lemma {:induction false} PlaySound(w: World, steps: seq<Step>) returns (b: LB.Book)
    requires w.cfg.capital >= 0.0 && OwnIds(steps)
    ensures SoundEngine(w, Play(w, Start(w.cfg), steps), b, Curve(w, steps)) && b.used <= AllIds(steps)
  {
    if steps == [] {
      b := LB.Opening(w.cfg.capital, w.cfg.control);
    } else {
      var n := |steps| - 1;
      b := PlaySound(w, steps[..n]);
      assert steps == steps[..n] + [steps[n]];
      EarlierIds(steps[..n], steps[n]);
      var longer;
      b, longer := StepSound(w, Play(w, Start(w.cfg), steps[..n]), b, Curve(w, steps[..n]), steps[n]);
    }
  }

  lemma FinishSound(w: World, e: Engine, b: LB.Book, curve: seq<real>, when: Time)
    returns (c: LB.Book, longer: seq<real>)
    requires SoundEngine(w, e, b, curve) && w.cfg.capital >= 0.0
    ensures SoundEngine(w, FinishAt(w, e, when), c, longer)
    ensures longer == curve + [FinishAt(w, e, when).desk.sim.ledger.equity]
  {
    var now := Later(e.clock, when);
    AdvanceSound(w, e, b, curve, when);
    c := LiquidationSound(w, e.desk, now, b, curve, e.desk.order);
    c, longer := MarkSound(w, LiquidateAll(w, e.desk, now, e.desk.order), now, c, curve);
  }

  // ---------------------------------------------------------------- what a step touches

  /** At most one position was touched, and none was added. */
  ghost predicate OthersKept(before: map<ResId, Holding>, after: map<ResId, Holding>, id: ResId) {
    && before.Keys - {id} <= after.Keys <= before.Keys
    && forall k :: k in after && k != id ==> after[k] == before[k]
  }

  lemma CloseTouches(w: World, d: Desk, now: Time, id: ResId, reason: ExitReason, rung: Option<nat>, fraction: real)
    requires id in d.sim.positions
    ensures var after := CloseAt(w, d, now, id, reason, rung, fraction).sim.positions;
            && OthersKept(d.sim.positions, after, id)
            && (id in after ==> after[id] == d.sim.positions[id].(
                  amountRaw := after[id].amountRaw, costBasis := after[id].costBasis,
                  realizedPnl := after[id].realizedPnl, levelsHit := after[id].levelsHit))
  {
  }

  /** Positions that do not copy this trader in this token are as they were. */
  ghost predicate OnlyMirrored(t: SourceTrade, before: map<ResId, Holding>, after: map<ResId, Holding>) {
    && after.Keys <= before.Keys
    && (forall id :: id in after ==> after[id].mint == before[id].mint && after[id].wallet == before[id].wallet)
    && (forall id :: id in before && !Mirrors(t, before[id]) ==> id in after && after[id] == before[id])
  }

  lemma {:induction false} MirrorsTouchOnlyTheirs(w: World, d: Desk, now: Time, t: SourceTrade, ids: seq<ResId>)
    ensures OnlyMirrored(t, d.sim.positions, MirrorAll(w, d, now, t, ids).sim.positions)
  {
    if ids != [] {
      var n := |ids| - 1;
      MirrorsTouchOnlyTheirs(w, d, now, t, ids[..n]);
      var mid := MirrorAll(w, d, now, t, ids[..n]);
      if ids[n] in mid.sim.positions && Mirrors(t, mid.sim.positions[ids[n]]) {
        CloseTouches(w, mid, now, ids[n], Mirror, None, if t.action == Sell then 1.0 else 0.5);
      }
    }
  }

  /** A fresh price at the clock has been marked. */
  predicate MarkedNow(w: World, h: Holding, now: Time) {
    var m := StateOf(w, now, h.mint, h.decimals);
    m.priceUsd > 0.0 && !m.stale ==> h.currentPrice == m.priceUsd && h.peakPrice >= m.priceUsd
  }

  lemma TickMarks(w: World, d: Desk, now: Time, id: ResId)
    ensures var after := TickAt(w, d, now, id).sim.positions;
            && OthersKept(d.sim.positions, after, id)
            && (id in after ==> MarkedNow(w, after[id], now))
  {
    if id in d.sim.positions {
      var h := d.sim.positions[id];
      var m := StateOf(w, now, h.mint, h.decimals);
      if m.priceUsd > 0.0 && !m.stale {
        var marked := Marked(h, m.priceUsd, w.cfg.rules);
        match EvaluateExits(marked, w.cfg.rules, SignalsAt(w, m, h.wallet, now))
        case None =>
        case Some(i) => CloseTouches(w, Remark(d, id, marked), now, id, i.reason, i.rung, i.fraction);
      }
    }
  }

  /** After the exits of a step every position listed is marked at the clock's price, or gone; and none is new. */
  lemma {:induction false} TicksMark(w: World, d: Desk, now: Time, ids: seq<ResId>)
    ensures var after := TickAll(w, d, now, ids).sim.positions;
            && after.Keys <= d.sim.positions.Keys
            && forall i :: 0 <= i < |ids| && ids[i] in after ==> MarkedNow(w, after[ids[i]], now)
  {
    if ids != [] {
      var n := |ids| - 1;
      TicksMark(w, d, now, ids[..n]);
      TickMarks(w, TickAll(w, d, now, ids[..n]), now, ids[n]);
      forall i | 0 <= i < |ids| && ids[i] in TickAll(w, d, now, ids).sim.positions
        ensures MarkedNow(w, TickAll(w, d, now, ids).sim.positions[ids[i]], now)
      {
        if ids[i] != ids[n] { assert ids[..n][i] == ids[i]; }
      }
    }
  }

  /** A buy changes no other position, and what it enters is its own: opened when it was detected, at a cost of
      exactly the size that was granted. */
  lemma BuyEnters(w: World, d: Desk, t: SourceTrade, c: G.Signal, decimals: nat)
    requires t.id !in d.sim.positions
    ensures var after := DecideAt(w, d, t, c, decimals).sim.positions;
            && after - {t.id} == d.sim.positions
            && (t.id in after ==>
                  var h := after[t.id];
                  && Approves(w, d.sim.ledger, t, c) && h.costBasis == PlanFor(w, d.sim.ledger, c).size
                  && h.mint == t.mint && h.wallet == t.wallet && h.openedAt == t.at + w.cfg.detectionLatency
                  && h.isOpen && h.amountRaw > 0)
  {
  }

  // ---------------------------------------------------------------- what a reader of the result gets

  /** The reported drawdown is the worst fall between any two marked equities in order, the capital included
      and an equity below zero counting as zero; on top of it comes at most what dust may have been swept,
      a millionth for each closed trade, as a share of the capital, and nothing if no equity is below zero. */
  ghost predicate DrawdownAgrees(tally: Tally, curve: seq<real>, capital: real)
    requires curve != [] && capital > 0.0
  {
    var worst := Online(Floored(curve)).maxPct;
    && IsWorstFall(worst, Floored(curve))
    && 0.0 <= tally.meter.maxPct - worst <= |tally.trades| as real * DUST / capital * 100.0
    && (NeverNegative(curve) ==> IsWorstFall(tally.meter.maxPct, curve))
  }

  lemma SoundReports(w: World, d: Desk, now: Time, b: LB.Book, curve: seq<real>)
    requires Sound(w, d, now, b, curve)
    ensures NumbersAgree(d.sim, w.cfg.capital, Fee(w))
    ensures w.cfg.capital > 0.0 ==> DrawdownAgrees(d.sim.tally, curve, w.cfg.capital)
  {
    AgreementMeans(b, d.sim, w.cfg.capital, Fee(w));
    if w.cfg.capital > 0.0 { MeterReports(d.sim.tally, curve, w.cfg.capital, b.exits); }
  }

  lemma MeterReports(tally: Tally, curve: seq<real>, capital: real, exits: nat)
    requires Metered(curve, tally.meter, capital, exits) && |tally.trades| == exits && capital > 0.0
    ensures DrawdownAgrees(tally, curve, capital)
  {
    MeterWithinSlack(curve, exits as real * DUST);
  }

  lemma EngineReports(w: World, e: Engine, b: LB.Book, curve: seq<real>)
    requires SoundEngine(w, e, b, curve) && w.cfg.capital >= 0.0
    ensures curve != [] && NumbersAgree(e.desk.sim, w.cfg.capital, Fee(w))
    ensures w.cfg.capital > 0.0 ==> DrawdownAgrees(e.desk.sim.tally, curve, w.cfg.capital)
    ensures e.clock.Some? ==> Ordered(e.desk.sim.tally.trades, e.desk.sim.positions, e.clock.value)
  {
    AdvanceSound(w, e, b, curve, 0);
    SoundReports(w, e.desk, Later(e.clock, 0), b, curve);
  }

  lemma {:induction false} CurveStarts(w: World, steps: seq<Step>)
    ensures Curve(w, steps) != []
  {
  }

  /** So it is after every step of every timeline. */
  lemma ReportsAgree(w: World, steps: seq<Step>)
    requires w.cfg.capital >= 0.0 && OwnIds(steps)
    ensures NumbersAgree(Play(w, Start(w.cfg), steps).desk.sim, w.cfg.capital, Fee(w))
    ensures Curve(w, steps) != []
    ensures w.cfg.capital > 0.0 ==>
              DrawdownAgrees(Play(w, Start(w.cfg), steps).desk.sim.tally, Curve(w, steps), w.cfg.capital)
  {
    CurveStarts(w, steps);
    var b := PlaySound(w, steps);
    EngineReports(w, Play(w, Start(w.cfg), steps), b, Curve(w, steps));
  }

  /** No trade closes before it opened, trades close in order, and the clock has passed all of them and every
      step of the timeline. */
  lemma TimeRunsForward(w: World, steps: seq<Step>)
    requires w.cfg.capital >= 0.0 && OwnIds(steps) && steps != []
    ensures Play(w, Start(w.cfg), steps).clock.Some?
    ensures var e := Play(w, Start(w.cfg), steps);
            Ordered(e.desk.sim.tally.trades, e.desk.sim.positions, e.clock.value)
            && forall i :: 0 <= i < |steps| ==> e.clock.value >= steps[i].when
  {
    var b := PlaySound(w, steps);
    EngineReports(w, Play(w, Start(w.cfg), steps), b, Curve(w, steps));
    PlayClock(w, Start(w.cfg), steps);
    ClockPasses(w, None, steps);
  }

  lemma {:induction false} PlayClock(w: World, e: Engine, steps: seq<Step>)
    ensures Play(w, e, steps).clock == ClockThrough(w, e.clock, steps)
  {
    if steps != [] { PlayClock(w, e, steps[..|steps| - 1]); }
  }

  lemma {:induction false} ClockPasses(w: World, clock: Option<Time>, steps: seq<Step>)
    ensures steps != [] ==> ClockThrough(w, clock, steps).Some?
    ensures forall i :: 0 <= i < |steps| ==> ClockThrough(w, clock, steps).value >= steps[i].when
  {
    if steps != [] {
      var n := |steps| - 1;
      ClockPasses(w, clock, steps[..n]);
      forall i | 0 <= i < |steps| ensures ClockThrough(w, clock, steps).value >= steps[i].when {
        if i < n { assert steps[..n][i] == steps[i]; }
      }
    }
  }

  /** And so it is after the liquidation that ends a run. */
  lemma RunReports(w: World, steps: seq<Step>, when: Time)
    requires w.cfg.capital >= 0.0 && OwnIds(steps)
    ensures var end := FinishAt(w, Play(w, Start(w.cfg), steps), when);
            var curve := Curve(w, steps) + [end.desk.sim.ledger.equity];
            && NumbersAgree(end.desk.sim, w.cfg.capital, Fee(w))
            && Ordered(end.desk.sim.tally.trades, end.desk.sim.positions, end.clock.value)
            && (w.cfg.capital > 0.0 ==> DrawdownAgrees(end.desk.sim.tally, curve, w.cfg.capital))
  {
    var b := PlaySound(w, steps);
    var longer;
    b, longer := FinishSound(w, Play(w, Start(w.cfg), steps), b, Curve(w, steps), when);
    EngineReports(w, FinishAt(w, Play(w, Start(w.cfg), steps), when), b, longer);
  }
}
