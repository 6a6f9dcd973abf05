/** No lookahead for whole backtests (src/asm/backtest/provider.py, src/asm/backtest/engine.py): two runs
    of one timeline over histories that agree up to t, with any futures, pass through the same states for
    as long as the clock is not past t. */
module EngineBlind {
  import opened Numeric
  import opened Domain
  import opened Ledger
  import opened Exits
  import opened Replay
  import opened Engine
  import H = History
  import G = Gates
  import D = Decision

  /** Two worlds that differ only in what their histories say. */
  ghost predicate SameBut(w: World, v: World) {
    w.cfg == v.cfg && w.setup == v.setup && w.draws == v.draws
  }

  /** The lookups a step makes at one clock come out the same. */
  ghost predicate SeeAlike(w: World, v: World, now: Time) {
    && SameBut(w, v)
    && (forall m: Mint, decimals: nat :: StateOf(w, now, m, decimals) == StateOf(v, now, m, decimals))
    && (forall m: Mint, amount: nat :: RouteOut(w, now, m, amount) == RouteOut(v, now, m, amount))
    && (forall m: Mint, amount: nat :: RouteIn(w, now, m, amount) == RouteIn(v, now, m, amount))
    && (forall m: Mint, age: Option<int> :: RiskAt(w, m, age) == RiskAt(v, m, age))
  }

  function Loaded(w: World, raw: H.Histories): World { w.(histories := H.LoadAll(raw)) }

  lemma AgreeingSeeAlike(w: World, hs: H.Histories, ks: H.Histories, t: Time, now: Time)
    requires H.AgreeUpTo(hs, ks, t) && now <= t
    ensures SeeAlike(Loaded(w, hs), Loaded(w, ks), now)
  {
    H.NoLookahead(hs, ks, w.setup, t, now);
    var a, b := Loaded(w, hs), Loaded(w, ks);
    forall m: Mint, age: Option<int> ensures RiskAt(a, m, age) == RiskAt(b, m, age) {
      if m in hs { assert H.SamePast(hs[m], ks[m], t); }
    }
  }

  lemma FillAlike(w: World, v: World, h: Holding, now: Time, fraction: real, drawn: nat)
    requires SeeAlike(w, v, now)
    ensures SellFill(w, h, now, fraction, drawn) == SellFill(v, h, now, fraction, drawn)
    ensures Draws(w, h, now, fraction) == Draws(v, h, now, fraction)
  {
    assert StateOf(w, now, h.mint, h.decimals) == StateOf(v, now, h.mint, h.decimals);
  }

  lemma CloseAlike(w: World, v: World, d: Desk, now: Time, id: ResId, reason: ExitReason, rung: Option<nat>,
                   fraction: real)
    requires SeeAlike(w, v, now) && id in d.sim.positions
    ensures CloseAt(w, d, now, id, reason, rung, fraction) == CloseAt(v, d, now, id, reason, rung, fraction)
  {
    var h := d.sim.positions[id];
    assert StateOf(w, now, h.mint, h.decimals) == StateOf(v, now, h.mint, h.decimals);
    FillAlike(w, v, h, now, fraction, d.drawn);
    assert ExitAt(w, d, now, id, reason, rung, fraction) == ExitAt(v, d, now, id, reason, rung, fraction);
  }

  lemma TickAlike(w: World, v: World, d: Desk, now: Time, id: ResId)
    requires SeeAlike(w, v, now)
    ensures TickAt(w, d, now, id) == TickAt(v, d, now, id)
  {
    if id in d.sim.positions {
      var h := d.sim.positions[id];
      var m := StateOf(w, now, h.mint, h.decimals);
      assert m == StateOf(v, now, h.mint, h.decimals);
      var marked := Marked(h, m.priceUsd, w.cfg.rules);
      match EvaluateExits(marked, w.cfg.rules, SignalsAt(w, m, h.wallet, now))
      case None =>
      case Some(i) => CloseAlike(w, v, Remark(d, id, marked), now, id, i.reason, i.rung, i.fraction);
    }
  }

  lemma {:induction false} TicksAlike(w: World, v: World, d: Desk, now: Time, ids: seq<ResId>)
    requires SeeAlike(w, v, now)
    ensures TickAll(w, d, now, ids) == TickAll(v, d, now, ids)
  {
    if ids != [] {
      var n := |ids| - 1;
      TicksAlike(w, v, d, now, ids[..n]);
      TickAlike(w, v, TickAll(w, d, now, ids[..n]), now, ids[n]);
    }
  }

  lemma {:induction false} MirrorsAlike(w: World, v: World, d: Desk, now: Time, t: SourceTrade, ids: seq<ResId>)
    requires SeeAlike(w, v, now)
    ensures MirrorAll(w, d, now, t, ids) == MirrorAll(v, d, now, t, ids)
  {
    if ids != [] {
      var n := |ids| - 1;
      MirrorsAlike(w, v, d, now, t, ids[..n]);
      var mid := MirrorAll(w, d, now, t, ids[..n]);
      if ids[n] in mid.sim.positions {
        CloseAlike(w, v, mid, now, ids[n], Mirror, None, if t.action == Sell then 1.0 else 0.5);
      }
    }
  }

  lemma {:induction false} EachAlike(w: World, v: World, now: Time, positions: map<ResId, Holding>, ids: seq<ResId>)
    requires SeeAlike(w, v, now)
    ensures RepriceEach(w, now, positions, ids) == RepriceEach(v, now, positions, ids)
    ensures PaperEach(w, now, positions, ids) == PaperEach(v, now, positions, ids)
  {
    if ids != [] {
      var n := |ids| - 1;
      EachAlike(w, v, now, positions, ids[..n]);
      var table := RepriceEach(w, now, positions, ids[..n]);
      if ids[n] in table { assert PriceAt(w, table[ids[n]], now) == PriceAt(v, table[ids[n]], now); }
    }
  }

  lemma MarkAlike(w: World, v: World, d: Desk, now: Time)
    requires SeeAlike(w, v, now)
    ensures MarkAt(w, d, now) == MarkAt(v, d, now)
  {
    EachAlike(w, v, now, d.sim.positions, d.order);
  }

  lemma SignalAlike(w: World, v: World, now: Time, p: D.Portfolio, t: SourceTrade, trader: G.Trader)
    requires SeeAlike(w, v, now)
    ensures SignalAt(w, now, p, t, trader) == SignalAt(v, now, p, t, trader)
  {
    assert StateOf(w, now, t.mint, t.decimals) == StateOf(v, now, t.mint, t.decimals);
    assert Unquoted(w, now, t, trader) == Unquoted(v, now, t, trader);
  }

  lemma BuyAlike(w: World, v: World, d: Desk, now: Time, t: SourceTrade, trader: G.Trader)
    requires SeeAlike(w, v, now)
    ensures BuyAt(w, d, now, t, trader) == BuyAt(v, d, now, t, trader)
  {
    SignalAlike(w, v, now, D.Snapshot(d.sim.ledger), t, trader);
    assert StateOf(w, now, t.mint, t.decimals) == StateOf(v, now, t.mint, t.decimals);
    DecideAlike(w, v, d, t, SignalAt(w, now, D.Snapshot(d.sim.ledger), t, trader),
                StateOf(w, now, t.mint, t.decimals).decimals);
  }

  /** Once the signal is known, no history is looked at any more. */
  lemma DecideAlike(w: World, v: World, d: Desk, t: SourceTrade, c: G.Signal, decimals: nat)
    requires SameBut(w, v)
    ensures DecideAt(w, d, t, c, decimals) == DecideAt(v, d, t, c, decimals)
  {
    assert Approves(w, d.sim.ledger, t, c) == Approves(v, d.sim.ledger, t, c);
    if Approves(w, d.sim.ledger, t, c) {
      var size := PlanFor(w, d.sim.ledger, c).size;
      assert EntryFor(w, t, size, decimals) == EntryFor(v, t, size, decimals);
      var e := EntryFor(w, t, size, decimals);
      assert BuyFill(w, c, e, d.drawn) == BuyFill(v, c, e, d.drawn);
      assert Reserving(w, d.sim, t, size) == Reserving(v, d.sim, t, size);
    }
  }

  /** The moments a step looks at: when it begins, and where it leaves the clock. */
  lemma StepAlike(w: World, v: World, e: Engine, step: Step)
    requires SeeAlike(w, v, Later(e.clock, step.when)) && SeeAlike(w, v, ClockAfter(w, e.clock, step))
    ensures StepAt(w, e, step) == StepAt(v, e, step)
  {
    var now := ClockAfter(w, e.clock, step);
    if step.TradeStep? {
      TradeAlike(w, v, Engine(Some(Later(e.clock, step.when)), e.desk), step.trade, now);
    }
    var traded := Traded(w, e, step);
    assert traded == Traded(v, e, step);
    TicksAlike(w, v, traded.desk, now, traded.desk.order);
    MarkAlike(w, v, TickAll(w, traded.desk, now, traded.desk.order), now);
  }

  lemma TradeAlike(w: World, v: World, e: Engine, t: SourceTrade, now: Time)
    requires e.clock.Some? && SeeAlike(w, v, e.clock.value) && SeeAlike(w, v, now)
    requires IsBuy(w, t) ==> now == Later(e.clock, Detected(w, t))
    ensures TradeAt(w, e, t) == TradeAt(v, e, t)
  {
    if IsBuy(w, t) {
      BuyAlike(w, v, e.desk, now, t, w.cfg.traders[t.wallet]);
    } else {
      MirrorsAlike(w, v, e.desk, e.clock.value, t, e.desk.order);
    }
  }

  /** Two backtests whose unsorted histories agree on everything up to t and on token metadata, with the same
      settings, draws and timeline, are in the same state after every step that leaves the clock at or before
      t: what they hold, what they booked and what they report. */
  lemma {:induction false} NoLookaheadRun(w: World, hs: H.Histories, ks: H.Histories, t: Time, e: Engine,
                                          steps: seq<Step>)
    requires H.AgreeUpTo(hs, ks, t)
    requires Play(Loaded(w, hs), e, steps).clock.Some? && Play(Loaded(w, hs), e, steps).clock.value <= t
    ensures Play(Loaded(w, hs), e, steps) == Play(Loaded(w, ks), e, steps)
  {
    if steps != [] {
      var a, b, n := Loaded(w, hs), Loaded(w, ks), |steps| - 1;
      var before := Play(a, e, steps[..n]);
      assert before.clock.Some? ==> before.clock.value <= ClockAfter(a, before.clock, steps[n]);
      if before.clock.Some? {
        NoLookaheadRun(w, hs, ks, t, e, steps[..n]);
      } else {
        NoClockNoSteps(a, e, steps[..n]);
        NoClockNoSteps(b, e, steps[..n]);
      }
      AgreeingSeeAlike(w, hs, ks, t, Later(before.clock, steps[n].when));
      AgreeingSeeAlike(w, hs, ks, t, ClockAfter(a, before.clock, steps[n]));
      StepAlike(a, b, before, steps[n]);
    }
  }

  lemma NoClockNoSteps(w: World, e: Engine, steps: seq<Step>)
    requires Play(w, e, steps).clock.None?
    ensures steps == []
  {
  }
}
