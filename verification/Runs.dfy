/** Whole backtests (src/asm/backtest/engine.py), from the source trades to the result: what is reported
    at the end agrees, and what comes later than the clock has no influence. */
module Runs {
  import opened Numeric
  import opened Domain
  import opened Sorting
  import opened Ledger
  import opened Drawdown
  import opened Replay
  import opened Engine
  import opened Timeline
  import H = History
  import B = EngineBlind
  import S = EngineSound

  /** No two trades share an id. */
  function IdOf(t: SourceTrade): set<ResId> { {t.id} }

  lemma {:induction false} TradeStepAt(trades: seq<SourceTrade>, i: nat)
    requires i < |trades|
    ensures |TradeSteps(trades)| == |trades| && TradeSteps(trades)[i] == TradeStep(trades[i].at, trades[i])
  {
    var n := |trades| - 1;
    if i < n {
      TradeStepAt(trades[..n], i);
    } else if n > 0 {
      TradeStepAt(trades[..n], 0);
    }
  }

  lemma {:induction false} PointsHaveNoIds(points: seq<H.PricePoint>, start: Time, end: Time)
    ensures forall s :: s in PointSteps(points, start, end) ==> s.PriceStep?
  {
    if points != [] { PointsHaveNoIds(points[..|points| - 1], start, end); }
  }

  lemma {:induction false} PricesHaveNoIds(hs: H.Histories, mints: seq<Mint>, start: Time, end: Time)
    ensures forall s :: s in PriceSteps(hs, mints, start, end) ==> s.PriceStep?
  {
    if mints != [] {
      PricesHaveNoIds(hs, mints[..|mints| - 1], start, end);
      PointsHaveNoIds(PointsOf(hs, mints[|mints| - 1]), start, end);
    }
  }

  lemma TradeStepsApart(trades: seq<SourceTrade>)
    requires Apart(trades, IdOf)
    ensures Apart(TradeSteps(trades), S.Ids)
  {
    var steps := TradeSteps(trades);
    if trades != [] { TradeStepAt(trades, 0); }
    forall i, j | 0 <= i < j < |steps| ensures S.Ids(steps[i]) !! S.Ids(steps[j]) {
      TradeStepAt(trades, i);
      TradeStepAt(trades, j);
      assert IdOf(trades[i]) !! IdOf(trades[j]);
    }
  }

  lemma NoIdsBehind(steps: seq<Step>, prices: seq<Step>)
    requires Apart(steps, S.Ids) && forall s :: s in prices ==> s.PriceStep?
    ensures Apart(steps + prices, S.Ids)
  {
    forall i, j | 0 <= i < j < |steps + prices|
      ensures S.Ids((steps + prices)[i]) !! S.Ids((steps + prices)[j])
    {
      if j >= |steps| { assert (steps + prices)[j] in prices; }
    }
  }

  /** Trades with ids of their own make steps with ids of their own. */
  lemma TimelineOwnIds(hs: H.Histories, mints: seq<Mint>, trades: seq<SourceTrade>, maxHoldSeconds: int)
    requires Apart(trades, IdOf)
    ensures S.OwnIds(TimelineOf(hs, mints, trades, maxHoldSeconds))
  {
    if trades != [] {
      var sorted := SortedOnes(trades);
      SortApart(trades, ConfirmedAt, IdOf);
      TradeStepsApart(sorted);
      PricesHaveNoIds(hs, mints, Opens(sorted), Ends(sorted, maxHoldSeconds));
      NoIdsBehind(TradeSteps(sorted), PriceSteps(hs, mints, Opens(sorted), Ends(sorted, maxHoldSeconds)));
      SortApart(Events(hs, mints, sorted, maxHoldSeconds), Rank, S.Ids);
      assert Apart(TimelineOf(hs, mints, trades, maxHoldSeconds), S.Ids);
    }
  }

  /** The capital, the equity after every step of the timeline, and the equity at the end. */
  ghost function CurveOf(w: World, mints: seq<Mint>, trades: seq<SourceTrade>): seq<real> {
    S.Curve(w, TimelineOf(w.histories, mints, trades, w.cfg.rules.maxHoldSeconds))
    + [RunOf(w, mints, trades).desk.sim.ledger.equity]
  }

  /** A backtest over any source trades, each with an id of its own, reports numbers that agree with ledger and
      positions, closes no trade before it opened, and gives as drawdown the worst fall of its equities. */
  lemma BacktestReports(w: World, mints: seq<Mint>, trades: seq<SourceTrade>)
    requires w.cfg.capital >= 0.0 && Apart(trades, IdOf) && trades != []
    ensures var end := RunOf(w, mints, trades);
            && NumbersAgree(end.desk.sim, w.cfg.capital, Fee(w)) && end.clock.Some?
            && S.Ordered(end.desk.sim.tally.trades, end.desk.sim.positions, end.clock.value)
            && (w.cfg.capital > 0.0 ==> DrawdownReported(w, mints, trades))
  {
    var hold := w.cfg.rules.maxHoldSeconds;
    var timeline := TimelineOf(w.histories, mints, trades, hold);
    PlanNotEmpty(w.histories, mints, SortedOnes(trades), hold);
    TimelineOwnIds(w.histories, mints, trades, hold);
    S.RunReports(w, timeline, timeline[|timeline| - 1].when);
  }

  ghost predicate DrawdownReported(w: World, mints: seq<Mint>, trades: seq<SourceTrade>)
    requires w.cfg.capital > 0.0
  {
    S.DrawdownAgrees(RunOf(w, mints, trades).desk.sim.tally, CurveOf(w, mints, trades), w.cfg.capital)
  }

  /** The first n steps of a backtest over these histories and trades. */
  function Played(w: World, raw: H.Histories, mints: seq<Mint>, trades: seq<SourceTrade>, n: nat): Engine {
    var timeline := TimelineOf(H.LoadAll(raw), mints, trades, w.cfg.rules.maxHoldSeconds);
    Play(B.Loaded(w, raw), Start(w.cfg), if n <= |timeline| then timeline[..n] else timeline)
  }

  function Steps(w: World, raw: H.Histories, mints: seq<Mint>, trades: seq<SourceTrade>): nat {
    |TimelineOf(H.LoadAll(raw), mints, trades, w.cfg.rules.maxHoldSeconds)|
  }

  predicate InBothWindows(trades: seq<SourceTrade>, others: seq<SourceTrade>, maxHoldSeconds: int, t: Time) {
    && trades != [] && others != []
    && t <= Ends(SortedOnes(trades), maxHoldSeconds) && t <= Ends(SortedOnes(others), maxHoldSeconds)
  }

  lemma ClockPassesAll(w: World, timeline: seq<Step>, n: nat)
    requires 0 < n <= |timeline|
    ensures Play(w, Start(w.cfg), timeline[..n]).clock.Some?
    ensures forall i :: 0 <= i < n ==> timeline[i].when <= Play(w, Start(w.cfg), timeline[..n]).clock.value
  {
    var steps := timeline[..n];
    S.PlayClock(w, Start(w.cfg), steps);
    S.ClockPasses(w, None, steps);
    assert forall i :: 0 <= i < n ==> timeline[i] == steps[i];
  }

  /** Neither later prices nor later trades have any influence: two backtests whose histories and source trades
      agree up to t, each on the timeline it builds from its own, are in the same state after n steps whenever
      n steps leave the clock at or before t. */
  lemma NoLookaheadBacktest(w: World, hs: H.Histories, ks: H.Histories, mints: seq<Mint>, trades: seq<SourceTrade>,
                            others: seq<SourceTrade>, t: Time, n: nat)
    requires H.AgreeUpTo(hs, ks, t) && SameTradesUpTo(trades, others, t)
    requires InBothWindows(trades, others, w.cfg.rules.maxHoldSeconds, t)
    requires 0 < n <= Steps(w, hs, mints, trades)
    requires Played(w, hs, mints, trades, n).clock.Some? && Played(w, hs, mints, trades, n).clock.value <= t
    ensures n <= Steps(w, ks, mints, others)
    ensures Played(w, hs, mints, trades, n) == Played(w, ks, mints, others, n)
  {
    var hold := w.cfg.rules.maxHoldSeconds;
    var timeline := TimelineOf(H.LoadAll(hs), mints, trades, hold);
    ClockPassesAll(B.Loaded(w, hs), timeline, n);
    PrefixesAgree(hs, ks, mints, trades, others, hold, t, n);
    B.NoLookaheadRun(w, hs, ks, t, Start(w.cfg), timeline[..n]);
  }
}
