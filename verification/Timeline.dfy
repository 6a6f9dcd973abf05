/** The timeline of a backtest (_build_timeline in src/asm/backtest/engine.py): source trades interleaved
    with the price points of the window they span, in time order. */
module Timeline {
  import opened Numeric
  import opened Domain
  import opened Sorting
  import opened Engine
  import H = History

  function ConfirmedAt(t: SourceTrade): Time { t.at }

  function SortedTrades(trades: seq<SourceTrade>): seq<SourceTrade> { Sort(trades, ConfirmedAt) }

  /** By time, prices before trades. */
  function Rank(s: Step): int { 2 * s.when + if s.TradeStep? then 1 else 0 }

  predicate InWindow(p: H.PricePoint, start: Time, end: Time) { start <= p.at <= end }

  function TradeSteps(trades: seq<SourceTrade>): seq<Step> {
    if trades == [] then []
    else
      var t := trades[|trades| - 1];
      TradeSteps(trades[..|trades| - 1]) + [TradeStep(t.at, t)]
  }

  function PointSteps(points: seq<H.PricePoint>, start: Time, end: Time): seq<Step> {
    if points == [] then []
    else
      var front, p := PointSteps(points[..|points| - 1], start, end), points[|points| - 1];
      if InWindow(p, start, end) then front + [PriceStep(p.at)] else front
  }

  function PointsOf(hs: H.Histories, m: Mint): seq<H.PricePoint> { if m in hs then hs[m].points else [] }

  /** The price steps of the histories, in the order the dictionary lists them. */
  function PriceSteps(hs: H.Histories, mints: seq<Mint>, start: Time, end: Time): seq<Step> {
    if mints == [] then []
    else PriceSteps(hs, mints[..|mints| - 1], start, end) + PointSteps(PointsOf(hs, mints[|mints| - 1]), start, end)
  }

  /** The window: from the first trade to as long after the last one as a position may be held. */
  function Opens(sorted: seq<SourceTrade>): Time
    requires sorted != []
  {
    sorted[0].at
  }

  function Ends(sorted: seq<SourceTrade>, maxHoldSeconds: int): Time
    requires sorted != []
  {
    sorted[|sorted| - 1].at + maxHoldSeconds * SECOND
  }

  function SortedOnes(trades: seq<SourceTrade>): (sorted: seq<SourceTrade>)
    requires trades != []
    ensures sorted == SortedTrades(trades) && sorted != []
  {
    SortKeeps(trades, ConfirmedAt);
    assert |multiset(Sort(trades, ConfirmedAt))| == |multiset(trades)| > 0;
    SortedTrades(trades)
  }

  /** The window opens at the earliest trade, and ends as long after the latest as a position may be held. */
  lemma WindowMeans(trades: seq<SourceTrade>, maxHoldSeconds: int)
    requires trades != []
    ensures var sorted := SortedOnes(trades);
            var start, end := Opens(sorted), Ends(sorted, maxHoldSeconds);
            && (forall t :: t in trades ==> start <= t.at && t.at + maxHoldSeconds * SECOND <= end)
            && (exists t :: t in trades && t.at == start)
            && (exists t :: t in trades && t.at + maxHoldSeconds * SECOND == end)
  {
    var sorted := SortedOnes(trades);
    SortSorts(trades, ConfirmedAt);
    forall t | t in trades
      ensures Opens(sorted) <= t.at && t.at + maxHoldSeconds * SECOND <= Ends(sorted, maxHoldSeconds)
    {
      Members(trades, sorted, t);
      var i :| 0 <= i < |sorted| && sorted[i] == t;
      assert ConfirmedAt(sorted[0]) <= ConfirmedAt(sorted[i]) <= ConfirmedAt(sorted[|sorted| - 1]);
    }
    Members(sorted, trades, sorted[0]);
    Members(sorted, trades, sorted[|sorted| - 1]);
  }

  /** The events before they are sorted. */
  function Events(hs: H.Histories, mints: seq<Mint>, sorted: seq<SourceTrade>, maxHoldSeconds: int): seq<Step>
    requires sorted != []
  {
    TradeSteps(sorted) + PriceSteps(hs, mints, Opens(sorted), Ends(sorted, maxHoldSeconds))
  }

  function Plan(hs: H.Histories, mints: seq<Mint>, sorted: seq<SourceTrade>, maxHoldSeconds: int): seq<Step>
    requires sorted != []
  {
    Sort(Events(hs, mints, sorted, maxHoldSeconds), Rank)
  }

  /** The timeline a run over these trades replays. */
  function TimelineOf(hs: H.Histories, mints: seq<Mint>, trades: seq<SourceTrade>, maxHoldSeconds: int): seq<Step> {
    if trades == [] then [] else Plan(hs, mints, SortedOnes(trades), maxHoldSeconds)
  }

  lemma PlanNotEmpty(hs: H.Histories, mints: seq<Mint>, sorted: seq<SourceTrade>, maxHoldSeconds: int)
    requires sorted != []
    ensures Plan(hs, mints, sorted, maxHoldSeconds) != []
  {
    var events := Events(hs, mints, sorted, maxHoldSeconds);
    SortKeeps(events, Rank);
    assert |multiset(Sort(events, Rank))| == |multiset(events)| > 0;
  }

  /** Where a whole backtest ends: the timeline is replayed and whatever is still open is closed at its end. */
  function RunOf(w: World, mints: seq<Mint>, trades: seq<SourceTrade>): Engine {
    var timeline := TimelineOf(w.histories, mints, trades, w.cfg.rules.maxHoldSeconds);
    if timeline == [] then Start(w.cfg)
    else FinishAt(w, Play(w, Start(w.cfg), timeline), timeline[|timeline| - 1].when)
  }

  method BuildTimeline(hs: H.Histories, mints: seq<Mint>, sorted: seq<SourceTrade>, maxHoldSeconds: int)
    returns (timeline: seq<Step>)
    requires sorted != []
    ensures timeline == Plan(hs, mints, sorted, maxHoldSeconds)
  {
    var events := TradeSteps(sorted);
    var start, end := Opens(sorted), Ends(sorted, maxHoldSeconds);
    for n := 0 to |mints|
      invariant events == TradeSteps(sorted) + PriceSteps(hs, mints[..n], start, end)
    {
      assert mints[..n + 1][..n] == mints[..n];
      events := AddPoints(events, PointsOf(hs, mints[n]), start, end);
    }
    assert mints[..|mints|] == mints;
    timeline := Sort(events, Rank);
  }

  method AddPoints(before: seq<Step>, points: seq<H.PricePoint>, start: Time, end: Time) returns (events: seq<Step>)
    ensures events == before + PointSteps(points, start, end)
  {
    events := before;
    for k := 0 to |points|
      invariant events == before + PointSteps(points[..k], start, end)
    {
      assert points[..k + 1][..k] == points[..k];
      if InWindow(points[k], start, end) { events := events + [PriceStep(points[k].at)]; }
    }
    assert points[..|points|] == points;
  }

  // ---------------------------------------------------------------- what is on it

  lemma TradeStepsAppend(trades: seq<SourceTrade>, t: SourceTrade)
    ensures TradeSteps(trades + [t]) == TradeSteps(trades) + [TradeStep(t.at, t)]
  {
    assert (trades + [t])[..|trades|] == trades;
  }

  lemma PointStepsAppend(points: seq<H.PricePoint>, p: H.PricePoint, start: Time, end: Time)
    ensures PointSteps(points + [p], start, end)
         == if InWindow(p, start, end) then PointSteps(points, start, end) + [PriceStep(p.at)]
            else PointSteps(points, start, end)
  {
    assert (points + [p])[..|points|] == points;
  }

  lemma {:induction false} TradesAt(trades: seq<SourceTrade>, at: Time)
    ensures Keyed(TradeSteps(trades), Rank, 2 * at + 1) == TradeSteps(Keyed(trades, ConfirmedAt, at))
    ensures Keyed(TradeSteps(trades), Rank, 2 * at) == []
  {
    if trades != [] {
      var n := |trades| - 1;
      var step := TradeStep(trades[n].at, trades[n]);
      TradesAt(trades[..n], at);
      KeyedAppend(TradeSteps(trades[..n]), Rank, 2 * at + 1, step);
      KeyedAppend(TradeSteps(trades[..n]), Rank, 2 * at, step);
      TradeStepsAppend(Keyed(trades[..n], ConfirmedAt, at), trades[n]);
    }
  }

  lemma {:induction false} PointsAt(points: seq<H.PricePoint>, start: Time, end: Time, at: Time)
    ensures Keyed(PointSteps(points, start, end), Rank, 2 * at + 1) == []
    ensures Keyed(PointSteps(points, start, end), Rank, 2 * at)
         == if start <= at <= end then PointSteps(points, at, at) else []
  {
    if points != [] {
      var n := |points| - 1;
      PointsAt(points[..n], start, end, at);
      KeyedAppend(PointSteps(points[..n], start, end), Rank, 2 * at + 1, PriceStep(points[n].at));
      KeyedAppend(PointSteps(points[..n], start, end), Rank, 2 * at, PriceStep(points[n].at));
    }
  }

  lemma {:induction false} PricesAt(hs: H.Histories, mints: seq<Mint>, start: Time, end: Time, at: Time)
    ensures Keyed(PriceSteps(hs, mints, start, end), Rank, 2 * at + 1) == []
    ensures Keyed(PriceSteps(hs, mints, start, end), Rank, 2 * at)
         == if start <= at <= end then PriceSteps(hs, mints, at, at) else []
  {
    if mints != [] {
      var n := |mints| - 1;
      var earlier, points := PriceSteps(hs, mints[..n], start, end), PointsOf(hs, mints[n]);
      PricesAt(hs, mints[..n], start, end, at);
      PointsAt(points, start, end, at);
      KeyedConcat(earlier, PointSteps(points, start, end), Rank, 2 * at + 1);
      KeyedConcat(earlier, PointSteps(points, start, end), Rank, 2 * at);
    }
  }

  /** The timeline runs in order of time, prices before trades, and at every moment it holds exactly the trades
      given for that moment, in the order given, and, within the window, every price observed then. */
  lemma TimelineIs(hs: H.Histories, mints: seq<Mint>, trades: seq<SourceTrade>, maxHoldSeconds: int, at: Time)
    requires trades != []
    ensures var timeline, sorted := TimelineOf(hs, mints, trades, maxHoldSeconds), SortedOnes(trades);
            && Ordered(timeline, Rank)
            && Keyed(timeline, Rank, 2 * at + 1) == TradeSteps(Keyed(trades, ConfirmedAt, at))
            && Keyed(timeline, Rank, 2 * at)
               == if Opens(sorted) <= at <= Ends(sorted, maxHoldSeconds) then PriceSteps(hs, mints, at, at) else []
  {
    var sorted := SortedOnes(trades);
    var prices := PriceSteps(hs, mints, Opens(sorted), Ends(sorted, maxHoldSeconds));
    SortOrders(TradeSteps(sorted) + prices, Rank);
    SortStable(TradeSteps(sorted) + prices, Rank, 2 * at + 1);
    SortStable(TradeSteps(sorted) + prices, Rank, 2 * at);
    KeyedConcat(TradeSteps(sorted), prices, Rank, 2 * at + 1);
    KeyedConcat(TradeSteps(sorted), prices, Rank, 2 * at);
    TradesAt(sorted, at);
    PricesAt(hs, mints, Opens(sorted), Ends(sorted, maxHoldSeconds), at);
    SortStable(trades, ConfirmedAt, at);
  }

  // ---------------------------------------------------------------- what it shows of the future

  lemma {:induction false} TradesUpto(trades: seq<SourceTrade>, t: Time)
    ensures Upto(TradeSteps(trades), Rank, 2 * t + 1) == TradeSteps(Upto(trades, ConfirmedAt, t))
  {
    if trades != [] {
      var n := |trades| - 1;
      TradesUpto(trades[..n], t);
      UptoAppend(TradeSteps(trades[..n]), Rank, 2 * t + 1, TradeStep(trades[n].at, trades[n]));
      TradeStepsAppend(Upto(trades[..n], ConfirmedAt, t), trades[n]);
    }
  }

  lemma {:induction false} PointsUpto(points: seq<H.PricePoint>, start: Time, end: Time, t: Time)
    requires t <= end
    ensures Upto(PointSteps(points, start, end), Rank, 2 * t + 1) == PointSteps(H.Seen(points, t), start, t)
    ensures start > t ==> PointSteps(H.Seen(points, t), start, t) == []
  {
    if points != [] {
      var n := |points| - 1;
      PointsUpto(points[..n], start, end, t);
      UptoAppend(PointSteps(points[..n], start, end), Rank, 2 * t + 1, PriceStep(points[n].at));
      PointStepsAppend(H.Seen(points[..n], t), points[n], start, t);
    }
  }

  /** What is on the timeline up to t, of one history, depends on what is seen of it by then. */
  lemma HistoryAgrees(hs: H.Histories, ks: H.Histories, m: Mint, t: Time)
    requires H.AgreeUpTo(hs, ks, t)
    ensures H.Seen(PointsOf(H.LoadAll(hs), m), t) == H.Seen(PointsOf(H.LoadAll(ks), m), t)
  {
    if m in hs {
      assert H.SamePast(hs[m], ks[m], t);
      UptoSort(hs[m].points, H.Moment, t);
      UptoSort(ks[m].points, H.Moment, t);
    }
  }

  /** The windows may end differently, and begin differently when they begin after t. */
  lemma {:induction false} PricesAgree(hs: H.Histories, ks: H.Histories, mints: seq<Mint>, start: Time, begin: Time,
                                       end: Time, close: Time, t: Time)
    requires H.AgreeUpTo(hs, ks, t) && t <= end && t <= close && (start == begin || (start > t && begin > t))
    ensures Upto(PriceSteps(H.LoadAll(hs), mints, start, end), Rank, 2 * t + 1)
         == Upto(PriceSteps(H.LoadAll(ks), mints, begin, close), Rank, 2 * t + 1)
  {
    if mints != [] {
      var n := |mints| - 1;
      var ps, qs := PointsOf(H.LoadAll(hs), mints[n]), PointsOf(H.LoadAll(ks), mints[n]);
      PricesAgree(hs, ks, mints[..n], start, begin, end, close, t);
      HistoryAgrees(hs, ks, mints[n], t);
      PointsUpto(ps, start, end, t);
      PointsUpto(qs, begin, close, t);
      UptoConcat(PriceSteps(H.LoadAll(hs), mints[..n], start, end), PointSteps(ps, start, end), Rank, 2 * t + 1);
      UptoConcat(PriceSteps(H.LoadAll(ks), mints[..n], begin, close), PointSteps(qs, begin, close), Rank, 2 * t + 1);
    }
  }

  /** Trades that agree up to t: the same ones, in the same order. */
  predicate SameTradesUpTo(trades: seq<SourceTrade>, others: seq<SourceTrade>, t: Time) {
    Upto(trades, ConfirmedAt, t) == Upto(others, ConfirmedAt, t)
  }

  lemma WindowsOpenAlike(trades: seq<SourceTrade>, others: seq<SourceTrade>, t: Time)
    requires trades != [] && others != [] && SameTradesUpTo(trades, others, t)
    ensures var a, b := SortedOnes(trades), SortedOnes(others);
            && Upto(a, ConfirmedAt, t) == Upto(b, ConfirmedAt, t)
            && (Opens(a) == Opens(b) || (Opens(a) > t && Opens(b) > t))
  {
    var a, b := SortedOnes(trades), SortedOnes(others);
    UptoSort(trades, ConfirmedAt, t);
    UptoSort(others, ConfirmedAt, t);
    SortOrders(trades, ConfirmedAt);
    SortOrders(others, ConfirmedAt);
    UptoPrefix(a, ConfirmedAt, t);
    UptoPrefix(b, ConfirmedAt, t);
    if Upto(a, ConfirmedAt, t) != [] {
      assert a[0] == Upto(a, ConfirmedAt, t)[0] == b[0];
    } else {
      assert ConfirmedAt(a[0]) > t && ConfirmedAt(b[0]) > t;
    }
  }

  /** Histories and trades that agree up to t give timelines that are equal up to t, as long as t lies in the
      windows of both. */
  lemma TimelinesAgree(hs: H.Histories, ks: H.Histories, mints: seq<Mint>, trades: seq<SourceTrade>,
                       others: seq<SourceTrade>, maxHoldSeconds: int, t: Time)
    requires H.AgreeUpTo(hs, ks, t) && trades != [] && others != [] && SameTradesUpTo(trades, others, t)
    requires t <= Ends(SortedOnes(trades), maxHoldSeconds) && t <= Ends(SortedOnes(others), maxHoldSeconds)
    ensures Upto(TimelineOf(H.LoadAll(hs), mints, trades, maxHoldSeconds), Rank, 2 * t + 1)
         == Upto(TimelineOf(H.LoadAll(ks), mints, others, maxHoldSeconds), Rank, 2 * t + 1)
  {
    WindowsOpenAlike(trades, others, t);
    var a, b := SortedOnes(trades), SortedOnes(others);
    var p := PriceSteps(H.LoadAll(hs), mints, Opens(a), Ends(a, maxHoldSeconds));
    var q := PriceSteps(H.LoadAll(ks), mints, Opens(b), Ends(b, maxHoldSeconds));
    PricesAgree(hs, ks, mints, Opens(a), Opens(b), Ends(a, maxHoldSeconds), Ends(b, maxHoldSeconds), t);
    TradesUpto(a, t);
    TradesUpto(b, t);
    UptoConcat(TradeSteps(a), p, Rank, 2 * t + 1);
    UptoConcat(TradeSteps(b), q, Rank, 2 * t + 1);
    UptoSort(TradeSteps(a) + p, Rank, 2 * t + 1);
    UptoSort(TradeSteps(b) + q, Rank, 2 * t + 1);
  }

  /** So every start of one that does not go past t is a start of the other. */
  lemma PrefixesAgree(hs: H.Histories, ks: H.Histories, mints: seq<Mint>, trades: seq<SourceTrade>,
                      others: seq<SourceTrade>, maxHoldSeconds: int, t: Time, n: nat)
    requires H.AgreeUpTo(hs, ks, t) && trades != [] && others != [] && SameTradesUpTo(trades, others, t)
    requires t <= Ends(SortedOnes(trades), maxHoldSeconds) && t <= Ends(SortedOnes(others), maxHoldSeconds)
    requires var timeline := TimelineOf(H.LoadAll(hs), mints, trades, maxHoldSeconds);
             n <= |timeline| && forall i :: 0 <= i < n ==> timeline[i].when <= t
    ensures var timeline, other := TimelineOf(H.LoadAll(hs), mints, trades, maxHoldSeconds),
                                   TimelineOf(H.LoadAll(ks), mints, others, maxHoldSeconds);
            n <= |other| && timeline[..n] == other[..n]
  {
    var x, y := TimelineOf(H.LoadAll(hs), mints, trades, maxHoldSeconds),
                TimelineOf(H.LoadAll(ks), mints, others, maxHoldSeconds);
    TimelinesAgree(hs, ks, mints, trades, others, maxHoldSeconds, t);
    TimelineIs(H.LoadAll(hs), mints, trades, maxHoldSeconds, t);
    TimelineIs(H.LoadAll(ks), mints, others, maxHoldSeconds, t);
    SameStart(x, y, Rank, 2 * t + 1, n);
  }
}
