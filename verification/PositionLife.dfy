/** What holds over a whole position life: the event log replays to the row, the marks summarise the
    price path, the take-profit ladder fills each rung once, and the ledger gets back the cost it
    lent. */
module PositionLife {
  import opened Numeric
  import opened Domain
  import opened Ledger
  import opened Exits
  import opened Positions
  import LB = LedgerBook

  ghost function Life(rec: Record, rules: ExitRules, ticks: seq<Tick>): Record
    decreases |ticks|
  {
    if ticks == [] then rec else Life(AfterTick(rec, rules, ticks[0]), rules, ticks[1..])
  }

  // ---------------------------------------------------------------- replaying the log

  function AmountSum(events: seq<Event>): int {
    if events == [] then 0 else AmountSum(events[..|events| - 1]) + events[|events| - 1].amountDelta
  }

  function PnlSum(events: seq<Event>): real {
    if events == [] then 0.0 else PnlSum(events[..|events| - 1]) + events[|events| - 1].pnl
  }

  /** What the sales brought in. */
  function Proceeds(events: seq<Event>): real {
    if events == [] then 0.0
    else
      var e := events[|events| - 1];
      Proceeds(events[..|events| - 1]) + if e.kind == Opened then 0.0 else e.usdDelta
  }

  lemma SumsAppend(events: seq<Event>, e: Event)
    ensures AmountSum(events + [e]) == AmountSum(events) + e.amountDelta
    ensures PnlSum(events + [e]) == PnlSum(events) + e.pnl
    ensures Proceeds(events + [e]) == Proceeds(events) + if e.kind == Opened then 0.0 else e.usdDelta
  {
    assert (events + [e])[..|events|] == events;
  }

  ghost predicate Numbered(events: seq<Event>) {
    forall i :: 0 <= i < |events| ==> events[i].number == i
  }

  lemma {:induction false} MaxOfNumbered(events: seq<Event>)
    requires Numbered(events) && events != []
    ensures MaxNumber(events) == |events| - 1
  {
    if |events| > 1 { MaxOfNumbered(events[..|events| - 1]); }
  }

  /** Only the first event opens, and nothing follows a close. */
  ghost predicate WellShaped(events: seq<Event>, isOpen: bool) {
    && events != []
    && (forall i :: 0 <= i < |events| ==> (events[i].kind == Opened <==> i == 0))
    && (forall i :: 0 <= i < |events| ==> (events[i].kind == Closed ==> i == |events| - 1))
    && (isOpen <==> events[|events| - 1].kind != Closed)
  }

  /** The row is what the log says: units, result, and the cost still carried. */
  ghost predicate Faithful(rec: Record) {
    && Numbered(rec.events) && WellShaped(rec.events, rec.row.isOpen)
    && rec.row.amountRaw == AmountSum(rec.events)
    && rec.row.realizedPnl == PnlSum(rec.events)
    && var released := Proceeds(rec.events) - PnlSum(rec.events);
       if rec.row.isOpen then rec.row.costBasis == rec.events[0].usdDelta - released
       else rec.row.amountRaw == 0 && released == rec.events[0].usdDelta
  }

  lemma OpenFaithful(mint: Mint, wallet: Wallet, decimals: nat, at: Time, amount: nat, price: real, valueUsd: real)
    ensures Faithful(OpenRecord(mint, wallet, decimals, at, amount, price, valueUsd))
  {
    var rec := OpenRecord(mint, wallet, decimals, at, amount, price, valueUsd);
    SumsAppend([], rec.events[0]);
    assert rec.events == [] + [rec.events[0]];
  }

  lemma ReduceFaithful(rec: Record, s: Sale)
    requires Faithful(rec) && rec.row.isOpen
    requires 0 < s.amount <= rec.row.amountRaw
    requires s.fully ==> s.amount == rec.row.amountRaw && CostOf(s) == rec.row.costBasis
    ensures Faithful(AfterReduce(rec, s))
  {
    MaxOfNumbered(rec.events);
    SumsAppend(rec.events, SaleEvent(rec.events, s));
  }

  lemma TickFaithful(rec: Record, rules: ExitRules, t: Tick)
    requires Faithful(rec)
    ensures Faithful(AfterTick(rec, rules, t))
  {
    var marked := rec.(row := MarkedRow(rec.row, rules, t));
    match SaleOf(rec.row, rules, t)
    case None =>
    case Some(s) =>
      SaleFacts(rec.row, rules, t);
      ReduceFaithful(marked, s);
  }

  /** Every sale takes at least one unit, releases its share of the basis, and only a take-profit
      names a rung, one that was never hit before. */
  lemma SaleFacts(row: Holding, rules: ExitRules, t: Tick)
    requires SaleOf(row, rules, t).Some?
    ensures var s := SaleOf(row, rules, t).value;
            && 0 < s.amount <= row.amountRaw && row.isOpen
            && (s.fully <==> s.amount == row.amountRaw)
            && (s.fully ==> CostOf(s) == row.costBasis)
            && (row.costBasis >= 0.0 ==> 0.0 <= CostOf(s) <= row.costBasis)
            && CostOf(s) * row.amountRaw as real == row.costBasis * s.amount as real
            && (s.reason == TakeProfit <==> s.rung.Some?)
            && (s.rung.Some? ==>
                && s.rung.value < |rules.ladder| && s.rung.value !in row.levelsHit
                && s.amount == ToSell(row.amountRaw, rules.ladder[s.rung.value].takePct / 100.0))
  {
    var h := Marked(row, t.signals.price, rules);
    var intent := EvaluateExits(h, rules, t.signals).value;
    CostIsShare(h, intent, t.signals.price, t.fill.value);
  }

  lemma {:induction false} LifeFaithful(rec: Record, rules: ExitRules, ticks: seq<Tick>)
    requires Faithful(rec)
    ensures Faithful(Life(rec, rules, ticks))
    decreases |ticks|
  {
    if ticks != [] {
      TickFaithful(rec, rules, ticks[0]);
      LifeFaithful(AfterTick(rec, rules, ticks[0]), rules, ticks[1..]);
    }
  }

  /** Replaying the events of any life gives the row; once closed, what was realized in total is
      what came in less what the position cost. */
  lemma ReplayIsProjection(mint: Mint, wallet: Wallet, decimals: nat, at: Time, amount: nat, price: real,
                           valueUsd: real, rules: ExitRules, ticks: seq<Tick>)
    ensures var rec := Life(OpenRecord(mint, wallet, decimals, at, amount, price, valueUsd), rules, ticks);
            && Faithful(rec)
            && rec.events[0] == Event(0, Opened, amount, valueUsd, 0.0, None)
            && (!rec.row.isOpen ==> rec.row.realizedPnl == Proceeds(rec.events) - valueUsd)
  {
    var open := OpenRecord(mint, wallet, decimals, at, amount, price, valueUsd);
    OpenFaithful(mint, wallet, decimals, at, amount, price, valueUsd);
    LifeFaithful(open, rules, ticks);
    LogOnlyGrows(open, rules, ticks);
  }

  /** No event is ever rewritten or removed. */
  lemma {:induction false} LogOnlyGrows(rec: Record, rules: ExitRules, ticks: seq<Tick>)
    ensures rec.events <= Life(rec, rules, ticks).events
    decreases |ticks|
  {
    if ticks != [] {
      LogOnlyGrows(AfterTick(rec, rules, ticks[0]), rules, ticks[1..]);
    }
  }

  // ---------------------------------------------------------------- marks over a price path

  /** The prices the position was marked at: positive ones, while it was open. */
  ghost function Watched(rec: Record, rules: ExitRules, ticks: seq<Tick>): seq<real>
    decreases |ticks|
  {
    if ticks == [] then []
    else
      (if rec.row.isOpen && ticks[0].signals.price > 0.0 then [ticks[0].signals.price] else [])
      + Watched(AfterTick(rec, rules, ticks[0]), rules, ticks[1..])
  }

  /** The peak is the maximum of the entry mark and every watched price, and the trailing stop is
      armed exactly when that peak has earned it; once armed it stays armed. */
  lemma {:induction false} MarksSummariseThePath(rec: Record, rules: ExitRules, ticks: seq<Tick>)
    ensures var end := Life(rec, rules, ticks).row;
            var watched := Watched(rec, rules, ticks);
            && IsMaximum(end.peakPrice, rec.row.peakPrice, watched)
            && end.entryPrice == rec.row.entryPrice
            && (end.trailingArmed <==>
                rec.row.trailingArmed
                || (watched != [] && end.entryPrice > 0.0
                    && Gain(end.entryPrice, end.peakPrice) >= rules.trailingArmPct))
    decreases |ticks|
  {
    if ticks != [] {
      var next := AfterTick(rec, rules, ticks[0]);
      MarksSummariseThePath(next, rules, ticks[1..]);
      var end := Life(rec, rules, ticks).row;
      var rest := Watched(next, rules, ticks[1..]);
      if rec.row.isOpen && ticks[0].signals.price > 0.0 {
        MaximumOfMore(end.peakPrice, rec.row.peakPrice, ticks[0].signals.price, rest);
        if end.entryPrice > 0.0 { GainMonotone(end.entryPrice, next.row.peakPrice, end.peakPrice); }
      } else {
        assert Watched(rec, rules, ticks) == rest;
      }
    }
  }

  // ---------------------------------------------------------------- the ladder

  ghost predicate Distinct(xs: seq<nat>) {
    forall i, j :: 0 <= i < j < |xs| ==> xs[i] != xs[j]
  }

  function TakeProfits(events: seq<Event>): nat {
    if events == [] then 0
    else TakeProfits(events[..|events| - 1])
         + if events[|events| - 1].reason == Some(TakeProfit) then 1 else 0
  }

  lemma TakeProfitsAppend(events: seq<Event>, e: Event)
    ensures TakeProfits(events + [e]) == TakeProfits(events) + if e.reason == Some(TakeProfit) then 1 else 0
  {
    assert (events + [e])[..|events|] == events;
  }

  ghost predicate RungsOnce(rec: Record, ladder: seq<Rung>) {
    && Distinct(rec.row.levelsHit)
    && (forall i :: 0 <= i < |rec.row.levelsHit| ==> rec.row.levelsHit[i] < |ladder|)
    && TakeProfits(rec.events) == |rec.row.levelsHit|
  }

  lemma TickRungsOnce(rec: Record, rules: ExitRules, t: Tick)
    requires RungsOnce(rec, rules.ladder)
    ensures RungsOnce(AfterTick(rec, rules, t), rules.ladder)
  {
    match SaleOf(rec.row, rules, t)
    case None =>
    case Some(s) =>
      SaleFacts(rec.row, rules, t);
      TakeProfitsAppend(rec.events, SaleEvent(rec.events, s));
  }

  lemma {:induction false} LifeRungsOnce(rec: Record, rules: ExitRules, ticks: seq<Tick>)
    requires RungsOnce(rec, rules.ladder)
    ensures RungsOnce(Life(rec, rules, ticks), rules.ladder)
    decreases |ticks|
  {
    if ticks != [] {
      TickRungsOnce(rec, rules, ticks[0]);
      LifeRungsOnce(AfterTick(rec, rules, ticks[0]), rules, ticks[1..]);
    }
  }

  lemma {:induction false} DistinctBelow(xs: seq<nat>, bound: nat)
    requires Distinct(xs) && forall i :: 0 <= i < |xs| ==> xs[i] < bound
    ensures |xs| <= bound
    decreases bound
  {
    if xs != [] {
      assert xs[0] < bound;
      if i :| 0 <= i < |xs| && xs[i] == bound - 1 {
        DistinctBelow(xs[..i] + xs[i + 1..], bound - 1);
      } else {
        DistinctBelow(xs, bound - 1);
      }
    }
  }

  /** Over any life each rung fills at most once, so there are never more take-profit sales than
      rungs. */
  lemma RungsFillOnce(mint: Mint, wallet: Wallet, decimals: nat, at: Time, amount: nat, price: real,
                      valueUsd: real, rules: ExitRules, ticks: seq<Tick>)
    ensures var rec := Life(OpenRecord(mint, wallet, decimals, at, amount, price, valueUsd), rules, ticks);
            RungsOnce(rec, rules.ladder) && TakeProfits(rec.events) <= |rules.ladder|
  {
    var open := OpenRecord(mint, wallet, decimals, at, amount, price, valueUsd);
    TakeProfitsAppend([], open.events[0]);
    assert open.events == [] + [open.events[0]];
    LifeRungsOnce(open, rules, ticks);
    DistinctBelow(Life(open, rules, ticks).row.levelsHit, |rules.ladder|);
  }

  /** The opening amount times the shares the rungs hit leave behind. */
  function Ideal(opening: nat, ladder: seq<Rung>, hit: seq<nat>): real {
    if hit == [] then opening as real
    else
      var last := hit[|hit| - 1];
      Ideal(opening, ladder, hit[..|hit| - 1]) * if last < |ladder| then 1.0 - ladder[last].takePct / 100.0 else 1.0
  }

  ghost predicate LadderOnly(events: seq<Event>) {
    forall i :: 1 <= i < |events| ==> events[i].reason == Some(TakeProfit)
  }

  predicate Remainder(amount: nat, ideal: real, k: nat) {
    ideal <= amount as real && (if k == 0 then amount as real == ideal else amount as real < ideal + k as real)
  }

  /** Rungs that take something but never the whole position. */
  ghost predicate PartialRungs(ladder: seq<Rung>) {
    forall i :: 0 <= i < |ladder| ==> 0.0 <= ladder[i].takePct < 99.9
  }

  lemma PartialSale(amount: nat, f: real)
    requires 0.0 <= f < 0.999 && amount as real * f >= 1.0
    ensures ToSell(amount, f) < amount
  {
    MulLess(f, 1.0, amount as real);
  }

  lemma SharesKept(whole: real, ideal: real, k: nat, left: real)
    requires ideal <= whole && 0.0 <= left <= 1.0
    requires if k == 0 then whole == ideal else whole < ideal + k as real
    ensures ideal * left <= whole * left <= ideal * left + k as real
  {
    MulMono(left, ideal, whole);
    if k > 0 {
      MulMono(left, whole, ideal + k as real);
      Distributes(ideal, k as real, left);
      MulMono(k as real, left, 1.0);
    }
  }

  lemma RungRemainder(amount: nat, take: real, ideal: real, k: nat)
    requires Remainder(amount, ideal, k) && 0.0 <= take < 99.9
    requires amount as real * (take / 100.0) >= 1.0
    ensures ToSell(amount, take / 100.0) < amount
    ensures Remainder(amount - ToSell(amount, take / 100.0), ideal * (1.0 - take / 100.0), k + 1)
  {
    PartialSale(amount, take / 100.0);
    SharesKept(amount as real, ideal, k, 1.0 - take / 100.0);
  }

  ghost predicate OnLadder(rec: Record, ladder: seq<Rung>, opening: nat) {
    LadderOnly(rec.events) ==>
      Remainder(rec.row.amountRaw, Ideal(opening, ladder, rec.row.levelsHit), |rec.row.levelsHit|)
  }

  lemma IdealAppend(opening: nat, ladder: seq<Rung>, hit: seq<nat>, idx: nat)
    requires idx < |ladder|
    ensures Ideal(opening, ladder, hit + [idx]) == Ideal(opening, ladder, hit) * (1.0 - ladder[idx].takePct / 100.0)
  {
    assert (hit + [idx])[..|hit|] == hit;
  }

  lemma LadderOnlyPrefix(events: seq<Event>, e: Event)
    requires LadderOnly(events + [e]) && events != []
    ensures LadderOnly(events) && e.reason == Some(TakeProfit)
  {
    forall i | 1 <= i < |events| ensures events[i].reason == Some(TakeProfit) {
      assert (events + [e])[i] == events[i];
    }
    assert (events + [e])[|events|] == e;
  }

  lemma TickOnLadder(rec: Record, rules: ExitRules, t: Tick, opening: nat)
    requires rec.events != [] && PartialRungs(rules.ladder) && OnLadder(rec, rules.ladder, opening)
    ensures OnLadder(AfterTick(rec, rules, t), rules.ladder, opening)
  {
    match SaleOf(rec.row, rules, t)
    case None =>
    case Some(s) =>
      if LadderOnly(rec.events + [SaleEvent(rec.events, s)]) {
        SaleFacts(rec.row, rules, t);
        LadderOnlyPrefix(rec.events, SaleEvent(rec.events, s));
        LadderStep(rec.row, s, rules.ladder, opening);
      }
  }

  lemma LadderStep(row: Holding, s: Sale, ladder: seq<Rung>, opening: nat)
    requires PartialRungs(ladder) && s.rung.Some? && s.rung.value < |ladder| && s.rung.value !in row.levelsHit
    requires s.amount > 0 && s.amount == ToSell(row.amountRaw, ladder[s.rung.value].takePct / 100.0)
    requires Remainder(row.amountRaw, Ideal(opening, ladder, row.levelsHit), |row.levelsHit|)
    ensures s.amount < row.amountRaw
    ensures Remainder(row.amountRaw - s.amount, Ideal(opening, ladder, WithRung(row.levelsHit, s.rung)),
                      |WithRung(row.levelsHit, s.rung)|)
  {
    IdealAppend(opening, ladder, row.levelsHit, s.rung.value);
    RungRemainder(row.amountRaw, ladder[s.rung.value].takePct, Ideal(opening, ladder, row.levelsHit), |row.levelsHit|);
  }

  lemma {:induction false} LifeOnLadder(rec: Record, rules: ExitRules, ticks: seq<Tick>, opening: nat)
    requires rec.events != [] && PartialRungs(rules.ladder) && OnLadder(rec, rules.ladder, opening)
    ensures OnLadder(Life(rec, rules, ticks), rules.ladder, opening)
    decreases |ticks|
  {
    if ticks != [] {
      TickOnLadder(rec, rules, ticks[0], opening);
      LifeOnLadder(AfterTick(rec, rules, ticks[0]), rules, ticks[1..], opening);
    }
  }

  /** After k ladder fills and nothing else, what is left is the product of the kept shares, and less
      than k units above it: each fill rounds its sale down by less than one unit. */
  lemma LadderRemainder(mint: Mint, wallet: Wallet, decimals: nat, at: Time, amount: nat, price: real,
                        valueUsd: real, rules: ExitRules, ticks: seq<Tick>)
    requires PartialRungs(rules.ladder)
    ensures var rec := Life(OpenRecord(mint, wallet, decimals, at, amount, price, valueUsd), rules, ticks);
            LadderOnly(rec.events)
            ==> Remainder(rec.row.amountRaw, Ideal(amount, rules.ladder, rec.row.levelsHit), |rec.row.levelsHit|)
  {
    LifeOnLadder(OpenRecord(mint, wallet, decimals, at, amount, price, valueUsd), rules, ticks, amount);
  }

  // ---------------------------------------------------------------- the ledger's share

  /** The ledger's claim for this position is its row. */
  ghost predicate Claimed(b: LB.Book, id: ResId, row: Holding) {
    if row.isOpen then id in b.claims && b.claims[id] == LB.Claim(row.mint, row.wallet, row.costBasis, true)
    else id !in b.claims
  }

  /** An exit tick is always a legal ledger operation on the position's own claim, and afterwards the
      claim is the new row again: the ledger gets back exactly the cost that leaves the position. */
  lemma ExitKeepsClaim(rec: Record, rules: ExitRules, t: Tick, b: LB.Book, lim: Limits, id: ResId)
    requires Claimed(b, id, rec.row) && LB.TablesAgree(b)
    ensures match SaleOf(rec.row, rules, t)
            case None => Claimed(b, id, AfterTick(rec, rules, t).row)
            case Some(s) =>
              var op := LB.Exit(id, CostOf(s), s.pnl, s.proceeds, s.fully);
              LB.Legal(b, op) && Claimed(LB.Apply(b, lim, op), id, AfterTick(rec, rules, t).row)
  {
    if SaleOf(rec.row, rules, t).Some? { SaleFacts(rec.row, rules, t); }
  }
}
