/** What the exit rules mean in prices and times (src/asm/engine/exits.py), and what a tick that sells books
    (src/asm/services/position_service.py): which rule closes how much of a position, and at which price. */
module ExitMeaning {
  import opened Numeric
  import opened Domain
  import opened Exits
  import opened Positions
  import opened PositionLife

  // ---------------------------------------------------------------- the conditions, in prices

  /** At or past so many percent above the entry price; an entry price of zero or less counts as no move. */
  predicate Reaches(entry: real, price: real, pct: real) {
    if entry > 0.0 then price >= entry + Percent(entry, pct) else pct <= 0.0
  }

  /** The stop price, a negative percentage above entry, or below it. */
  predicate AtStop(h: Holding, rules: ExitRules, price: real) {
    if h.entryPrice > 0.0 then price <= h.entryPrice + Percent(h.entryPrice, rules.stopLossPct)
    else rules.stopLossPct >= 0.0
  }

  /** Less than twice the position's value can be sold. */
  predicate ThinExit(h: Holding, s: Signals) {
    s.exitLiquidity.Some? && s.exitLiquidity.value < 2.0 * (Ui(h.amountRaw, h.decimals) * h.currentPrice)
  }

  predicate TraderLost(s: Signals) {
    s.trader == Some(Degraded) || s.trader == Some(Suspended) || s.trader == Some(Blacklisted)
  }

  /** The peak earned the trailing stop, and the price fell that far from it. */
  predicate FellFromPeak(h: Holding, rules: ExitRules, price: real) {
    && h.peakPrice > 0.0 && h.entryPrice > 0.0
    && (h.trailingArmed || Reaches(h.entryPrice, h.peakPrice, rules.trailingArmPct))
    && price <= h.peakPrice - Percent(h.peakPrice, rules.trailingStopPct)
  }

  predicate Protects(h: Holding, rules: ExitRules, s: Signals) {
    AtStop(h, rules, s.price) || ThinExit(h, s) || TraderLost(s) || FellFromPeak(h, rules, s.price)
  }

  predicate RungDue(h: Holding, rules: ExitRules, price: real, i: nat) {
    i < |rules.ladder| && i !in h.levelsHit && Reaches(h.entryPrice, price, rules.ladder[i].thresholdPct)
  }

  predicate FirstDue(h: Holding, rules: ExitRules, price: real, i: nat) {
    RungDue(h, rules, price, i) && forall j :: 0 <= j < i ==> !RungDue(h, rules, price, j)
  }

  predicate AnyDue(h: Holding, rules: ExitRules, price: real) {
    exists i :: 0 <= i < |rules.ladder| && RungDue(h, rules, price, i)
  }

  /** More whole seconds than that. */
  predicate Longer(span: Time, seconds: int) {
    if seconds >= 0 then span >= (seconds + 1) * SECOND else span > seconds * SECOND
  }

  predicate Applies(h: Holding, rules: ExitRules, s: Signals) {
    Protects(h, rules, s) || AnyDue(h, rules, s.price) || s.sourceSold.Some?
    || Longer(s.now - h.openedAt, rules.maxHoldSeconds)
  }

  // ---------------------------------------------------------------- the rules

  lemma GainReaches(entry: real, price: real, pct: real)
    requires entry > 0.0
    ensures Gain(entry, price) >= pct <==> Reaches(entry, price, pct)
    ensures Gain(entry, price) <= pct <==> price <= entry + Percent(entry, pct)
  {
    PartOfWhole(price - entry, entry, pct);
  }

  lemma PartOfWhole(part: real, whole: real, pct: real)
    requires whole > 0.0
    ensures part / whole * 100.0 >= pct <==> part >= Percent(whole, pct)
    ensures part / whole * 100.0 <= pct <==> part <= Percent(whole, pct)
  {
    var share, limit := part / whole, pct / 100.0;
    Quotient(part, whole);
    assert limit * whole == Percent(whole, pct);
    if share < limit { MulLess(share, limit, whole); }
    if share > limit { MulLess(limit, share, whole); }
  }

  lemma LongerMeans(span: Time, seconds: int)
    ensures WholeSeconds(span) > seconds <==> Longer(span, seconds)
  {
    var whole := span as real / SECOND as real;
    Quotient(span as real, SECOND as real);
    if span >= 0 {
      assert whole.Floor as real <= whole < whole.Floor as real + 1.0;
    } else {
      assert (-whole).Floor as real <= -whole < (-whole).Floor as real + 1.0;
    }
  }

  lemma TrailingMeans(h: Holding, rules: ExitRules, price: real)
    ensures TrailingStopHit(h, rules, price) <==> FellFromPeak(h, rules, price)
  {
    if h.peakPrice > 0.0 && h.entryPrice > 0.0 {
      GainReaches(h.entryPrice, h.peakPrice, rules.trailingArmPct);
      PartOfWhole(h.peakPrice - price, h.peakPrice, rules.trailingStopPct);
    }
  }

  lemma RungMeans(h: Holding, rules: ExitRules, price: real)
    ensures match FirstRung(rules.ladder, h.levelsHit, PnlPct(h, price), 0)
            case Some(i) => FirstDue(h, rules, price, i)
            case None => !AnyDue(h, rules, price)
  {
    forall i | 0 <= i < |rules.ladder|
      ensures PnlPct(h, price) >= rules.ladder[i].thresholdPct
         <==> Reaches(h.entryPrice, price, rules.ladder[i].thresholdPct)
    {
      if h.entryPrice > 0.0 { GainReaches(h.entryPrice, price, rules.ladder[i].thresholdPct); }
    }
  }

  lemma StopMeans(h: Holding, rules: ExitRules, price: real)
    ensures PnlPct(h, price) <= rules.stopLossPct <==> AtStop(h, rules, price)
  {
    if h.entryPrice > 0.0 { GainReaches(h.entryPrice, price, rules.stopLossPct); }
  }

  /** Each exit, and exactly when it is asked for: protection first and always in full, in this order; then the
      lowest rung due, for its share; then the source's own exit; then age. */
  ghost predicate Answers(h: Holding, rules: ExitRules, s: Signals, intent: Option<Intent>) {
    var live := h.amountRaw > 0 && s.price > 0.0;
    && (intent == Some(Intent(StopLoss, 1.0, None)) <==> live && AtStop(h, rules, s.price))
    && (intent == Some(Intent(LiquidityDeterioration, 1.0, None))
        <==> live && !AtStop(h, rules, s.price) && ThinExit(h, s))
    && (intent == Some(Intent(TraderDegraded, 1.0, None))
        <==> live && !AtStop(h, rules, s.price) && !ThinExit(h, s) && TraderLost(s))
    && (intent == Some(Intent(TrailingStop, 1.0, None))
        <==> live && !AtStop(h, rules, s.price) && !ThinExit(h, s) && !TraderLost(s) && FellFromPeak(h, rules, s.price))
    && (forall i: nat :: i < |rules.ladder| ==>
         (intent == Some(Intent(TakeProfit, rules.ladder[i].takePct / 100.0, Some(i)))
          <==> live && !Protects(h, rules, s) && FirstDue(h, rules, s.price, i)))
    && (forall f: real :: intent == Some(Intent(Mirror, f, None))
          <==> live && !Protects(h, rules, s) && !AnyDue(h, rules, s.price) && s.sourceSold.Some?
               && f == if s.sourceSold.value <= 1.0 then s.sourceSold.value else 1.0)
    && (intent == Some(Intent(TimeExit, 1.0, None))
        <==> live && !Protects(h, rules, s) && !AnyDue(h, rules, s.price) && s.sourceSold.None?
             && Longer(s.now - h.openedAt, rules.maxHoldSeconds))
    && (intent == None <==> !(live && Applies(h, rules, s)))
  }

  lemma ExitsExactlyWhen(h: Holding, rules: ExitRules, s: Signals)
    ensures Answers(h, rules, s, EvaluateExits(h, rules, s))
  {
    StopMeans(h, rules, s.price);
    TrailingMeans(h, rules, s.price);
    RungMeans(h, rules, s.price);
    LongerMeans(s.now - h.openedAt, rules.maxHoldSeconds);
  }

  // ---------------------------------------------------------------- what a sale books

  /** A sale brings in its units at the price it filled at, or at the market's if that is given as zero; the result
      is that less the sold share of the cost. */
  lemma SaleBooksTheFill(h: Holding, intent: Intent, market: real, actual: real)
    requires ToSell(h.amountRaw, intent.fraction) > 0
    ensures var s := SaleFor(h, intent, market, actual);
            && s.amount == ToSell(h.amountRaw, intent.fraction)
            && s.proceeds == Ui(s.amount, h.decimals) * (if actual != 0.0 then actual else market)
            && (s.proceeds - s.pnl) * h.amountRaw as real == h.costBasis * s.amount as real
            && s.price == actual && s.reason == intent.reason && s.rung == intent.rung
            && (s.fully <==> s.amount == h.amountRaw)
  {
    CostIsShare(h, intent, market, actual);
  }

  /** What a tick does to a position's identity: nothing. */
  predicate SamePosition(h: Holding, k: Holding) {
    h.mint == k.mint && h.wallet == k.wallet && h.decimals == k.decimals && h.openedAt == k.openedAt
    && h.entryPrice == k.entryPrice
  }

  /** A tick that sells appends one event for exactly the units that left, worth their number times the price filled,
      with the result that leaves; any other tick appends nothing and sells nothing. */
  lemma TickBooksTheFill(rec: Record, rules: ExitRules, t: Tick)
    ensures var after := AfterTick(rec, rules, t);
            var sold := rec.row.amountRaw - after.row.amountRaw;
            && SamePosition(after.row, rec.row) && sold >= 0
            && (sold == 0 ==> after.events == rec.events && after.row.realizedPnl == rec.row.realizedPnl
                              && after.row.costBasis == rec.row.costBasis)
            && (sold > 0 ==>
                  var price := if t.fill.value != 0.0 then t.fill.value else t.signals.price;
                  && t.fill.Some? && |after.events| == |rec.events| + 1 && rec.events <= after.events
                  && var e := after.events[|rec.events|];
                     && e.amountDelta == -sold && e.usdDelta == Ui(sold, rec.row.decimals) * price
                     && (e.usdDelta - e.pnl) * rec.row.amountRaw as real == rec.row.costBasis * sold as real
                     && after.row.realizedPnl == rec.row.realizedPnl + e.pnl && after.row.currentPrice == t.fill.value
                     && (e.kind == Closed <==> after.row.amountRaw == 0)
                     && (after.row.isOpen <==> after.row.amountRaw > 0))
  {
    match SaleOf(rec.row, rules, t)
    case None =>
    case Some(s) =>
      var h := Marked(rec.row, t.signals.price, rules);
      SaleBooksTheFill(h, EvaluateExits(h, rules, t.signals).value, t.signals.price, t.fill.value);
  }

  /** The position a tick evaluates: marked at its price. */
  function Seen(row: Holding, rules: ExitRules, t: Tick): Holding { Marked(row, t.signals.price, rules) }

  /** Everything but a rule is in place for a sale. */
  predicate CanSell(row: Holding, t: Tick) {
    row.isOpen && row.amountRaw > 0 && t.signals.price > 0.0 && t.exitsAllowed && t.fill.Some?
  }

  /** A protective rule closes the whole position in the tick it applies in, as long as the order fills. */
  lemma ProtectionCloses(rec: Record, rules: ExitRules, t: Tick)
    requires CanSell(rec.row, t) && Protects(Seen(rec.row, rules, t), rules, t.signals)
    ensures var after := AfterTick(rec, rules, t);
            && !after.row.isOpen && after.row.amountRaw == 0 && |after.events| == |rec.events| + 1
            && var e := after.events[|rec.events|];
               && e.kind == Closed && e.amountDelta == -(rec.row.amountRaw as int)
               && (AtStop(rec.row, rules, t.signals.price) ==> e.reason == Some(StopLoss))
  {
    var h := Seen(rec.row, rules, t);
    ExitsExactlyWhen(h, rules, t.signals);
    assert EvaluateExits(h, rules, t.signals).value.fraction == 1.0;
  }

  lemma SaleExactlyWhen(row: Holding, rules: ExitRules, t: Tick)
    ensures var h := Seen(row, rules, t);
            SaleOf(row, rules, t).Some?
            <==> CanSell(row, t) && Applies(h, rules, t.signals)
                 && row.amountRaw as real * EvaluateExits(h, rules, t.signals).value.fraction >= 1.0
  {
    ExitsExactlyWhen(Seen(row, rules, t), rules, t.signals);
  }

  /** Exactly when a tick sells: it can, a rule applies, and its share is at least one unit. */
  lemma TickSellsExactlyWhen(rec: Record, rules: ExitRules, t: Tick)
    ensures var h := Seen(rec.row, rules, t);
            AfterTick(rec, rules, t).row.amountRaw < rec.row.amountRaw
            <==> CanSell(rec.row, t) && Applies(h, rules, t.signals)
                 && rec.row.amountRaw as real * EvaluateExits(h, rules, t.signals).value.fraction >= 1.0
  {
    SaleExactlyWhen(rec.row, rules, t);
    SellsByItsSale(rec, rules, t);
  }

  lemma SellsByItsSale(rec: Record, rules: ExitRules, t: Tick)
    ensures AfterTick(rec, rules, t).row.amountRaw < rec.row.amountRaw <==> SaleOf(rec.row, rules, t).Some?
  {
    if SaleOf(rec.row, rules, t).Some? { SaleFacts(rec.row, rules, t); }
  }

  /** While prices are known, exits allowed and orders filled, what is still open after any tick of any life is above
      its stop, and no other protective rule applies to it either. */
  lemma {:induction false} HeldOnlyUnprotested(rec: Record, rules: ExitRules, ticks: seq<Tick>)
    requires ticks != [] && (rec.row.isOpen ==> rec.row.amountRaw > 0)
    requires forall i :: 0 <= i < |ticks| ==>
               ticks[i].signals.price > 0.0 && ticks[i].exitsAllowed && ticks[i].fill.Some?
    ensures var end, last := Life(rec, rules, ticks).row, ticks[|ticks| - 1];
            end.isOpen ==> end.amountRaw > 0 && !AtStop(end, rules, last.signals.price) && !TraderLost(last.signals)
    decreases |ticks|
  {
    var next := AfterTick(rec, rules, ticks[0]);
    TickBooksTheFill(rec, rules, ticks[0]);
    if rec.row.isOpen {
      if Protects(Seen(rec.row, rules, ticks[0]), rules, ticks[0].signals) { ProtectionCloses(rec, rules, ticks[0]); }
    }
    if |ticks| == 1 {
      assert Life(next, rules, ticks[1..]) == next;
    } else {
      HeldOnlyUnprotested(next, rules, ticks[1..]);
    }
  }
}
