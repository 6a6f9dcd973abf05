/** What equity and the day's result mean over whole runs of the ledger, and which entries they stop
    (src/asm/state/scripts.py). */
module LedgerEquity {
  import opened Numeric
  import opened Domain
  import opened Ledger
  import opened LedgerBook
  import LL = LedgerLimits
  import D = Decision

  /** What the exits of a run made above the cost they released. */
  function GainsOf(ops: seq<Op>): real {
    if ops == [] then 0.0
    else GainsOf(ops[1..]) + if ops[0].Exit? then ops[0].proceeds - ops[0].cost else 0.0
  }

  function HarvestsOf(ops: seq<Op>): real {
    if ops == [] then 0.0 else HarvestsOf(ops[1..]) + if ops[0].AddHarvest? then ops[0].amount else 0.0
  }

  function ExitsOf(ops: seq<Op>): nat {
    if ops == [] then 0 else ExitsOf(ops[1..]) + if ops[0].Exit? then 1 else 0
  }

  /** The results of the exits since the day was last reset, on top of `before` if it never was. */
  function TodayOf(ops: seq<Op>, before: real): real
    decreases |ops|
  {
    if ops == [] then before
    else
      match ops[0]
      case Exit(_, _, pnl, _, _) => TodayOf(ops[1..], before + pnl)
      case ResetDaily => TodayOf(ops[1..], 0.0)
      case _ => TodayOf(ops[1..], before)
  }

  lemma {:induction false} RunTotals(b: Book, lim: Limits, ops: seq<Op>)
    requires LegalRun(b, lim, ops)
    ensures var c := Run(b, lim, ops);
            && c.gains == b.gains + GainsOf(ops) && c.exits == b.exits + ExitsOf(ops)
            && c.ledger.harvestedTotal == b.ledger.harvestedTotal + HarvestsOf(ops)
            && c.ledger.realizedToday == TodayOf(ops, b.ledger.realizedToday)
    decreases |ops|
  {
    if ops != [] { RunTotals(Apply(b, lim, ops[0]), lim, ops[1..]); }
  }

  /** In any book that balances, a mark finds the capital plus what was gained, less what was harvested, plus
      the result on paper, up to swept dust. */
  lemma MarkedEquity(b: Book, capital: real, unrealized: real)
    requires Balanced(b, capital)
    ensures var s := AfterMark(b.ledger, unrealized);
            && Drifts(capital + b.gains - b.ledger.harvestedTotal + unrealized, s.equity, b.exits)
            && s.unrealized == unrealized && s.cash == b.ledger.cash
  {
    assert Drifts(Total(b.claims, Everything), Shown(b.ledger, Everything), b.exits);
  }

  /** The portfolio a decision sizes from: its equity includes the result on paper, its cash is free cash. */
  lemma SnapshotMeans(b: Book, capital: real)
    requires Balanced(b, capital)
    ensures var p := D.Snapshot(b.ledger);
            Drifts(capital + b.gains - b.ledger.harvestedTotal + b.ledger.unrealized, p.equity, b.exits)
            && p.cash == b.ledger.cash
  {
    assert Drifts(Total(b.claims, Everything), Shown(b.ledger, Everything), b.exits);
  }

  /** Equity after any run that ends in a mark, from the operations alone. */
  lemma EquityMeans(capital: real, control: Control, lim: Limits, ops: seq<Op>, unrealized: real)
    requires LegalRun(Opening(capital, control), lim, ops)
    ensures var s := AfterMark(Run(Opening(capital, control), lim, ops).ledger, unrealized);
            Drifts(capital + GainsOf(ops) - HarvestsOf(ops) + unrealized, s.equity, ExitsOf(ops))
  {
    LedgerAccounting(capital, control, lim, ops);
    RunTotals(Opening(capital, control), lim, ops);
    MarkedEquity(Run(Opening(capital, control), lim, ops), capital, unrealized);
  }

  /** The day's counter after any run is the result of the exits since the last reset. */
  lemma TodayMeans(capital: real, control: Control, lim: Limits, ops: seq<Op>)
    requires LegalRun(Opening(capital, control), lim, ops)
    ensures Run(Opening(capital, control), lim, ops).ledger.realizedToday == TodayOf(ops, 0.0)
  {
    RunTotals(Opening(capital, control), lim, ops);
  }

  // ---------------------------------------------------------------- what they stop

  /** Once the day's exits lost the share of equity allowed, nothing is granted until the day is reset or equity
      is marked higher. */
  lemma DailyLossStops(capital: real, control: Control, lim: Limits, ops: seq<Op>, mint: Mint, wallet: Wallet,
                       size: real)
    requires LegalRun(Opening(capital, control), lim, ops)
    requires var s := Run(Opening(capital, control), lim, ops).ledger;
             -TodayOf(ops, 0.0) >= Percent(s.equity, lim.maxDailyLossPct)
    ensures var b := Run(Opening(capital, control), lim, ops);
            Refusal(b.ledger, b.control, lim, mint, wallet, size) != None
  {
    TodayMeans(capital, control, lim, ops);
    var b := Run(Opening(capital, control), lim, ops);
    LL.GrantedExactlyWhen(b.ledger, b.control, lim, mint, wallet, size);
  }

  /** A mark that shows a loss on paper beyond the allowed fall from the high-water mark stops every entry. */
  lemma PaperLossStops(capital: real, control: Control, lim: Limits, ops: seq<Op>, unrealized: real, ctl: Control,
                       mint: Mint, wallet: Wallet, size: real)
    requires LegalRun(Opening(capital, control), lim, ops)
    requires var s := Run(Opening(capital, control), lim, ops).ledger;
             s.hwm > 0.0 && lim.maxDrawdownPct >= 0.0
             && capital + GainsOf(ops) - HarvestsOf(ops) + unrealized <= s.hwm - Percent(s.hwm, lim.maxDrawdownPct)
    ensures var s := AfterMark(Run(Opening(capital, control), lim, ops).ledger, unrealized);
            Refusal(s, ctl, lim, mint, wallet, size) != None
  {
    EquityMeans(capital, control, lim, ops, unrealized);
    var s := Run(Opening(capital, control), lim, ops).ledger;
    PercentOrder(0.0, s.hwm, lim.maxDrawdownPct);
    LL.GrantedExactlyWhen(AfterMark(s, unrealized), ctl, lim, mint, wallet, size);
  }
}
