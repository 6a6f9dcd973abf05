/** The limits the ledger enforces, over whole runs: position counts, exposure ceilings, cash. */
module LedgerLimits {
  import opened Numeric
  import opened Domain
  import opened Ledger
  import opened LedgerBook

  function Ceiling(s: Ledger, lim: Limits, sc: Scope): real {
    (match sc
     case Everything => lim.maxDeployedPct
     case OfToken(_) => lim.maxTokenPct
     case OfTrader(_) => lim.maxTraderPct) / 100.0 * s.equity
  }

  predicate PercentagesOk(lim: Limits) {
    lim.maxDeployedPct >= 0.0 && lim.maxTokenPct >= 0.0 && lim.maxTraderPct >= 0.0
  }

  /** There is equity, the day lost less of it than allowed, and it fell less below the high-water mark. */
  predicate BreakersClosed(s: Ledger, lim: Limits) {
    && s.equity > 0.0 && -s.realizedToday < Percent(s.equity, lim.maxDailyLossPct)
    && (s.hwm > 0.0 ==> s.hwm - s.equity < Percent(s.hwm, lim.maxDrawdownPct))
  }

  /** A share in percent is below a limit exactly when the part is below that percentage of the whole. */
  lemma ShareBelow(part: real, whole: real, pct: real)
    requires whole > 0.0
    ensures part / whole * 100.0 < pct <==> part < Percent(whole, pct)
  {
    var share := part / whole;
    Quotient(part, whole);
    if share * 100.0 < pct { MulLess(share, pct / 100.0, whole); } else { MulMono(whole, pct / 100.0, share); }
    assert pct / 100.0 * whole == Percent(whole, pct);
  }

  lemma BreakersMean(s: Ledger, lim: Limits)
    requires s.equity > 0.0
    ensures DailyLossPct(s) < lim.maxDailyLossPct <==> -s.realizedToday < Percent(s.equity, lim.maxDailyLossPct)
    ensures s.hwm > 0.0 ==>
              (DrawdownPct(s) < lim.maxDrawdownPct <==> s.hwm - s.equity < Percent(s.hwm, lim.maxDrawdownPct))
  {
    ShareBelow(-s.realizedToday, s.equity, lim.maxDailyLossPct);
    if s.hwm > 0.0 { ShareBelow(s.hwm - s.equity, s.hwm, lim.maxDrawdownPct); }
  }

  predicate Fits(s: Ledger, lim: Limits, sc: Scope, size: real) {
    Shown(s, sc) + size <= Ceiling(s, lim, sc)
  }

  predicate SlotFree(s: Ledger, lim: Limits) {
    s.openPositions + s.pending < lim.maxOpenPositions && s.pending < lim.maxPending
  }

  /** A reservation is granted exactly when the system runs and every limit has room: none of
      the script's checks shadows another. */
  lemma GrantedExactlyWhen(s: Ledger, ctl: Control, lim: Limits, mint: Mint, wallet: Wallet, size: real)
    ensures Refusal(s, ctl, lim, mint, wallet, size) == None
       <==> && !ctl.kill && ctl.state == Some("running")
            && size >= lim.minPositionUsd && size <= s.cash
            && BreakersClosed(s, lim) && SlotFree(s, lim)
            && Fits(s, lim, Everything, size)
            && Fits(s, lim, OfToken(mint), size)
            && Fits(s, lim, OfTrader(wallet), size)
  {
    assert |"running"| == 7 && |"stopped"| == 7 && |"killed"| == 6 && |"hard_paused"| == 11;
    assert "running"[0] == 'r' && "stopped"[0] == 's';
    if s.equity > 0.0 { BreakersMean(s, lim); }
  }

  /** A check of the script, and whether it fails. */
  datatype Check = Check(reason: Reason, fails: bool)

  predicate Known(state: string) {
    state == "running" || state == "soft_paused" || state == "hard_paused" || state == "killed"
  }

  /** The script's checks in its order. */
  function Checks(s: Ledger, ctl: Control, lim: Limits, mint: Mint, wallet: Wallet, size: real): seq<Check> {
    var state := match ctl.state case None => "" case Some(v) => v;
    [Check(KillSwitchActive, ctl.kill),
     Check(SystemNotStarted, state == "" || state == "stopped"),
     Check(SystemPaused, !Known(state)),
     Check(KillSwitchActive, state == "killed" || state == "hard_paused"),
     Check(SystemPaused, state == "soft_paused"),
     Check(PositionBelowMinimum, size < lim.minPositionUsd),
     Check(InsufficientCapital, s.equity <= 0.0),
     Check(DailyLossLimit, -s.realizedToday >= Percent(s.equity, lim.maxDailyLossPct)),
     Check(DrawdownLimit, s.hwm > 0.0 && s.hwm - s.equity >= Percent(s.hwm, lim.maxDrawdownPct)),
     Check(PortfolioDeployedLimit, !Fits(s, lim, Everything, size)),
     Check(InsufficientCapital, size > s.cash),
     Check(MaxOpenPositions, s.openPositions + s.pending >= lim.maxOpenPositions),
     Check(TooManyPending, s.pending >= lim.maxPending),
     Check(TokenExposureLimit, !Fits(s, lim, OfToken(mint), size)),
     Check(TraderExposureLimit, !Fits(s, lim, OfTrader(wallet), size))]
  }

  function FirstFailing(checks: seq<Check>): Option<Reason> {
    if checks == [] then None else if checks[0].fails then Some(checks[0].reason) else FirstFailing(checks[1..])
  }

  /** The first of the checks that fails gives the reason. */
  lemma RefusedByTheFirst(s: Ledger, ctl: Control, lim: Limits, mint: Mint, wallet: Wallet, size: real)
    ensures Refusal(s, ctl, lim, mint, wallet, size) == FirstFailing(Checks(s, ctl, lim, mint, wallet, size))
  {
    if s.equity > 0.0 { BreakersMean(s, lim); }
    Unfold15(Checks(s, ctl, lim, mint, wallet, size));
  }

  lemma Unfold15(c: seq<Check>)
    requires |c| == 15
    ensures FirstFailing(c)
         == if c[0].fails then Some(c[0].reason) else if c[1].fails then Some(c[1].reason)
            else if c[2].fails then Some(c[2].reason) else if c[3].fails then Some(c[3].reason)
            else if c[4].fails then Some(c[4].reason) else if c[5].fails then Some(c[5].reason)
            else if c[6].fails then Some(c[6].reason) else if c[7].fails then Some(c[7].reason)
            else if c[8].fails then Some(c[8].reason) else if c[9].fails then Some(c[9].reason)
            else if c[10].fails then Some(c[10].reason) else if c[11].fails then Some(c[11].reason)
            else if c[12].fails then Some(c[12].reason) else if c[13].fails then Some(c[13].reason)
            else if c[14].fails then Some(c[14].reason) else None
  {
    Unfold5(c);
    Unfold5(c[5..]);
    Unfold5(c[10..]);
  }

  lemma Unfold(c: seq<Check>, i: nat)
    requires i < |c|
    ensures FirstFailing(c[i..]) == if c[i].fails then Some(c[i].reason) else FirstFailing(c[i + 1..])
  {
    assert c[i..][0] == c[i] && c[i..][1..] == c[i + 1..];
  }

  /** Five checks at a time. */
  lemma Unfold5(c: seq<Check>)
    requires |c| >= 5
    ensures FirstFailing(c)
         == if c[0].fails then Some(c[0].reason) else if c[1].fails then Some(c[1].reason)
            else if c[2].fails then Some(c[2].reason) else if c[3].fails then Some(c[3].reason)
            else if c[4].fails then Some(c[4].reason) else FirstFailing(c[5..])
  {
    Unfold(c, 1);
    Unfold(c, 2);
    Unfold(c, 3);
    Unfold(c, 4);
  }

  /** Whatever reason is given is true. */
  lemma ReasonIsTrue(s: Ledger, ctl: Control, lim: Limits, mint: Mint, wallet: Wallet, size: real)
    ensures var refusal := Refusal(s, ctl, lim, mint, wallet, size);
            refusal.Some? ==>
              match refusal.value
              case KillSwitchActive => ctl.kill || ctl.state == Some("killed") || ctl.state == Some("hard_paused")
              case SystemNotStarted => ctl.state == None || ctl.state == Some("") || ctl.state == Some("stopped")
              case SystemPaused => ctl.state.Some? && ctl.state != Some("running") && !ctl.kill
              case PositionBelowMinimum => size < lim.minPositionUsd
              case InsufficientCapital => s.equity <= 0.0 || size > s.cash
              case DailyLossLimit => -s.realizedToday >= Percent(s.equity, lim.maxDailyLossPct)
              case DrawdownLimit => s.hwm > 0.0 && s.hwm - s.equity >= Percent(s.hwm, lim.maxDrawdownPct)
              case PortfolioDeployedLimit => !Fits(s, lim, Everything, size)
              case MaxOpenPositions => s.openPositions + s.pending >= lim.maxOpenPositions
              case TooManyPending => s.pending >= lim.maxPending
              case TokenExposureLimit => !Fits(s, lim, OfToken(mint), size)
              case TraderExposureLimit => !Fits(s, lim, OfTrader(wallet), size)
  {
    if s.equity > 0.0 { BreakersMean(s, lim); }
  }

  lemma RunningPasses()
    ensures ControlRefusal(Control(false, Some("running"))) == None
  {
    assert "running"[0] == 'r' && "stopped"[0] == 's';
  }

  /** A ledger that has neither lost nor won anything trips no breaker. */
  lemma FreshBreakers(capital: real, lim: Limits)
    requires capital > 0.0 && lim.maxDailyLossPct > 0.0 && lim.maxDrawdownPct > 0.0
    ensures BreakersClosed(Fresh(capital), lim)
  {
    MulLess(0.0, lim.maxDailyLossPct, capital);
    MulLess(0.0, lim.maxDrawdownPct, capital);
  }

  // ---------------------------------------------------------------- position counts

  predicate CountsCapped(s: Ledger, lim: Limits) {
    s.openPositions + s.pending <= lim.maxOpenPositions && s.pending <= lim.maxPending
  }

  lemma {:induction false} RunCountsCapped(b: Book, lim: Limits, ops: seq<Op>)
    requires LegalRun(b, lim, ops) && CountsCapped(b.ledger, lim)
    ensures CountsCapped(Run(b, lim, ops).ledger, lim)
    decreases |ops|
  {
    if ops != [] {
      RunCountsCapped(Apply(b, lim, ops[0]), lim, ops[1..]);
    }
  }

  /** Pending entries count towards the position cap, so neither cap is ever exceeded. */
  lemma CapsHoldInEveryState(capital: real, control: Control, lim: Limits, ops: seq<Op>)
    requires LegalRun(Opening(capital, control), lim, ops)
    requires lim.maxOpenPositions >= 0 && lim.maxPending >= 0
    ensures var b := Run(Opening(capital, control), lim, ops);
            |HeldIds(b.claims)| + |OpenIds(b.claims)| <= lim.maxOpenPositions
            && |HeldIds(b.claims)| <= lim.maxPending
  {
    RunCountsCapped(Opening(capital, control), lim, ops);
    LedgerAccounting(capital, control, lim, ops);
  }

  // ---------------------------------------------------------------- exposure ceilings

  predicate UnderCeilings(s: Ledger, lim: Limits, mint: Mint, wallet: Wallet) {
    s.equity > 0.0 && Fits(s, lim, Everything, 0.0)
    && Fits(s, lim, OfToken(mint), 0.0) && Fits(s, lim, OfTrader(wallet), 0.0)
  }

  /** Neither a mark that lowers equity nor a fill above its hold. */
  predicate Gentle(b: Book, op: Op) {
    match op
    case Mark(unrealized) => b.ledger.cash + b.ledger.deployed + unrealized >= b.ledger.equity
    case Commit(id, actual) => HeldIn(b.ledger, id) ==> actual <= b.ledger.reservations[id].usd
    case _ => true
  }

  lemma GrantEntersUnderCeilings(b: Book, lim: Limits, op: Op)
    requires Legal(b, op) && Grants(b, lim, op)
    ensures UnderCeilings(Apply(b, lim, op).ledger, lim, op.mint, op.wallet)
  {
  }

  lemma CeilingRises(s: Ledger, s': Ledger, lim: Limits, sc: Scope)
    requires PercentagesOk(lim) && s.equity <= s'.equity
    ensures Ceiling(s, lim, sc) <= Ceiling(s', lim, sc)
    ensures s'.equity >= 0.0 ==> Ceiling(s', lim, sc) >= 0.0
  {
    var k := (match sc case Everything => lim.maxDeployedPct case OfToken(_) => lim.maxTokenPct
              case OfTrader(_) => lim.maxTraderPct) / 100.0;
    MulMono(k, s.equity, s'.equity);
  }

  /** Apart from a granted reservation, a gentle operation raises no counter. */
  lemma GentleMoves(b: Book, lim: Limits, op: Op, sc: Scope)
    requires TablesAgree(b) && Legal(b, op) && Gentle(b, op)
    ensures Grants(b, lim, op) || Moved(b, lim, op, sc) <= 0.0
  {
  }

  lemma GrantMoves(b: Book, lim: Limits, op: Op, sc: Scope)
    requires Legal(b, op) && Grants(b, lim, op)
    ensures Moved(b, lim, op, sc) == 0.0 || (Moved(b, lim, op, sc) == op.size && Fits(b.ledger, lim, sc, op.size))
    ensures Apply(b, lim, op).ledger.equity == b.ledger.equity
  {
  }

  lemma GentleEquity(b: Book, lim: Limits, op: Op)
    requires Legal(b, op) && Gentle(b, op)
    ensures Apply(b, lim, op).ledger.equity >= b.ledger.equity
  {
  }

  lemma GentleScope(b: Book, lim: Limits, op: Op, sc: Scope)
    requires TablesAgree(b) && Legal(b, op) && Gentle(b, op) && PercentagesOk(lim)
    requires b.ledger.equity > 0.0 && Fits(b.ledger, lim, sc, 0.0)
    ensures Apply(b, lim, op).ledger.equity > 0.0
    ensures Fits(Apply(b, lim, op).ledger, lim, sc, 0.0)
  {
    GentleEquity(b, lim, op);
    CeilingRises(b.ledger, Apply(b, lim, op).ledger, lim, sc);
    ShownMoves(b, lim, op, sc);
    GentleMoves(b, lim, op, sc);
    if Grants(b, lim, op) { GrantMoves(b, lim, op, sc); }
  }

  lemma {:induction false} GentleRun(b: Book, lim: Limits, ops: seq<Op>, mint: Mint, wallet: Wallet)
    requires TablesAgree(b) && LegalRun(b, lim, ops) && GentleOps(b, lim, ops) && PercentagesOk(lim)
    requires UnderCeilings(b.ledger, lim, mint, wallet)
    ensures UnderCeilings(Run(b, lim, ops).ledger, lim, mint, wallet)
    decreases |ops|
  {
    if ops != [] {
      GentleScope(b, lim, ops[0], Everything);
      GentleScope(b, lim, ops[0], OfToken(mint));
      GentleScope(b, lim, ops[0], OfTrader(wallet));
      ApplyTables(b, lim, ops[0]);
      GentleRun(Apply(b, lim, ops[0]), lim, ops[1..], mint, wallet);
    }
  }

  ghost predicate GentleOps(b: Book, lim: Limits, ops: seq<Op>)
    requires LegalRun(b, lim, ops)
    decreases |ops|
  {
    ops == [] || (Gentle(b, ops[0]) && GentleOps(Apply(b, lim, ops[0]), lim, ops[1..]))
  }

  /** From the moment a reservation is granted, total, token and trader exposure stay under their
      ceilings until a mark lowers equity or a fill exceeds its hold. */
  lemma CeilingsHoldAfterGrant(b: Book, lim: Limits, op: Op, ops: seq<Op>)
    requires TablesAgree(b) && Legal(b, op) && Grants(b, lim, op) && PercentagesOk(lim)
    requires LegalRun(Apply(b, lim, op), lim, ops) && GentleOps(Apply(b, lim, op), lim, ops)
    ensures UnderCeilings(Run(Apply(b, lim, op), lim, ops).ledger, lim, op.mint, op.wallet)
  {
    GrantEntersUnderCeilings(b, lim, op);
    ApplyTables(b, lim, op);
    GentleRun(Apply(b, lim, op), lim, ops, op.mint, op.wallet);
  }

  // ---------------------------------------------------------------- cash

  predicate Thrifty(b: Book, op: Op) {
    match op
    case Commit(_, _) => Gentle(b, op)
    case Exit(_, _, _, proceeds, _) => proceeds >= 0.0
    case AddHarvest(_) => false
    case _ => true
  }

  ghost predicate ThriftyOps(b: Book, lim: Limits, ops: seq<Op>)
    requires LegalRun(b, lim, ops)
    decreases |ops|
  {
    ops == [] || (Thrifty(b, ops[0]) && ThriftyOps(Apply(b, lim, ops[0]), lim, ops[1..]))
  }

  /** Without harvests, and with no fill above its hold, free cash never goes negative. */
  lemma {:induction false} CashNeverNegative(b: Book, lim: Limits, ops: seq<Op>)
    requires TablesAgree(b) && LegalRun(b, lim, ops) && ThriftyOps(b, lim, ops)
    requires b.ledger.cash >= 0.0
    ensures Run(b, lim, ops).ledger.cash >= 0.0
    decreases |ops|
  {
    if ops != [] {
      ApplyTables(b, lim, ops[0]);
      CashNeverNegative(Apply(b, lim, ops[0]), lim, ops[1..]);
    }
  }
}
