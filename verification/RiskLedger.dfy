/** The shared risk ledger: one hash of money counters, two exposure hashes and a table of
    reservations, changed only by five atomic scripts (src/asm/state/scripts.py) and by the
    few direct writes of src/asm/state/ledger.py. Each script is a method of `RiskLedger`,
    proved against a step function on the value `Ledger`; what whole runs of those steps keep
    is proved in the modules LedgerBook, LedgerLimits and LedgerRace. */
module Ledger {
  import opened Numeric
  import opened Domain

  type ResId = nat

  datatype Status = Held | Committed

  datatype Reservation = Reservation(mint: Mint, wallet: Wallet, usd: real, status: Status)

  /** The two keys every entry is checked against: the kill latch and the system state. */
  datatype Control = Control(kill: bool, state: Option<string>)

  datatype Limits = Limits(
    maxDailyLossPct: real, maxDrawdownPct: real, maxDeployedPct: real,
    maxOpenPositions: int, maxPending: int,
    maxTokenPct: real, maxTraderPct: real, minPositionUsd: real)

  datatype Reason =
    | KillSwitchActive | SystemNotStarted | SystemPaused | PositionBelowMinimum
    | InsufficientCapital | DailyLossLimit | DrawdownLimit | PortfolioDeployedLimit
    | MaxOpenPositions | TooManyPending | TokenExposureLimit | TraderExposureLimit

  datatype Ledger = Ledger(
    equity: real, cash: real, deployed: real, unrealized: real, realizedToday: real, hwm: real,
    openPositions: int, pending: int, harvestedTotal: real,
    token: map<string, real>, trader: map<string, real>,
    reservations: map<ResId, Reservation>)

  /** The amount below which a released counter is wiped to zero. */
  const DUST := 0.000001

  function At(m: map<string, real>, k: string): real { if k in m then m[k] else 0.0 }

  function Plus(m: map<string, real>, k: string, x: real): map<string, real> {
    m[k := At(m, k) + x]
  }

  function Sweep(m: map<string, real>, k: string): map<string, real> {
    if At(m, k) < DUST then m - {k} else m
  }

  function Fresh(capital: real): Ledger {
    Ledger(capital, capital, 0.0, 0.0, 0.0, capital, 0, 0, 0.0, map[], map[], map[])
  }

  predicate HeldIn(s: Ledger, id: ResId) {
    id in s.reservations && s.reservations[id].status == Held
  }

  /** Why the system state refuses an entry, before any money is looked at. */
  function ControlRefusal(ctl: Control): Option<Reason> {
    if ctl.kill then Some(KillSwitchActive)
    else match ctl.state
      case None => Some(SystemNotStarted)
      case Some(v) =>
        if v == "" || v == "stopped" then Some(SystemNotStarted)
        else if v == "running" then None
        else if v == "killed" || v == "hard_paused" then Some(KillSwitchActive)
        else Some(SystemPaused)
  }

  function DailyLossPct(s: Ledger): real
    requires s.equity > 0.0
  {
    (-s.realizedToday) / s.equity * 100.0
  }

  function DrawdownPct(s: Ledger): real
    requires s.hwm > 0.0
  {
    (s.hwm - s.equity) / s.hwm * 100.0
  }

  /** The first limit a reservation breaks, in the script's order; None grants it. */
  function Refusal(s: Ledger, ctl: Control, lim: Limits, mint: Mint, wallet: Wallet, size: real)
    : Option<Reason>
  {
    if ControlRefusal(ctl).Some? then ControlRefusal(ctl)
    else if size < lim.minPositionUsd then Some(PositionBelowMinimum)
    else if s.equity <= 0.0 then Some(InsufficientCapital)
    else if DailyLossPct(s) >= lim.maxDailyLossPct then Some(DailyLossLimit)
    else if s.hwm > 0.0 && DrawdownPct(s) >= lim.maxDrawdownPct then Some(DrawdownLimit)
    else if s.deployed + size > lim.maxDeployedPct / 100.0 * s.equity then Some(PortfolioDeployedLimit)
    else if size > s.cash then Some(InsufficientCapital)
    else if s.openPositions + s.pending >= lim.maxOpenPositions then Some(MaxOpenPositions)
    else if s.pending >= lim.maxPending then Some(TooManyPending)
    else if At(s.token, mint) + size > lim.maxTokenPct / 100.0 * s.equity then Some(TokenExposureLimit)
    else if At(s.trader, wallet) + size > lim.maxTraderPct / 100.0 * s.equity then Some(TraderExposureLimit)
    else None
  }

  function AfterReserve(s: Ledger, ctl: Control, lim: Limits,
                        id: ResId, mint: Mint, wallet: Wallet, size: real): Ledger {
    if Refusal(s, ctl, lim, mint, wallet, size).Some? then s
    else s.(deployed := s.deployed + size, cash := s.cash - size, pending := s.pending + 1,
            token := Plus(s.token, mint, size), trader := Plus(s.trader, wallet, size),
            reservations := s.reservations[id := Reservation(mint, wallet, size, Held)])
  }

  function AfterRelease(s: Ledger, id: ResId): Ledger {
    if !HeldIn(s, id) then s
    else
      var r := s.reservations[id];
      s.(deployed := s.deployed - r.usd, cash := s.cash + r.usd, pending := s.pending - 1,
         token := Plus(s.token, r.mint, -r.usd), trader := Plus(s.trader, r.wallet, -r.usd),
         reservations := s.reservations - {id})
  }

  function AfterCommit(s: Ledger, id: ResId, actual: real): Ledger {
    if !HeldIn(s, id) then s
    else
      var r := s.reservations[id];
      var delta := actual - r.usd;
      s.(deployed := s.deployed + delta, cash := s.cash - delta,
         pending := s.pending - 1, openPositions := s.openPositions + 1,
         token := Plus(s.token, r.mint, delta), trader := Plus(s.trader, r.wallet, delta),
         reservations := s.reservations[id := r.(status := Committed, usd := actual)])
  }

  function Undust(v: real): real { if v < DUST && v > -1.0 then 0.0 else v }

  function AfterExit(s: Ledger, mint: Mint, wallet: Wallet, cost: real, pnl: real,
                     proceeds: real, fully: bool): Ledger {
    s.(deployed := Undust(s.deployed - cost), cash := s.cash + proceeds,
       realizedToday := s.realizedToday + pnl,
       openPositions := s.openPositions - if fully then 1 else 0,
       token := Sweep(Plus(s.token, mint, -cost), mint),
       trader := Sweep(Plus(s.trader, wallet, -cost), wallet))
  }

  function AfterMark(s: Ledger, unrealized: real): Ledger {
    var equity := s.cash + s.deployed + unrealized;
    s.(equity := equity, unrealized := unrealized, hwm := Max(s.hwm, equity))
  }

  function AfterHarvest(s: Ledger, amount: real): Ledger {
    s.(cash := s.cash - amount, harvestedTotal := s.harvestedTotal + amount)
  }

  /** A committed reservation hash carries an expiry; a held one never does. */
  function AfterExpiry(s: Ledger, id: ResId): Ledger {
    if id in s.reservations && s.reservations[id].status == Committed
    then s.(reservations := s.reservations - {id}) else s
  }

  /** The fields of the risk state hash. */
  datatype Counters = Counters(
    equity: real, cash: real, deployed: real, unrealized: real, realizedToday: real, hwm: real,
    openPositions: int, pending: int, harvestedTotal: real)

  /** Four shared hashes, changed in place. */
  class RiskLedger {
    var risk: Counters
    var token: map<string, real>
    var trader: map<string, real>
    var reservations: map<ResId, Reservation>

    ghost function State(): Ledger
      reads this
    {
      Ledger(risk.equity, risk.cash, risk.deployed, risk.unrealized, risk.realizedToday, risk.hwm,
             risk.openPositions, risk.pending, risk.harvestedTotal, token, trader, reservations)
    }

    constructor Bootstrap(capital: real)
      ensures State() == Fresh(capital)
    {
      risk := Counters(capital, capital, 0.0, 0.0, 0.0, capital, 0, 0, 0.0);
      token, trader, reservations := map[], map[], map[];
    }

    /** RESERVE: every check and the booking in one atomic step. */
    method Reserve(ctl: Control, lim: Limits, id: ResId, mint: Mint, wallet: Wallet, size: real)
      returns (refusal: Option<Reason>)
      modifies this
      ensures refusal == Refusal(old(State()), ctl, lim, mint, wallet, size)
      ensures State() == AfterReserve(old(State()), ctl, lim, id, mint, wallet, size)
    {
      if ctl.kill { return Some(KillSwitchActive); }
      if ctl.state == None || ctl.state == Some("") || ctl.state == Some("stopped") {
        return Some(SystemNotStarted);
      }
      var sys := ctl.state.value;
      if sys != "running" && sys != "soft_paused" && sys != "hard_paused" && sys != "killed" {
        return Some(SystemPaused);
      }
      if sys == "killed" || sys == "hard_paused" { return Some(KillSwitchActive); }
      if sys == "soft_paused" { return Some(SystemPaused); }
      if size < lim.minPositionUsd { return Some(PositionBelowMinimum); }
      if risk.equity <= 0.0 { return Some(InsufficientCapital); }

      var dailyLossPct := (-risk.realizedToday) / risk.equity * 100.0;
      if dailyLossPct >= lim.maxDailyLossPct { return Some(DailyLossLimit); }
      if risk.hwm > 0.0 {
        var dd := (risk.hwm - risk.equity) / risk.hwm * 100.0;
        if dd >= lim.maxDrawdownPct { return Some(DrawdownLimit); }
      }
      var maxDeployed := lim.maxDeployedPct / 100.0 * risk.equity;
      if risk.deployed + size > maxDeployed { return Some(PortfolioDeployedLimit); }
      if size > risk.cash { return Some(InsufficientCapital); }
      if risk.openPositions + risk.pending >= lim.maxOpenPositions { return Some(MaxOpenPositions); }
      if risk.pending >= lim.maxPending { return Some(TooManyPending); }
      var maxToken := lim.maxTokenPct / 100.0 * risk.equity;
      if At(token, mint) + size > maxToken { return Some(TokenExposureLimit); }
      var maxTrader := lim.maxTraderPct / 100.0 * risk.equity;
      if At(trader, wallet) + size > maxTrader { return Some(TraderExposureLimit); }

      risk := risk.(deployed := risk.deployed + size);
      risk := risk.(cash := risk.cash - size);
      risk := risk.(pending := risk.pending + 1);
      token := Plus(token, mint, size);
      trader := Plus(trader, wallet, size);
      reservations := reservations[id := Reservation(mint, wallet, size, Held)];
      return None;
    }

    /** RELEASE: give an unused hold back. The amount freed, or None when nothing was held. */
    method Release(id: ResId) returns (freed: Option<real>)
      modifies this
      ensures State() == AfterRelease(old(State()), id)
      ensures freed == if old(HeldIn(State(), id)) then Some(old(reservations)[id].usd) else None
    {
      if id !in reservations { return None; }
      var r := reservations[id];
      if r.status != Held { return None; }
      risk := risk.(deployed := risk.deployed - r.usd);
      risk := risk.(cash := risk.cash + r.usd);
      risk := risk.(pending := risk.pending - 1);
      token := Plus(token, r.mint, -r.usd);
      trader := Plus(trader, r.wallet, -r.usd);
      reservations := reservations - {id};
      return Some(r.usd);
    }

    /** COMMIT: a held reservation becomes a position at the amount actually filled. */
    method Commit(id: ResId, actual: real) returns (booked: Option<real>)
      modifies this
      ensures State() == AfterCommit(old(State()), id, actual)
      ensures booked == if old(HeldIn(State(), id)) then Some(actual) else None
    {
      if id !in reservations { return None; }
      var r := reservations[id];
      if r.status != Held { return None; }
      var delta := actual - r.usd;
      risk := risk.(deployed := risk.deployed + delta);
      risk := risk.(cash := risk.cash - delta);
      risk := risk.(pending := risk.pending - 1);
      risk := risk.(openPositions := risk.openPositions + 1);
      token := Plus(token, r.mint, delta);
      trader := Plus(trader, r.wallet, delta);
      reservations := reservations[id := r.(status := Committed, usd := actual)];
      return Some(actual);
    }

    /** RELEASE_POSITION: an exit frees the cost it closes and pays the proceeds into cash. */
    method ReleasePosition(mint: Mint, wallet: Wallet, cost: real, pnl: real, proceeds: real, fully: bool)
      modifies this
      ensures State() == AfterExit(old(State()), mint, wallet, cost, pnl, proceeds, fully)
    {
      risk := risk.(deployed := risk.deployed - cost);
      risk := risk.(cash := risk.cash + proceeds);
      risk := risk.(realizedToday := risk.realizedToday + pnl);
      token := Plus(token, mint, -cost);
      trader := Plus(trader, wallet, -cost);
      if fully { risk := risk.(openPositions := risk.openPositions - 1); }
      if risk.deployed < DUST && risk.deployed > -1.0 { risk := risk.(deployed := 0.0); }
      token := Sweep(token, mint);
      trader := Sweep(trader, wallet);
    }

    /** MARK: equity from the counters and the unrealized result; the high-water mark ratchets. */
    method Mark(unrealizedUsd: real) returns (marked: real, peak: real)
      modifies this
      ensures State() == AfterMark(old(State()), unrealizedUsd)
      ensures marked == old(risk.cash) + old(risk.deployed) + unrealizedUsd
      ensures marked == risk.equity && peak == risk.hwm == Max(old(risk.hwm), marked)
    {
      risk := risk.(equity := risk.cash + risk.deployed + unrealizedUsd);
      risk := risk.(unrealized := unrealizedUsd);
      if risk.equity > risk.hwm { risk := risk.(hwm := risk.equity); }
      return risk.equity, risk.hwm;
    }

    method AddHarvest(amount: real)
      modifies this
      ensures State() == AfterHarvest(old(State()), amount)
    {
      risk := risk.(cash := risk.cash - amount);
      risk := risk.(harvestedTotal := risk.harvestedTotal + amount);
    }

    method ResetDaily()
      modifies this
      ensures State() == old(State()).(realizedToday := 0.0)
    {
      risk := risk.(realizedToday := 0.0);
    }
  }
}
