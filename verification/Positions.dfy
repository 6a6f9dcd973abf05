/** The stored life of a position (src/asm/db/repo.py, src/asm/services/position_service.py): an
    append-only event log, a materialised row beside it, and the tick that marks, evaluates,
    sells and books. One writer per position. */
module Positions {
  import opened Numeric
  import opened Domain
  import opened Ledger
  import opened Exits

  datatype EventKind = Opened | Reduced | Closed

  /** `reason` is only present on sales. */
  datatype Event = Event(number: nat, kind: EventKind, amountDelta: int, usdDelta: real, pnl: real,
                         reason: Option<ExitReason>)

  datatype Record = Record(row: Holding, events: seq<Event>)

  function OpenRecord(mint: Mint, wallet: Wallet, decimals: nat, at: Time, amount: nat, price: real, valueUsd: real)
    : Record
  {
    Record(Holding(mint, wallet, decimals, at, price, amount, valueUsd, 0.0, price, price, false, [], true),
           [Event(0, Opened, amount, valueUsd, 0.0, None)])
  }

  /** coalesce(max(seq), 0) */
  function MaxNumber(events: seq<Event>): nat {
    if events == [] then 0
    else
      var before := MaxNumber(events[..|events| - 1]);
      if before >= events[|events| - 1].number then before else events[|events| - 1].number
  }

  function SaleEvent(events: seq<Event>, s: Sale): Event {
    var sold: int := s.amount;
    Event(MaxNumber(events) + 1, if s.fully then Closed else Reduced, -sold, s.proceeds, s.pnl, Some(s.reason))
  }

  function WithRung(hit: seq<nat>, rung: Option<nat>): seq<nat> {
    if rung.Some? && rung.value !in hit then hit + [rung.value] else hit
  }

  function AfterReduce(rec: Record, s: Sale): Record
    requires s.amount <= rec.row.amountRaw
  {
    var row := rec.row.(realizedPnl := rec.row.realizedPnl + s.pnl, currentPrice := s.price, isOpen := !s.fully,
                        levelsHit := WithRung(rec.row.levelsHit, s.rung));
    Record(if s.fully then row.(amountRaw := 0)
           else row.(amountRaw := row.amountRaw - s.amount, costBasis := row.costBasis - CostOf(s)),
           rec.events + [SaleEvent(rec.events, s)])
  }

  // ---------------------------------------------------------------- classes

  /** The position object an exit tick works on. */
  class Position {
    const mint: Mint
    const wallet: Wallet
    const decimals: nat
    const openedAt: Time
    const entryPrice: real
    var amountRaw: nat
    var costBasis: real
    var realizedPnl: real
    var currentPrice: real
    var peakPrice: real
    var trailingArmed: bool
    var levelsHit: seq<nat>
    var isOpen: bool

    ghost function State(): Holding
      reads this
    {
      Holding(mint, wallet, decimals, openedAt, entryPrice, amountRaw, costBasis, realizedPnl, currentPrice,
              peakPrice, trailingArmed, levelsHit, isOpen)
    }

    function Snapshot(): (h: Holding)
      reads this
      ensures h == State()
    {
      Holding(mint, wallet, decimals, openedAt, entryPrice, amountRaw, costBasis, realizedPnl, currentPrice,
              peakPrice, trailingArmed, levelsHit, isOpen)
    }

    constructor FromRow(row: Holding)
      ensures State() == row
    {
      mint, wallet, decimals, openedAt, entryPrice := row.mint, row.wallet, row.decimals, row.openedAt, row.entryPrice;
      amountRaw, costBasis, realizedPnl, isOpen := row.amountRaw, row.costBasis, row.realizedPnl, row.isOpen;
      currentPrice, peakPrice, trailingArmed := row.currentPrice, row.peakPrice, row.trailingArmed;
      levelsHit := row.levelsHit;
    }

    /** Tracks the peak and arms the trailing stop; reports exactly whether anything changed. */
    method UpdateMarks(price: real, rules: ExitRules) returns (changed: bool)
      modifies this`currentPrice, this`peakPrice, this`trailingArmed
      ensures State() == Marked(old(State()), price, rules)
      ensures changed <==> State() != old(State())
    {
      changed := currentPrice != price;
      if price > peakPrice {
        peakPrice := price;
        changed := true;
      }
      currentPrice := price;
      if !trailingArmed && entryPrice > 0.0 {
        if Gain(entryPrice, peakPrice) >= rules.trailingArmPct {
          trailingArmed := true;
          changed := true;
        }
      }
    }
  }

  /** One position's row and events. */
  class PositionStore {
    var row: Holding
    var events: seq<Event>

    ghost function State(): Record
      reads this
    {
      Record(row, events)
    }

    constructor OpenPosition(mint: Mint, wallet: Wallet, decimals: nat, at: Time,
                             amount: nat, price: real, valueUsd: real)
      ensures State() == OpenRecord(mint, wallet, decimals, at, amount, price, valueUsd)
    {
      row := Holding(mint, wallet, decimals, at, price, amount, valueUsd, 0.0, price, price, false, [], true);
      events := [Event(0, Opened, amount, valueUsd, 0.0, None)];
    }

    method ReducePosition(s: Sale)
      requires s.amount <= row.amountRaw
      modifies this
      ensures State() == AfterReduce(old(State()), s)
    {
      events := events + [SaleEvent(events, s)];
      row := row.(realizedPnl := row.realizedPnl + s.pnl, currentPrice := s.price, isOpen := !s.fully);
      if s.rung.Some? && s.rung.value !in row.levelsHit {
        row := row.(levelsHit := row.levelsHit + [s.rung.value]);
      }
      if s.fully {
        row := row.(amountRaw := 0);
      } else {
        row := row.(amountRaw := row.amountRaw - s.amount, costBasis := row.costBasis - CostOf(s));
      }
    }

    method PersistMarks(current: real, peak: real, armed: bool)
      modifies this`row
      ensures row == old(row).(currentPrice := current, peakPrice := peak, trailingArmed := armed)
    {
      row := row.(currentPrice := current, peakPrice := peak, trailingArmed := armed);
    }
  }

  // ---------------------------------------------------------------- one tick

  /** `exitsAllowed` is the system state's answer; `fill` is the executor's: None when the order
      did not go through, otherwise the price it filled at. */
  datatype Tick = Tick(signals: Signals, exitsAllowed: bool, fill: Option<real>)

  /** The sale this tick makes, if it makes one. */
  function SaleOf(row: Holding, rules: ExitRules, t: Tick): Option<Sale> {
    if !row.isOpen || t.signals.price <= 0.0 || !t.exitsAllowed || t.fill.None? then None
    else
      var h := Marked(row, t.signals.price, rules);
      match EvaluateExits(h, rules, t.signals)
      case None => None
      case Some(intent) =>
        if ToSell(h.amountRaw, intent.fraction) == 0 then None
        else Some(SaleFor(h, intent, t.signals.price, t.fill.value))
  }

  function MarkedRow(row: Holding, rules: ExitRules, t: Tick): Holding {
    if !row.isOpen || t.signals.price <= 0.0 then row else Marked(row, t.signals.price, rules)
  }

  function AfterTick(rec: Record, rules: ExitRules, t: Tick): Record {
    var marked := rec.(row := MarkedRow(rec.row, rules, t));
    match SaleOf(rec.row, rules, t)
    case None => marked
    case Some(s) => AfterReduce(marked, s)
  }

  class PositionService {
    const store: PositionStore
    const ledger: RiskLedger

    constructor (positions: PositionStore, risk: RiskLedger)
      ensures store == positions && ledger == risk
    {
      store, ledger := positions, risk;
    }

    /** Sells, books the reduction, then frees the ledger's share. */
    method ExecuteExit(position: Position, intent: Intent, market: real, fill: Option<real>) returns (sold: bool)
      requires position.amountRaw == store.row.amountRaw && position.isOpen
      modifies store, ledger, position
      ensures var h := old(position.State());
              sold == (ToSell(h.amountRaw, intent.fraction) > 0 && fill.Some?)
      ensures !sold ==> store.State() == old(store.State()) && ledger.State() == old(ledger.State())
      ensures sold ==>
                var h := old(position.State());
                var s := SaleFor(h, intent, market, fill.value);
                && store.State() == AfterReduce(old(store.State()), s)
                && ledger.State()
                   == AfterExit(old(ledger.State()), h.mint, h.wallet, CostOf(s), s.pnl, s.proceeds, s.fully)
                && position.State() == h.(amountRaw := h.amountRaw - s.amount, costBasis := h.costBasis - CostOf(s),
                                          realizedPnl := h.realizedPnl + s.pnl, isOpen := !s.fully,
                                          levelsHit := h.levelsHit + if s.rung.Some? then [s.rung.value] else [])
    {
      var amount := ToSell(position.amountRaw, intent.fraction);
      if amount == 0 { return false; }
      if fill.None? { return false; }
      var s := SaleFor(position.Snapshot(), intent, market, fill.value);
      store.ReducePosition(s);
      ledger.ReleasePosition(position.mint, position.wallet, CostOf(s), s.pnl, s.proceeds, s.fully);
      position.amountRaw := position.amountRaw - s.amount;
      position.costBasis := position.costBasis - CostOf(s);
      position.realizedPnl := position.realizedPnl + s.pnl;
      if s.rung.Some? { position.levelsHit := position.levelsHit + [s.rung.value]; }
      if s.fully { position.isOpen := false; }
      return true;
    }

    /** Load, mark, persist only what changed, evaluate, sell. */
    method Evaluate(rules: ExitRules, t: Tick) returns (sold: bool)
      requires store.row.isOpen
      modifies store, ledger
      ensures store.State() == AfterTick(old(store.State()), rules, t)
      ensures sold == SaleOf(old(store.row), rules, t).Some?
      ensures ledger.State() ==
        match SaleOf(old(store.row), rules, t)
        case None => old(ledger.State())
        case Some(s) => AfterExit(old(ledger.State()), old(store.row).mint, old(store.row).wallet,
                                  CostOf(s), s.pnl, s.proceeds, s.fully)
    {
      var position := new Position.FromRow(store.row);
      if t.signals.price <= 0.0 { return false; }
      var changed := position.UpdateMarks(t.signals.price, rules);
      if changed {
        store.PersistMarks(position.currentPrice, position.peakPrice, position.trailingArmed);
      }
      assert store.row == position.State();
      if !t.exitsAllowed { return false; }
      var intent := EvaluateExits(position.Snapshot(), rules, t.signals);
      if intent.None? { return false; }
      sold := ExecuteExit(position, intent.value, t.signals.price, t.fill);
    }
  }
}
