/** What one backtest step does to the ledger, the position table and the result, and why the three
    keep agreeing (src/asm/backtest/engine.py). The class in module Backtest performs these steps. */
module Replay {
  import opened Numeric
  import opened Domain
  import opened Ledger
  import opened Exits
  import opened Drawdown
  import opened Fills
  import LB = LedgerBook

  datatype ClosedTrade = ClosedTrade(
    mint: Mint, wallet: Wallet, openedAt: Time, closedAt: Time, entryPrice: real, exitPrice: real,
    sizeUsd: real, pnl: real, fee: real, reason: ExitReason)

  /** The running result. */
  datatype Tally = Tally(signals: nat, approved: nat, rejected: nat, realized: real, fees: real,
                         trades: seq<ClosedTrade>, meter: Meter)

  /** Positions are keyed by the reservation they grew out of. */
  datatype Sim = Sim(ledger: Ledger, positions: map<ResId, Holding>, tally: Tally)

  // ---------------------------------------------------------------- entries

  datatype Entry = Entry(id: ResId, mint: Mint, wallet: Wallet, size: real, decimals: nat, at: Time)

  function Bought(e: Entry, f: Fill): Holding
    requires f.outAmount >= 0
  {
    Holding(e.mint, e.wallet, e.decimals, e.at, f.price, f.outAmount, f.valueUsd, 0.0, f.price, f.price,
            false, [], true)
  }

  predicate Filled(f: Option<Fill>) { f.Some? && f.value.outAmount > 0 }

  /** The reservation is in the ledger already: a fill turns it into a position, anything else gives
      it back. */
  function AfterFill(s: Sim, fee: real, e: Entry, f: Option<Fill>): Sim {
    if Filled(f) then
      Sim(AfterCommit(s.ledger, e.id, f.value.valueUsd), s.positions[e.id := Bought(e, f.value)],
          s.tally.(fees := s.tally.fees + fee))
    else s.(ledger := AfterRelease(s.ledger, e.id))
  }

  // ---------------------------------------------------------------- exits

  datatype Exit = Exit(id: ResId, at: Time, reason: ExitReason, rung: Option<nat>, fraction: real,
                       market: real, fill: Option<real>)

  predicate Sells(h: Holding, x: Exit) {
    ToSell(h.amountRaw, x.fraction) > 0 && x.market > 0.0 && x.fill.Some?
  }

  function SaleOf(h: Holding, x: Exit): Sale
    requires Sells(h, x)
  {
    SaleFor(h, Intent(x.reason, x.fraction, x.rung), x.market, x.fill.value)
  }

  /** The result of a sale less its fee; the ledger is told proceeds, this, and the cost. */
  function Net(sale: Sale, fee: real): real { sale.pnl - fee }

  function Remaining(h: Holding, sale: Sale, fee: real): Holding
    requires sale.amount <= h.amountRaw
  {
    h.(amountRaw := h.amountRaw - sale.amount,
       costBasis := h.costBasis - (sale.proceeds - Net(sale, fee) - fee),
       realizedPnl := h.realizedPnl + Net(sale, fee),
       levelsHit := h.levelsHit + if sale.rung.Some? then [sale.rung.value] else [])
  }

  function Closed(h: Holding, x: Exit, sale: Sale, fee: real): ClosedTrade {
    var price := if sale.price == 0.0 then x.market else sale.price;
    ClosedTrade(h.mint, h.wallet, h.openedAt, x.at, h.entryPrice, price, sale.proceeds - Net(sale, fee),
                Net(sale, fee), fee, x.reason)
  }

  function AfterClose(s: Sim, fee: real, x: Exit): Sim
    requires x.id in s.positions
  {
    var h := s.positions[x.id];
    if Sells(h, x) then AfterSale(s, fee, x, h, SaleOf(h, x)) else s
  }

  function SoldLedger(s: Ledger, h: Holding, sale: Sale, fee: real): Ledger {
    AfterExit(s, h.mint, h.wallet, sale.proceeds - Net(sale, fee) - fee, Net(sale, fee), sale.proceeds, sale.fully)
  }

  function SoldTable(positions: map<ResId, Holding>, id: ResId, h: Holding, sale: Sale, fee: real): map<ResId, Holding>
    requires sale.amount <= h.amountRaw
  {
    if sale.fully then positions - {id} else positions[id := Remaining(h, sale, fee)]
  }

  function SoldTally(tally: Tally, x: Exit, h: Holding, sale: Sale, fee: real): Tally {
    tally.(realized := tally.realized + Net(sale, fee), fees := tally.fees + fee,
           trades := tally.trades + [Closed(h, x, sale, fee)])
  }

  /** The sale booked: in the ledger, in the table and in the result. */
  function AfterSale(s: Sim, fee: real, x: Exit, h: Holding, sale: Sale): Sim
    requires sale.amount <= h.amountRaw
  {
    Sim(SoldLedger(s.ledger, h, sale, fee), SoldTable(s.positions, x.id, h, sale, fee),
        SoldTally(s.tally, x, h, sale, fee))
  }

  // ---------------------------------------------------------------- marks

  function Repriced(h: Holding, price: real): Holding { if price > 0.0 then h.(currentPrice := price) else h }

  /** A fill price is never negative, so neither are proceeds. */
  predicate Payable(x: Exit) { x.fill.Some? ==> x.fill.value >= 0.0 }

  lemma ProceedsNonNegative(h: Holding, x: Exit)
    requires Sells(h, x) && Payable(x)
    ensures SaleOf(h, x).proceeds >= 0.0
  {
    var n := ToSell(h.amountRaw, x.fraction);
    QuotientOrder(n as real, Pow10(h.decimals), Pow10(h.decimals));
    MulOrder(0.0, Ui(n, h.decimals), 0.0, if x.fill.value == 0.0 then x.market else x.fill.value);
  }

  /** A position without a price counts nothing. */
  function Paper(h: Holding, price: real): real {
    if price > 0.0 then MarketValue(Repriced(h, price)) - h.costBasis else 0.0
  }

  function RepriceAll(positions: map<ResId, Holding>, prices: map<ResId, real>): map<ResId, Holding>
    requires positions.Keys == prices.Keys
  {
    map id | id in positions :: Repriced(positions[id], prices[id])
  }

  function PaperClaims(positions: map<ResId, Holding>, prices: map<ResId, real>): map<ResId, LB.Claim>
    requires positions.Keys == prices.Keys
  {
    map id | id in positions :: ClaimOf(positions[id]).(usd := Paper(positions[id], prices[id]))
  }

  /** What the open positions are worth above their cost. */
  ghost function PaperTotal(positions: map<ResId, Holding>, prices: map<ResId, real>): real
    requires positions.Keys == prices.Keys
  {
    LB.Total(PaperClaims(positions, prices), LB.Everything)
  }

  /** The table while the positions in `todo` still wait to be repriced, and what those will add. */
  function Partly(positions: map<ResId, Holding>, prices: map<ResId, real>, todo: set<ResId>): map<ResId, Holding>
    requires positions.Keys == prices.Keys
  {
    map id | id in positions :: if id in todo then positions[id] else Repriced(positions[id], prices[id])
  }

  ghost function Waiting(positions: map<ResId, Holding>, prices: map<ResId, real>, todo: set<ResId>): real
    requires positions.Keys == prices.Keys
  {
    LB.Total(PaperClaims(positions, prices) - (positions.Keys - todo), LB.Everything)
  }

  lemma RepriceStep(positions: map<ResId, Holding>, prices: map<ResId, real>, todo: set<ResId>, id: ResId)
    requires positions.Keys == prices.Keys && id in todo && todo <= positions.Keys
    ensures Partly(positions, prices, todo)[id := Repriced(positions[id], prices[id])]
         == Partly(positions, prices, todo - {id})
    ensures Waiting(positions, prices, todo)
         == Paper(positions[id], prices[id]) + Waiting(positions, prices, todo - {id})
  {
    var claims := PaperClaims(positions, prices);
    LB.TotalWithout(claims - (positions.Keys - todo), LB.Everything, id);
    assert claims - (positions.Keys - todo) - {id} == claims - (positions.Keys - (todo - {id}));
  }

  lemma RepriceEnds(positions: map<ResId, Holding>, prices: map<ResId, real>)
    requires positions.Keys == prices.Keys
    ensures Partly(positions, prices, positions.Keys) == positions
    ensures Partly(positions, prices, {}) == RepriceAll(positions, prices)
    ensures Waiting(positions, prices, positions.Keys) == PaperTotal(positions, prices)
    ensures Waiting(positions, prices, {}) == 0.0
  {
    var claims := PaperClaims(positions, prices);
    assert claims - (positions.Keys - positions.Keys) == claims;
    assert claims - (positions.Keys - {}) == map[];
  }

  function AfterMarking(s: Sim, positions: map<ResId, Holding>, unrealized: real): Sim {
    var marked := AfterMark(s.ledger, unrealized);
    Sim(marked, positions, s.tally.(meter := Observe(s.tally.meter, marked.equity)))
  }

  // ---------------------------------------------------------------- the agreement

  function ClaimOf(h: Holding): LB.Claim { LB.Claim(h.mint, h.wallet, h.costBasis, true) }

  function ClaimsOf(positions: map<ResId, Holding>): map<ResId, LB.Claim> {
    map id | id in positions :: ClaimOf(positions[id])
  }

  /** The book's claims are the position table. */
  ghost predicate Tabled(b: LB.Book, positions: map<ResId, Holding>) {
    && b.claims == ClaimsOf(positions)
    && forall id :: id in positions ==> positions[id].isOpen && positions[id].amountRaw > 0
  }

  /** The result is the book's gains less one fee an exit; the meter's peak is the high-water mark; nothing is
      ever harvested, and cash does not go negative. */
  predicate Tallied(b: LB.Book, s: Sim, fee: real) {
    && b.ledger == s.ledger
    && s.tally.realized == b.gains - b.exits as real * fee
    && |s.tally.trades| == b.exits
    && s.tally.meter.peak == s.ledger.hwm
    && s.ledger.harvestedTotal == 0.0 && s.ledger.cash >= 0.0
  }

  ghost predicate Agree(b: LB.Book, s: Sim, capital: real, fee: real) {
    LB.Balanced(b, capital) && Tabled(b, s.positions) && Tallied(b, s, fee)
  }

  /** The same while one reservation is waiting for its fill. */
  ghost predicate AgreeHolding(b: LB.Book, s: Sim, capital: real, fee: real, e: Entry) {
    && LB.Balanced(b, capital) && Tallied(b, s, fee)
    && e.id !in s.positions
    && HeldIn(b.ledger, e.id) && b.ledger.reservations[e.id] == Reservation(e.mint, e.wallet, e.size, Held)
    && e.id in b.claims && Tabled(b.(claims := b.claims - {e.id}), s.positions)
  }

  lemma ReserveAgrees(b: LB.Book, s: Sim, capital: real, fee: real, lim: Limits, e: Entry)
    requires Agree(b, s, capital, fee) && e.id !in b.used && e.size >= 0.0
    requires Refusal(s.ledger, b.control, lim, e.mint, e.wallet, e.size) == None
    ensures var op := LB.Reserve(e.id, e.mint, e.wallet, e.size);
            && LB.Legal(b, op)
            && AgreeHolding(LB.Apply(b, lim, op),
                            s.(ledger := AfterReserve(s.ledger, b.control, lim, e.id, e.mint, e.wallet, e.size)),
                            capital, fee, e)
  {
    LB.ApplyBalanced(b, lim, LB.Reserve(e.id, e.mint, e.wallet, e.size), capital);
  }

  lemma FillTabled(b: LB.Book, s: Sim, capital: real, fee: real, lim: Limits, e: Entry, f: Option<Fill>)
    requires AgreeHolding(b, s, capital, fee, e)
    requires Filled(f) ==> 0.0 <= f.value.valueUsd <= e.size
    ensures Tabled(LB.Apply(b, lim, FillOp(e, f)), AfterFill(s, fee, e, f).positions)
  {
    var rest := b.claims - {e.id};
    var next := LB.Apply(b, lim, FillOp(e, f));
    var after := AfterFill(s, fee, e, f).positions;
    if Filled(f) {
      assert next.claims == rest[e.id := ClaimOf(Bought(e, f.value))];
      assert ClaimsOf(after) == ClaimsOf(s.positions)[e.id := ClaimOf(Bought(e, f.value))];
    } else {
      assert next.claims == rest;
    }
  }

  function FillOp(e: Entry, f: Option<Fill>): LB.Op {
    if Filled(f) then LB.Commit(e.id, f.value.valueUsd) else LB.Release(e.id)
  }

  lemma FillAgrees(b: LB.Book, s: Sim, capital: real, fee: real, lim: Limits, e: Entry, f: Option<Fill>)
    requires AgreeHolding(b, s, capital, fee, e) && (Filled(f) ==> 0.0 <= f.value.valueUsd <= e.size)
    ensures LB.Legal(b, FillOp(e, f)) && Agree(LB.Apply(b, lim, FillOp(e, f)), AfterFill(s, fee, e, f), capital, fee)
  {
    LB.ApplyBalanced(b, lim, FillOp(e, f), capital);
    FillTabled(b, s, capital, fee, lim, e, f);
  }

  /** The ledger operation behind a sale. */
  function ExitOp(s: Sim, fee: real, x: Exit): LB.Op
    requires x.id in s.positions && Sells(s.positions[x.id], x)
  {
    var sale := SaleOf(s.positions[x.id], x);
    LB.Exit(x.id, sale.proceeds - Net(sale, fee) - fee, Net(sale, fee), sale.proceeds, sale.fully)
  }

  lemma CloseIsLegal(b: LB.Book, s: Sim, capital: real, fee: real, x: Exit)
    requires Agree(b, s, capital, fee) && x.id in s.positions && Sells(s.positions[x.id], x)
    ensures LB.Legal(b, ExitOp(s, fee, x))
    ensures var sale := SaleOf(s.positions[x.id], x);
            var held := s.positions[x.id].amountRaw;
            0 < sale.amount <= held && (sale.fully <==> sale.amount == held)
  {
    var h := s.positions[x.id];
    assert b.claims[x.id] == ClaimOf(h);
    CostIsShare(h, Intent(x.reason, x.fraction, x.rung), x.market, x.fill.value);
  }

  lemma CloseTabled(b: LB.Book, s: Sim, capital: real, fee: real, lim: Limits, x: Exit)
    requires Agree(b, s, capital, fee) && x.id in s.positions && Sells(s.positions[x.id], x)
    requires LB.Legal(b, ExitOp(s, fee, x))
    ensures Tabled(LB.Apply(b, lim, ExitOp(s, fee, x)), AfterClose(s, fee, x).positions)
  {
    CloseIsLegal(b, s, capital, fee, x);
    var h := s.positions[x.id];
    var sale := SaleOf(h, x);
    var next := LB.Apply(b, lim, ExitOp(s, fee, x));
    if sale.fully {
      assert ClaimsOf(s.positions - {x.id}) == ClaimsOf(s.positions) - {x.id};
    } else {
      var left := Remaining(h, sale, fee);
      assert ClaimsOf(s.positions[x.id := left]) == ClaimsOf(s.positions)[x.id := ClaimOf(left)];
    }
  }

  lemma CloseTallied(b: LB.Book, s: Sim, fee: real, lim: Limits, x: Exit)
    requires Tallied(b, s, fee) && x.id in s.positions && Sells(s.positions[x.id], x) && Payable(x)
    requires LB.Legal(b, ExitOp(s, fee, x)) && b.claims[x.id] == ClaimOf(s.positions[x.id])
    ensures Tallied(LB.Apply(b, lim, ExitOp(s, fee, x)), AfterClose(s, fee, x), fee)
  {
    ProceedsNonNegative(s.positions[x.id], x);
    assert (b.exits + 1) as real * fee == b.exits as real * fee + fee;
  }

  lemma CloseAgrees(b: LB.Book, s: Sim, capital: real, fee: real, lim: Limits, x: Exit)
    requires Agree(b, s, capital, fee) && x.id in s.positions && Sells(s.positions[x.id], x) && Payable(x)
    ensures LB.Legal(b, ExitOp(s, fee, x))
    ensures Agree(LB.Apply(b, lim, ExitOp(s, fee, x)), AfterClose(s, fee, x), capital, fee)
  {
    CloseIsLegal(b, s, capital, fee, x);
    LB.ApplyBalanced(b, lim, ExitOp(s, fee, x), capital);
    CloseTabled(b, s, capital, fee, lim, x);
    CloseTallied(b, s, fee, lim, x);
  }

  lemma MarkAgrees(b: LB.Book, s: Sim, capital: real, fee: real, lim: Limits, prices: map<ResId, real>,
                   unrealized: real)
    requires Agree(b, s, capital, fee) && s.positions.Keys == prices.Keys
    ensures var positions := RepriceAll(s.positions, prices);
            Agree(LB.Apply(b, lim, LB.Mark(unrealized)), AfterMarking(s, positions, unrealized), capital, fee)
  {
    LB.ApplyBalanced(b, lim, LB.Mark(unrealized), capital);
    assert ClaimsOf(RepriceAll(s.positions, prices)) == ClaimsOf(s.positions);
  }

  /** Whatever changes besides mint, wallet and cost leaves the agreement alone. */
  lemma MarksAgree(b: LB.Book, s: Sim, capital: real, fee: real, id: ResId, h: Holding)
    requires Agree(b, s, capital, fee) && id in s.positions
    requires ClaimOf(h) == ClaimOf(s.positions[id]) && h.isOpen && h.amountRaw > 0
    ensures Agree(b, s.(positions := s.positions[id := h]), capital, fee)
  {
    assert ClaimsOf(s.positions[id := h]) == ClaimsOf(s.positions);
  }

  /** What agreement means for the numbers a backtest reports: nothing is pending, the open count is the size
      of the table, every exposure is the cost its positions carry (less swept dust), cash is not negative,
      and cash plus that cost is the capital plus the reported result plus one fee for every closed trade. */
  ghost predicate NumbersAgree(s: Sim, capital: real, fee: real) {
    && s.ledger.pending == 0 && s.ledger.openPositions == |s.positions| && s.ledger.cash >= 0.0
    && (forall sc :: LB.Drifts(LB.Total(ClaimsOf(s.positions), sc), LB.Shown(s.ledger, sc), |s.tally.trades|))
    && s.ledger.cash + LB.Total(ClaimsOf(s.positions), LB.Everything)
       == capital + s.tally.realized + |s.tally.trades| as real * fee
  }

  lemma AgreementMeans(b: LB.Book, s: Sim, capital: real, fee: real)
    requires Agree(b, s, capital, fee)
    ensures NumbersAgree(s, capital, fee)
  {
    assert LB.HeldIds(b.claims) == {};
    assert LB.OpenIds(b.claims) == s.positions.Keys;
    assert |s.positions.Keys| == |s.positions|;
  }

  // ---------------------------------------------------------------- the equity curve

  lemma {:induction false} TotalsCover(xs: map<ResId, LB.Claim>, ys: map<ResId, LB.Claim>)
    requires xs.Keys == ys.Keys && forall id :: id in xs ==> xs[id].usd + ys[id].usd >= 0.0
    ensures LB.Total(xs, LB.Everything) + LB.Total(ys, LB.Everything) >= 0.0
    decreases |xs|
  {
    if xs != map[] {
      var id :| id in xs;
      LB.TotalWithout(xs, LB.Everything, id);
      LB.TotalWithout(ys, LB.Everything, id);
      TotalsCover(xs - {id}, ys - {id});
    } else {
      assert ys == map[];
    }
  }

  /** A position is never worth less than nothing, so its paper loss is within its cost. */
  lemma PaperWithinCost(h: Holding, price: real)
    requires h.costBasis >= 0.0
    ensures Paper(h, price) + h.costBasis >= 0.0
  {
    if price > 0.0 {
      QuotientOrder(h.amountRaw as real, Pow10(h.decimals), Pow10(h.decimals));
      MulOrder(0.0, Ui(h.amountRaw, h.decimals), 0.0, price);
    }
  }

  /** A marked equity is at least minus the dust that exits may have swept. */
  lemma EquityFloor(b: LB.Book, s: Sim, capital: real, fee: real, prices: map<ResId, real>)
    requires Agree(b, s, capital, fee) && s.positions.Keys == prices.Keys
    ensures AfterMark(s.ledger, PaperTotal(s.positions, prices)).equity >= -(b.exits as real * DUST)
  {
    var paper, claims := PaperClaims(s.positions, prices), ClaimsOf(s.positions);
    forall id | id in paper ensures paper[id].usd + claims[id].usd >= 0.0 {
      assert b.claims[id].usd >= 0.0;
      PaperWithinCost(s.positions[id], prices[id]);
    }
    TotalsCover(paper, claims);
    assert LB.Drifts(LB.Total(b.claims, LB.Everything), LB.Shown(b.ledger, LB.Everything), b.exits);
  }

  /** The meter has read the whole curve of marked equities, which starts with the capital and never falls
      below the dust. */
  ghost predicate Metered(curve: seq<real>, meter: Meter, capital: real, exits: nat) {
    && curve != [] && curve[0] == capital && meter == Online(curve)
    && forall i :: 0 <= i < |curve| ==> curve[i] >= -(exits as real * DUST)
  }

  lemma MeterReads(curve: seq<real>, meter: Meter, capital: real, exits: nat, equity: real)
    requires Metered(curve, meter, capital, exits) && equity >= -(exits as real * DUST)
    ensures Metered(curve + [equity], Observe(meter, equity), capital, exits)
  {
    assert (curve + [equity])[..|curve|] == curve;
  }

  lemma MeterWaits(curve: seq<real>, meter: Meter, capital: real, exits: nat, more: nat)
    requires Metered(curve, meter, capital, exits) && exits <= more
    ensures Metered(curve, meter, capital, more)
  {
  }
}
