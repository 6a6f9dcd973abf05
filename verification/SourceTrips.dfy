/** What a backtest books about the traders it follows (_track_source_pnl and _accrue_copyable in
    src/asm/backtest/engine.py): the source's own round trips, and what a follower would have made who came
    some lag later, on a fixed notional, after impact and fees. */
module SourceTrips {
  import opened Numeric
  import opened Domain
  import opened Lots
  import opened Sorting
  import H = History

  /** Results are divided by it. */
  type Notional = x: real | x != 0.0 witness 100.0

  /** A follower comes `lag` later, trades the notional, and pays for impact and two transactions. */
  datatype Terms = Terms(lag: Time, notional: Notional, impact: (real, real) -> real, feeUsd: real)

  datatype Follower = Follower(histories: H.Histories, terms: Terms)

  type Positions = map<(Wallet, Mint), seq<Lot>>

  datatype Book = Book(positions: Positions, sourceUsd: real, roundTrips: nat, sourcePct: seq<real>,
                       copyableUsd: real, copyablePct: seq<real>)

  const EMPTY := Book(map[], 0.0, 0, [], 0.0, [])

  function QueueOf(positions: Positions, key: (Wallet, Mint)): seq<Lot> {
    if key in positions then positions[key] else []
  }

  // ---------------------------------------------------------------- one round trip

  /** One fill's result, in quote units before conversion to dollars. */
  function Part(l: Lot, used: nat, price: real): real { Ui(used, l.decimals) * (price - l.price) }

  /** The return on a lot, when it had a price. */
  function TripReturn(lot: Lot, price: real): seq<real> {
    if lot.price > 0.0 then [(price - lot.price) / lot.price * 100.0] else []
  }

  function FillIn(f: Terms, p: H.PricePoint): real {
    p.priceUsd * (1.0 + f.impact(f.notional, p.liquidityUsd) / 100.0)
  }

  function FillOut(f: Terms, p: H.PricePoint): real {
    p.priceUsd * (1.0 - f.impact(f.notional, p.liquidityUsd) / 100.0)
  }

  /** Entering at one observation and leaving at another. */
  function RoundTripUsd(f: Terms, entry: H.PricePoint, exit: H.PricePoint): real
    requires FillIn(f, entry) != 0.0
  {
    f.notional / FillIn(f, entry) * FillOut(f, exit) - f.notional - f.feeUsd * 2.0
  }

  function Lookup(f: Follower, m: Mint, when: Time): Option<H.PricePoint> {
    if m in f.histories then H.At(f.histories[m].points, when) else None
  }

  function Trip(f: Terms, entry: Option<H.PricePoint>, exit: Option<H.PricePoint>): seq<real> {
    if entry.None? || exit.None? || entry.value.priceUsd <= 0.0 || FillIn(f, entry.value) <= 0.0 then []
    else [RoundTripUsd(f, entry.value, exit.value)]
  }

  /** The follower's version of a round trip, when both ends can be looked up: nothing, or one result. */
  function Copied(f: Follower, m: Mint, openedAt: Time, closedAt: Time): seq<real> {
    Trip(f.terms, Lookup(f, m, openedAt + f.terms.lag), Lookup(f, m, closedAt + f.terms.lag))
  }

  // ---------------------------------------------------------------- one sale

  /** The source's result on a sale. */
  function Pnl(fills: seq<Fill>, price: real): real {
    if fills == [] then 0.0 else Part(fills[0].lot, fills[0].used, price) + Pnl(fills[1..], price)
  }

  /** Which buys a sale took from, whatever the amounts. */
  function Origin(l: Lot): Lot { l.(amount := 0) }

  function Origins(fills: seq<Fill>): seq<Lot> {
    seq(|fills|, k requires 0 <= k < |fills| => Origin(fills[k].lot))
  }

  function Returns(lots: seq<Lot>, price: real): seq<real> {
    if lots == [] then [] else Returns(lots[..|lots| - 1], price) + TripReturn(lots[|lots| - 1], price)
  }

  /** The follower's version of each of a sale's round trips, and all of them in one list. */
  function CopiedEach(f: Follower, lots: seq<Lot>, m: Mint, at: Time): (each: seq<seq<real>>)
    ensures |each| == |lots| && forall k :: 0 <= k < |lots| ==> each[k] == Copied(f, m, lots[k].at, at)
  {
    seq(|lots|, k requires 0 <= k < |lots| => Copied(f, m, lots[k].at, at))
  }

  function Flat(xss: seq<seq<real>>): seq<real> {
    if xss == [] then [] else Flat(xss[..|xss| - 1]) + xss[|xss| - 1]
  }

  function CopiedAll(f: Follower, lots: seq<Lot>, m: Mint, at: Time): seq<real> {
    Flat(CopiedEach(f, lots, m, at))
  }

  function Total(xs: seq<real>): real { if xs == [] then 0.0 else Total(xs[..|xs| - 1]) + xs[|xs| - 1] }

  function Pcts(f: Terms, xs: seq<real>): seq<real> {
    seq(|xs|, i requires 0 <= i < |xs| => xs[i] / f.notional * 100.0)
  }

  /** A sale is booked: the queues it leaves, its result, and the buys it took from. */
  function Booked(f: Follower, sol: real, b: Book, trade: Trade, positions: Positions, pnl: real, from: seq<Lot>)
    : Book
  {
    var copied := CopiedAll(f, from, trade.mint, trade.at);
    Book(positions, b.sourceUsd + pnl * sol, b.roundTrips + |from|, b.sourcePct + Returns(from, trade.price),
         b.copyableUsd + Total(copied), b.copyablePct + Pcts(f.terms, copied))
  }

  function AfterSell(f: Follower, sol: real, b: Book, trade: Trade, key: (Wallet, Mint), lots: seq<Lot>): Book {
    var fills := Fills(lots, trade.amount);
    Booked(f, sol, b, trade, b.positions[key := Rest(lots, trade.amount)], Pnl(fills, trade.price), Origins(fills))
  }

  /** The queue of a wallet and a mint: a buy joins it, a sell takes from its head. */
  function AfterTrade(f: Follower, sol: real, b: Book, trade: Trade, i: nat): Book {
    var key := (trade.wallet, trade.mint);
    var lots := QueueOf(b.positions, key);
    if trade.action == Buy then b.(positions := b.positions[key := lots + [LotOf(trade, i)]])
    else if IsSell(trade.action) then AfterSell(f, sol, b, trade, key, lots)
    else b.(positions := b.positions[key := lots])
  }

  function AfterTrades(f: Follower, sol: real, trades: seq<Trade>): Book {
    if trades == [] then EMPTY
    else
      var n := |trades| - 1;
      AfterTrade(f, sol, AfterTrades(f, sol, trades[..n]), trades[n], n)
  }

  class SourceBook {
    var positions: Positions
    var sourceUsd: real
    var roundTrips: nat
    var sourcePct: seq<real>
    var copyableUsd: real
    var copyablePct: seq<real>
    const follower: Follower
    const solPrice: real

    ghost function State(): Book
      reads this
    {
      Book(positions, sourceUsd, roundTrips, sourcePct, copyableUsd, copyablePct)
    }

    constructor (f: Follower, sol: real)
      ensures State() == EMPTY && follower == f && solPrice == sol
    {
      positions, sourceUsd, roundTrips, sourcePct, copyableUsd, copyablePct := map[], 0.0, 0, [], 0.0, [];
      follower, solPrice := f, sol;
    }

    /** A buy joins its queue; a sell is matched against it and booked. */
    method Track(trade: Trade, i: nat)
      modifies this
      ensures State() == AfterTrade(follower, solPrice, old(State()), trade, i)
    {
      var key := (trade.wallet, trade.mint);
      var lots := QueueOf(positions, key);
      if trade.action == Buy {
        positions := positions[key := lots + [LotOf(trade, i)]];
      } else if IsSell(trade.action) {
        TrackSell(trade, key, lots);
      } else {
        positions := positions[key := lots];
      }
    }

    method TrackSell(trade: Trade, key: (Wallet, Mint), lots: seq<Lot>)
      requires lots == QueueOf(positions, key)
      modifies this
      ensures State() == AfterSell(follower, solPrice, old(State()), trade, key, lots)
    {
      var rest, fills := SellFifo(lots, trade.amount);
      var pnl := AddUp(fills, trade.price);
      Accrue(trade, positions[key := rest], pnl, Origins(fills));
    }

    method Accrue(trade: Trade, left: Positions, pnl: real, from: seq<Lot>)
      modifies this
      ensures State() == Booked(follower, solPrice, old(State()), trade, left, pnl, from)
    {
      var pcts := SourceReturns(from, trade.price);
      var total, copied := CopyEach(from, trade.mint, trade.at);
      positions, sourceUsd, roundTrips := left, sourceUsd + pnl * solPrice, roundTrips + |from|;
      sourcePct, copyableUsd := sourcePct + pcts, copyableUsd + total;
      copyablePct := copyablePct + Pcts(follower.terms, copied);
    }

    method AddUp(fills: seq<Fill>, price: real) returns (total: real)
      ensures total == Pnl(fills, price)
    {
      total := 0.0;
      for k := 0 to |fills|
        invariant total + Pnl(fills[k..], price) == Pnl(fills, price)
      {
        assert fills[k..][1..] == fills[k + 1..];
        total := total + Part(fills[k].lot, fills[k].used, price);
      }
    }

    method SourceReturns(lots: seq<Lot>, price: real) returns (pcts: seq<real>)
      ensures pcts == Returns(lots, price)
    {
      pcts := [];
      for k := 0 to |lots|
        invariant pcts == Returns(lots[..k], price)
      {
        assert lots[..k + 1][..k] == lots[..k];
        pcts := pcts + TripReturn(lots[k], price);
      }
      assert lots[..|lots|] == lots;
    }

    method CopyEach(lots: seq<Lot>, m: Mint, at: Time) returns (total: real, copied: seq<real>)
      ensures copied == CopiedAll(follower, lots, m, at) && total == Total(copied)
    {
      total, copied := 0.0, [];
      var each := CopiedEach(follower, lots, m, at);
      for k := 0 to |lots|
        invariant copied == Flat(each[..k]) && total == Total(copied)
      {
        assert each[..k + 1][..k] == each[..k];
        TotalOfMore(copied, each[k]);
        if each[k] != [] { total := total + each[k][0]; }
        copied := copied + each[k];
      }
      assert each[..|lots|] == each;
    }
  }

  lemma {:induction false} TotalOfMore(xs: seq<real>, ys: seq<real>)
    ensures Total(xs + ys) == Total(xs) + Total(ys)
    ensures |ys| == 1 ==> Total(ys) == ys[0]
  {
    if ys == [] {
      assert xs + ys == xs;
    } else {
      var n := |ys| - 1;
      TotalOfMore(xs, ys[..n]);
      assert (xs + ys)[..|xs| + n] == xs + ys[..n];
    }
  }

  // ---------------------------------------------------------------- where the source's result comes from

  /** What a quantity of a lot cost, and what it sold for. */
  function CostValue(l: Lot, used: nat): real { Ui(used, l.decimals) * l.price }

  function SaleValue(l: Lot, used: nat, price: real): real { Ui(used, l.decimals) * price }

  function CostOf(fills: seq<Fill>): real {
    if fills == [] then 0.0 else CostValue(fills[0].lot, fills[0].used) + CostOf(fills[1..])
  }

  function SoldFor(fills: seq<Fill>, price: real): real {
    if fills == [] then 0.0 else SaleValue(fills[0].lot, fills[0].used, price) + SoldFor(fills[1..], price)
  }

  /** What a queue still carries at cost. */
  function Carried(lots: seq<Lot>): real {
    if lots == [] then 0.0 else CostValue(lots[0], lots[0].amount) + Carried(lots[1..])
  }

  lemma {:induction false} PnlIsSaleLessCost(fills: seq<Fill>, price: real)
    ensures Pnl(fills, price) == SoldFor(fills, price) - CostOf(fills)
  {
    if fills != [] {
      PnlIsSaleLessCost(fills[1..], price);
      var u := Ui(fills[0].used, fills[0].lot.decimals);
      assert u * (price - fills[0].lot.price) == u * price - u * fills[0].lot.price;
    }
  }

  lemma CostAdds(l: Lot, left: nat, used: nat)
    ensures CostValue(l.(amount := left), left) + CostValue(l, used) == CostValue(l, left + used)
  {
    var p := Pow10(l.decimals);
    assert (left + used) as real / p == left as real / p + used as real / p;
    Distributes(left as real / p, used as real / p, l.price);
  }

  lemma {:induction false} RestCarries(lots: seq<Lot>, qty: nat)
    ensures Carried(Rest(lots, qty)) + CostOf(Fills(lots, qty)) == Carried(lots)
  {
    if qty > 0 && lots != [] {
      if qty < lots[0].amount {
        CostAdds(lots[0], lots[0].amount - qty, qty);
        assert ([lots[0].(amount := lots[0].amount - qty)] + lots[1..])[1..] == lots[1..];
      } else {
        var left := qty - lots[0].amount;
        RestCarries(lots[1..], left);
        assert ([Fill(lots[0], lots[0].amount)] + Fills(lots[1..], left))[1..] == Fills(lots[1..], left);
      }
    }
  }

  lemma {:induction false} CarriedAppend(lots: seq<Lot>, l: Lot)
    ensures Carried(lots + [l]) == Carried(lots) + CostValue(l, l.amount)
  {
    if lots == [] {
      assert lots + [l] == [l];
    } else {
      CarriedAppend(lots[1..], l);
      assert (lots + [l])[1..] == lots[1..] + [l];
    }
  }

  /** What a trade takes from its queue. */
  function Taking(positions: Positions, trade: Trade): seq<Fill> {
    if IsSell(trade.action) then Fills(QueueOf(positions, (trade.wallet, trade.mint)), trade.amount) else []
  }

  /** What a trade adds to the source's result: what its lots sold for less what they had cost. */
  function TradeResult(sol: real, positions: Positions, trade: Trade): real {
    var taking := Taking(positions, trade);
    Scaled(SoldFor(taking, trade.price) - CostOf(taking), sol)
  }

  function ResultOf(f: Follower, sol: real, trades: seq<Trade>): real {
    if trades == [] then 0.0
    else
      var n := |trades| - 1;
      ResultOf(f, sol, trades[..n]) + TradeResult(sol, AfterTrades(f, sol, trades[..n]).positions, trades[n])
  }

  /** What a trade buys into a queue, and what it takes from it, at cost. */
  function Spent(trade: Trade, key: (Wallet, Mint)): real {
    if trade.action == Buy && (trade.wallet, trade.mint) == key then Ui(trade.amount, trade.decimals) * trade.price
    else 0.0
  }

  function Released(positions: Positions, trade: Trade, key: (Wallet, Mint)): real {
    if (trade.wallet, trade.mint) == key then CostOf(Taking(positions, trade)) else 0.0
  }

  function CarriedOf(f: Follower, sol: real, trades: seq<Trade>, key: (Wallet, Mint)): real {
    if trades == [] then 0.0
    else
      var n := |trades| - 1;
      CarriedOf(f, sol, trades[..n], key) + Spent(trades[n], key)
      - Released(AfterTrades(f, sol, trades[..n]).positions, trades[n], key)
  }

  lemma TradeBooks(f: Follower, sol: real, b: Book, trade: Trade, i: nat)
    ensures AfterTrade(f, sol, b, trade, i).sourceUsd == b.sourceUsd + TradeResult(sol, b.positions, trade)
  {
    PnlIsSaleLessCost(Taking(b.positions, trade), trade.price);
  }

  /** The source's result is, sell by sell, what the lots it took sold for less what they had cost, at the price of
      SOL. */
  lemma {:induction false} ResultIsSalesLessCost(f: Follower, sol: real, trades: seq<Trade>)
    ensures AfterTrades(f, sol, trades).sourceUsd == ResultOf(f, sol, trades)
  {
    if trades != [] {
      var n := |trades| - 1;
      ResultIsSalesLessCost(f, sol, trades[..n]);
      TradeBooks(f, sol, AfterTrades(f, sol, trades[..n]), trades[n], n);
    }
  }

  lemma TradeCarries(f: Follower, sol: real, b: Book, trade: Trade, i: nat, key: (Wallet, Mint))
    ensures Carried(QueueOf(AfterTrade(f, sol, b, trade, i).positions, key))
         == Carried(QueueOf(b.positions, key)) + Spent(trade, key) - Released(b.positions, trade, key)
  {
    var lots := QueueOf(b.positions, key);
    if (trade.wallet, trade.mint) == key {
      if trade.action == Buy {
        CarriedAppend(lots, LotOf(trade, i));
      } else if IsSell(trade.action) {
        RestCarries(lots, trade.amount);
      }
    }
  }

  /** Each queue carries, at cost, what was bought into it less what sells took from it. */
  lemma {:induction false} QueueCarriesTheRest(f: Follower, sol: real, trades: seq<Trade>, key: (Wallet, Mint))
    ensures Carried(QueueOf(AfterTrades(f, sol, trades).positions, key)) == CarriedOf(f, sol, trades, key)
  {
    if trades != [] {
      var n := |trades| - 1;
      QueueCarriesTheRest(f, sol, trades[..n], key);
      TradeCarries(f, sol, AfterTrades(f, sol, trades[..n]), trades[n], n, key);
    }
  }

  /** A source's return is the move in percent of what it paid; nothing for a lot without a price. */
  lemma TripReturnMeans(lot: Lot, price: real)
    ensures lot.price <= 0.0 <==> TripReturn(lot, price) == []
    ensures lot.price > 0.0 ==>
              |TripReturn(lot, price)| == 1 && TripReturn(lot, price)[0] * lot.price == 100.0 * (price - lot.price)
  {
  }

  // ---------------------------------------------------------------- splitting a sale

  lemma PartAdds(l: Lot, left: nat, a: nat, b: nat, price: real)
    ensures Part(l, a, price) + Part(l.(amount := left), b, price) == Part(l, a + b, price)
  {
    var p := Pow10(l.decimals);
    assert (a + b) as real / p == a as real / p + b as real / p;
  }

  lemma SellPnl(lots: seq<Lot>, qty: nat, price: real)
    requires qty > 0 && lots != []
    ensures Pnl(Fills(lots, qty), price)
         == if qty < lots[0].amount then Part(lots[0], qty, price)
            else Part(lots[0], lots[0].amount, price) + Pnl(Fills(lots[1..], qty - lots[0].amount), price)
  {
    if qty >= lots[0].amount {
      var tail := Fills(lots[1..], qty - lots[0].amount);
      assert ([Fill(lots[0], lots[0].amount)] + tail)[1..] == tail;
    }
  }

  /** Splitting inside the head lot. */
  lemma PnlSplitsHead(lots: seq<Lot>, a: nat, b: nat, price: real)
    requires 0 < a && 0 < b && lots != [] && a < lots[0].amount
    ensures Pnl(Fills(lots, a), price) + Pnl(Fills(Rest(lots, a), b), price) == Pnl(Fills(lots, a + b), price)
  {
    var l, left := lots[0], lots[0].amount - a;
    var shrunk := [l.(amount := left)] + lots[1..];
    assert shrunk[0] == l.(amount := left) && shrunk[1..] == lots[1..] && Rest(lots, a) == shrunk;
    SellPnl(lots, a, price);
    SellPnl(lots, a + b, price);
    SellPnl(shrunk, b, price);
    PartAdds(l, left, a, if b < left then b else left, price);
  }

  /** Selling a + b at one price earns what selling a and then b at that price earns. */
  lemma {:induction false} PnlSplits(lots: seq<Lot>, a: nat, b: nat, price: real)
    ensures Pnl(Fills(lots, a), price) + Pnl(Fills(Rest(lots, a), b), price) == Pnl(Fills(lots, a + b), price)
  {
    if a > 0 && b > 0 && lots != [] {
      if a < lots[0].amount {
        PnlSplitsHead(lots, a, b, price);
      } else {
        PnlSplits(lots[1..], a - lots[0].amount, b, price);
        SellPnl(lots, a, price);
        SellPnl(lots, a + b, price);
      }
    }
  }

  /** The lot a sale stops inside of, if it does not end with one. */
  function StopsInside(lots: seq<Lot>, qty: nat): seq<Lot> {
    if qty == 0 || lots == [] then []
    else if qty < lots[0].amount then [Origin(lots[0])]
    else StopsInside(lots[1..], qty - lots[0].amount)
  }

  lemma OriginsNext(lots: seq<Lot>, qty: nat)
    requires qty > 0 && lots != []
    ensures Origins(Fills(lots, qty))
         == [Origin(lots[0])]
            + if qty < lots[0].amount then [] else Origins(Fills(lots[1..], qty - lots[0].amount))
  {
  }

  /** Sold in two parts, the buys are the same ones, except that a lot the first part stops inside of
      counts for both. */
  lemma {:induction false} OriginsSplit(lots: seq<Lot>, a: nat, b: nat) returns (later: seq<Lot>)
    requires b > 0
    ensures Origins(Fills(lots, a + b)) == Origins(Fills(lots, a)) + later
    ensures Origins(Fills(Rest(lots, a), b)) == StopsInside(lots, a) + later
  {
    if a == 0 || lots == [] {
      later := Origins(Fills(lots, b));
    } else if a < lots[0].amount {
      later := HeadSplits(lots, a, b);
    } else {
      later := OriginsSplit(lots[1..], a - lots[0].amount, b);
      PoppedOrigins(lots, a, b, later);
    }
  }

  lemma PoppedOrigins(lots: seq<Lot>, a: nat, b: nat, later: seq<Lot>)
    requires a > 0 && lots != [] && a >= lots[0].amount
    requires var left := a - lots[0].amount;
             Origins(Fills(lots[1..], left + b)) == Origins(Fills(lots[1..], left)) + later
    ensures Origins(Fills(lots, a + b)) == Origins(Fills(lots, a)) + later
  {
    var left := a - lots[0].amount;
    OriginsNext(lots, a);
    OriginsNext(lots, a + b);
    assert a + b - lots[0].amount == left + b;
    Prepended(Origin(lots[0]), Origins(Fills(lots[1..], left)), later);
  }

  lemma Prepended(first: Lot, some: seq<Lot>, more: seq<Lot>)
    ensures [first] + (some + more) == [first] + some + more
  {
  }

  lemma HeadSplits(lots: seq<Lot>, a: nat, b: nat) returns (later: seq<Lot>)
    requires 0 < a && 0 < b && lots != [] && a < lots[0].amount
    ensures Origins(Fills(lots, a + b)) == Origins(Fills(lots, a)) + later
    ensures Origins(Fills(Rest(lots, a), b)) == [Origin(lots[0])] + later
  {
    var shrunk := [lots[0].(amount := lots[0].amount - a)] + lots[1..];
    assert Rest(lots, a) == shrunk && shrunk[1..] == lots[1..];
    later := if b < shrunk[0].amount then [] else Origins(Fills(lots[1..], b - shrunk[0].amount));
    OriginsNext(lots, a);
    OriginsNext(lots, a + b);
    OriginsNext(shrunk, b);
  }

  lemma {:induction false} FlatConcat(xss: seq<seq<real>>, yss: seq<seq<real>>)
    ensures Flat(xss + yss) == Flat(xss) + Flat(yss)
  {
    if yss == [] {
      assert xss + yss == xss;
    } else {
      var n := |yss| - 1;
      FlatConcat(xss, yss[..n]);
      assert (xss + yss)[..|xss| + n] == xss + yss[..n];
    }
  }

  lemma CopiedConcat(f: Follower, xs: seq<Lot>, ys: seq<Lot>, m: Mint, at: Time)
    ensures CopiedAll(f, xs + ys, m, at) == CopiedAll(f, xs, m, at) + CopiedAll(f, ys, m, at)
  {
    assert CopiedEach(f, xs + ys, m, at) == CopiedEach(f, xs, m, at) + CopiedEach(f, ys, m, at);
    FlatConcat(CopiedEach(f, xs, m, at), CopiedEach(f, ys, m, at));
  }

  function CopiedTotal(f: Follower, lots: seq<Lot>, qty: nat, m: Mint, at: Time): real {
    Total(CopiedAll(f, Origins(Fills(lots, qty)), m, at))
  }

  /** Reporting one sell as two at the same price and time changes neither the lots nor the source's result. The
      follower's result changes: when the first part stops inside a lot, the round trip on that lot is booked
      once more. */
  lemma SplitSellCountsTwice(f: Follower, queue: seq<Lot>, a: nat, b: nat, price: real, m: Mint, at: Time)
    requires b > 0
    ensures Rest(Rest(queue, a), b) == Rest(queue, a + b)
    ensures Pnl(Fills(queue, a), price) + Pnl(Fills(Rest(queue, a), b), price) == Pnl(Fills(queue, a + b), price)
    ensures |Fills(queue, a)| + |Fills(Rest(queue, a), b)| == |Fills(queue, a + b)| + |StopsInside(queue, a)|
    ensures CopiedTotal(f, queue, a, m, at) + CopiedTotal(f, Rest(queue, a), b, m, at)
         == CopiedTotal(f, queue, a + b, m, at) + Total(CopiedAll(f, StopsInside(queue, a), m, at))
  {
    RestSplits(queue, a, b);
    PnlSplits(queue, a, b, price);
    var later := OriginsSplit(queue, a, b);
    var first, stop := Origins(Fills(queue, a)), StopsInside(queue, a);
    CopiedConcat(f, first, later, m, at);
    CopiedConcat(f, stop, later, m, at);
    TotalOfMore(CopiedAll(f, first, m, at), CopiedAll(f, later, m, at));
    TotalOfMore(CopiedAll(f, stop, m, at), CopiedAll(f, later, m, at));
  }

  /** A lot of two units sold one by one brings a follower twice what it brings sold at once. */
  lemma SoldOneByOne(f: Follower, lot: Lot, m: Mint, at: Time)
    requires lot.amount == 2
    ensures CopiedTotal(f, [lot], 1, m, at) + CopiedTotal(f, Rest([lot], 1), 1, m, at)
         == 2.0 * CopiedTotal(f, [lot], 2, m, at)
  {
    SplitSellCountsTwice(f, [lot], 1, 1, 0.0, m, at);
    assert Fills([lot], 2) == [Fill(lot, 2)] && Origins([Fill(lot, 2)]) == [Origin(lot)];
  }

  // ---------------------------------------------------------------- scale

  function ScaledLot(l: Lot, k: nat): Lot { l.(amount := l.amount * k) }

  function ScaledLots(lots: seq<Lot>, k: nat): (scaled: seq<Lot>)
    ensures |scaled| == |lots| && forall i :: 0 <= i < |lots| ==> scaled[i] == ScaledLot(lots[i], k)
  {
    seq(|lots|, i requires 0 <= i < |lots| => ScaledLot(lots[i], k))
  }

  function ScaledFills(fills: seq<Fill>, k: nat): (scaled: seq<Fill>)
    ensures |scaled| == |fills|
    ensures forall i :: 0 <= i < |fills| ==> scaled[i] == Fill(ScaledLot(fills[i].lot, k), fills[i].used * k)
  {
    seq(|fills|, i requires 0 <= i < |fills| => Fill(ScaledLot(fills[i].lot, k), fills[i].used * k))
  }

  function ScaledTrades(trades: seq<Trade>, k: nat): (scaled: seq<Trade>)
    ensures |scaled| == |trades|
    ensures forall i :: 0 <= i < |trades| ==> scaled[i] == trades[i].(amount := trades[i].amount * k)
  {
    seq(|trades|, i requires 0 <= i < |trades| => trades[i].(amount := trades[i].amount * k))
  }

  function ScaledPositions(positions: Positions, k: nat): Positions {
    map key | key in positions :: ScaledLots(positions[key], k)
  }

  function ScaledBook(b: Book, k: nat): Book {
    b.(positions := ScaledPositions(b.positions, k), sourceUsd := Scaled(b.sourceUsd, k as real))
  }

  lemma ScaledOrder(x: nat, y: nat, k: nat)
    requires k > 0
    ensures x < y <==> x * k < y * k
    ensures x >= y ==> (x - y) * k == x * k - y * k
    ensures x == 0 <==> x * k == 0
  {
  }

  lemma {:induction false} FillsScale(lots: seq<Lot>, qty: nat, k: nat)
    requires k > 0
    ensures Fills(ScaledLots(lots, k), qty * k) == ScaledFills(Fills(lots, qty), k)
    ensures Rest(ScaledLots(lots, k), qty * k) == ScaledLots(Rest(lots, qty), k)
  {
    if qty > 0 && lots != [] {
      ScaledOrder(qty, 0, k);
      ScaledOrder(qty, lots[0].amount, k);
      assert ScaledLots(lots, k)[1..] == ScaledLots(lots[1..], k);
      if qty < lots[0].amount {
        ScaledOrder(lots[0].amount, qty, k);
      } else {
        FillsScale(lots[1..], qty - lots[0].amount, k);
      }
    } else {
      ScaledOrder(qty, 0, k);
    }
  }

  lemma PartScales(l: Lot, used: nat, price: real, k: nat)
    ensures Part(ScaledLot(l, k), used * k, price) == Scaled(Part(l, used, price), k as real)
  {
    var p, u, r := Pow10(l.decimals), used as real, k as real;
    assert (used * k) as real == u * r;
    Quotient(u, p);
    Quotient(u * r, p);
    MulCancel(u * r / p, u / p * r, p);
  }

  lemma {:induction false} PnlScales(fills: seq<Fill>, price: real, k: nat)
    ensures Pnl(ScaledFills(fills, k), price) == Scaled(Pnl(fills, price), k as real)
  {
    if fills != [] {
      assert ScaledFills(fills, k)[1..] == ScaledFills(fills[1..], k);
      PnlScales(fills[1..], price, k);
      PartScales(fills[0].lot, fills[0].used, price, k);
      ScaledAdds(Part(fills[0].lot, fills[0].used, price), Pnl(fills[1..], price), k as real);
    }
  }

  lemma ResultScales(before: real, pnl: real, sol: real, k: real)
    ensures Scaled(before, k) + Scaled(pnl, k) * sol == Scaled(before + pnl * sol, k)
  {
    Distributes(before, pnl * sol, k);
    assert pnl * k * sol == pnl * sol * k;
  }

  lemma PositionsScale(positions: Positions, key: (Wallet, Mint), lots: seq<Lot>, k: nat)
    ensures ScaledPositions(positions[key := lots], k) == ScaledPositions(positions, k)[key := ScaledLots(lots, k)]
    ensures QueueOf(ScaledPositions(positions, k), key) == ScaledLots(QueueOf(positions, key), k)
  {
  }

  lemma BookedScales(f: Follower, sol: real, b: Book, trade: Trade, positions: Positions, pnl: real, from: seq<Lot>,
                     k: nat)
    ensures Booked(f, sol, ScaledBook(b, k), trade.(amount := trade.amount * k), ScaledPositions(positions, k),
                   Scaled(pnl, k as real), from)
         == ScaledBook(Booked(f, sol, b, trade, positions, pnl, from), k)
  {
    ResultScales(b.sourceUsd, pnl, sol, k as real);
  }

  lemma SellScales(f: Follower, sol: real, b: Book, trade: Trade, key: (Wallet, Mint), lots: seq<Lot>, k: nat)
    requires k > 0
    ensures AfterSell(f, sol, ScaledBook(b, k), trade.(amount := trade.amount * k), key, ScaledLots(lots, k))
         == ScaledBook(AfterSell(f, sol, b, trade, key, lots), k)
  {
    var fills, rest := Fills(lots, trade.amount), Rest(lots, trade.amount);
    FillsScale(lots, trade.amount, k);
    PnlScales(fills, trade.price, k);
    assert Origins(ScaledFills(fills, k)) == Origins(fills);
    PositionsScale(b.positions, key, rest, k);
    BookedScales(f, sol, b, trade, b.positions[key := rest], Pnl(fills, trade.price), Origins(fills), k);
  }

  lemma TradeScales(f: Follower, sol: real, b: Book, trade: Trade, i: nat, k: nat)
    requires k > 0
    ensures AfterTrade(f, sol, ScaledBook(b, k), trade.(amount := trade.amount * k), i)
         == ScaledBook(AfterTrade(f, sol, b, trade, i), k)
  {
    var key := (trade.wallet, trade.mint);
    var lots := QueueOf(b.positions, key);
    PositionsScale(b.positions, key, lots, k);
    if IsSell(trade.action) {
      SellScales(f, sol, b, trade, key, lots, k);
    } else if trade.action == Buy {
      assert ScaledLots(lots + [LotOf(trade, i)], k)
          == ScaledLots(lots, k) + [LotOf(trade.(amount := trade.amount * k), i)];
      PositionsScale(b.positions, key, lots + [LotOf(trade, i)], k);
    }
  }

  /** What is reported of the traders is free of scale: had every trade been k times as large, all percentages, the
      number of round trips and the follower's result would be the same, and the source's result k times as large. */
  lemma {:induction false} ScaleFree(f: Follower, sol: real, trades: seq<Trade>, k: nat)
    requires k > 0
    ensures AfterTrades(f, sol, ScaledTrades(trades, k)) == ScaledBook(AfterTrades(f, sol, trades), k)
  {
    if trades != [] {
      var n := |trades| - 1;
      ScaleFree(f, sol, trades[..n], k);
      assert ScaledTrades(trades, k)[..n] == ScaledTrades(trades[..n], k);
      TradeScales(f, sol, AfterTrades(f, sol, trades[..n]), trades[n], n, k);
    }
  }

  // ---------------------------------------------------------------- what the follower makes

  lemma {:induction false} PctsTotal(f: Terms, xs: seq<real>)
    ensures Scaled(Total(Pcts(f, xs)), f.notional) == Total(xs) * 100.0
  {
    if xs != [] {
      var n := |xs| - 1;
      PctsTotal(f, xs[..n]);
      assert Pcts(f, xs)[..n] == Pcts(f, xs[..n]);
      Distributes(Total(Pcts(f, xs[..n])), xs[n] / f.notional * 100.0, f.notional);
      assert xs[n] / f.notional * 100.0 * f.notional == xs[n] * 100.0;
    }
  }

  predicate AddsUp(f: Follower, b: Book) { Scaled(Total(b.copyablePct), f.terms.notional) == b.copyableUsd * 100.0 }

  lemma MoreAddsUp(f: Follower, b: Book, c: Book, copied: seq<real>)
    requires AddsUp(f, b) && c.copyableUsd == b.copyableUsd + Total(copied)
    requires c.copyablePct == b.copyablePct + Pcts(f.terms, copied)
    ensures AddsUp(f, c)
  {
    TotalOfMore(b.copyablePct, Pcts(f.terms, copied));
    PctsTotal(f.terms, copied);
    ScaledAdds(Total(b.copyablePct), Total(Pcts(f.terms, copied)), f.terms.notional);
  }

  /** The follower's result in dollars and the percentages reported for it say the same. */
  lemma {:induction false} PercentagesAddUp(f: Follower, sol: real, trades: seq<Trade>)
    ensures AddsUp(f, AfterTrades(f, sol, trades))
  {
    if trades != [] {
      var n := |trades| - 1;
      var b, trade := AfterTrades(f, sol, trades[..n]), trades[n];
      PercentagesAddUp(f, sol, trades[..n]);
      if IsSell(trade.action) {
        var fills := Fills(QueueOf(b.positions, (trade.wallet, trade.mint)), trade.amount);
        MoreAddsUp(f, b, AfterTrade(f, sol, b, trade, n), CopiedAll(f, Origins(fills), trade.mint, trade.at));
      }
    }
  }

  /** Impact and fees only ever cost: the follower makes no more than the two prices, seen the lag later, differ. */
  lemma FollowerPaysCosts(f: Terms, entry: H.PricePoint, exit: H.PricePoint)
    requires f.notional > 0.0 && f.feeUsd >= 0.0 && forall size, liquidity :: f.impact(size, liquidity) >= 0.0
    requires Trip(f, Some(entry), Some(exit)) != [] && exit.priceUsd >= 0.0
    ensures entry.priceUsd > 0.0
    ensures Trip(f, Some(entry), Some(exit))[0] <= f.notional / entry.priceUsd * exit.priceUsd - f.notional
  {
    var paid, got := FillIn(f, entry), FillOut(f, exit);
    MulMono(entry.priceUsd, 1.0, 1.0 + f.impact(f.notional, entry.liquidityUsd) / 100.0);
    MulMono(exit.priceUsd, 1.0 - f.impact(f.notional, exit.liquidityUsd) / 100.0, 1.0);
    QuotientOrder(f.notional, entry.priceUsd, paid);
    MulMono(f.notional / paid, got, exit.priceUsd);
    MulMono(exit.priceUsd, f.notional / paid, f.notional / entry.priceUsd);
  }

  /** What the follower makes of a round trip: the notional, entered at the first price plus its impact and left at the
      second less its own, less two fees; nothing when a price is missing or not positive. */
  lemma FollowerMeans(f: Terms, entry: H.PricePoint, exit: H.PricePoint)
    ensures var paidPct := 100.0 + f.impact(f.notional, entry.liquidityUsd);
            var keptPct := 100.0 - f.impact(f.notional, exit.liquidityUsd);
            var trip := Trip(f, Some(entry), Some(exit));
            && (trip == [] <==> entry.priceUsd <= 0.0 || paidPct <= 0.0)
            && (trip != [] ==>
                  |trip| == 1
                  && Scaled(Scaled(trip[0] + f.notional + 2.0 * f.feeUsd, entry.priceUsd), paidPct)
                     == Scaled(Scaled(f.notional, exit.priceUsd), keptPct))
  {
    var paid, kept := 1.0 + f.impact(f.notional, entry.liquidityUsd) / 100.0,
                      1.0 - f.impact(f.notional, exit.liquidityUsd) / 100.0;
    if entry.priceUsd > 0.0 {
      if paid <= 0.0 { MulMono(entry.priceUsd, paid, 0.0); } else { MulLess(0.0, paid, entry.priceUsd); }
      if paid > 0.0 { EntryTimesPaid(f.notional, entry.priceUsd, paid, exit.priceUsd, kept); }
    }
  }

  lemma EntryTimesPaid(notional: real, entry: real, paid: real, exit: real, kept: real)
    requires entry * paid > 0.0
    ensures Scaled(Scaled(notional / (entry * paid) * (exit * kept), entry), 100.0 * paid)
         == Scaled(Scaled(notional, exit), 100.0 * kept)
  {
    var units := notional / (entry * paid);
    Quotient(notional, entry * paid);
    assert units * (exit * kept) * entry * (100.0 * paid) == units * (entry * paid) * exit * (100.0 * kept);
  }

  // ---------------------------------------------------------------- how far it looks ahead

  function On(f: Terms, raw: H.Histories): Follower { Follower(H.LoadAll(raw), f) }

  /** Two followers on the same terms who see the same up to t. */
  ghost predicate SeeAlike(f: Follower, g: Follower, t: Time) {
    f.terms == g.terms && forall m: Mint, when: Time :: when <= t ==> Lookup(f, m, when) == Lookup(g, m, when)
  }

  lemma AgreeingSeeAlike(f: Terms, hs: H.Histories, ks: H.Histories, t: Time)
    requires H.AgreeUpTo(hs, ks, t)
    ensures SeeAlike(On(f, hs), On(f, ks), t)
  {
    forall m: Mint, when: Time | when <= t ensures Lookup(On(f, hs), m, when) == Lookup(On(f, ks), m, when) {
      if m in hs {
        assert H.SamePast(hs[m], ks[m], t);
        H.LookupsAgree(hs[m].points, ks[m].points, t, when);
      }
    }
  }

  lemma CopyAgrees(f: Follower, g: Follower, t: Time, m: Mint, openedAt: Time, closedAt: Time)
    requires SeeAlike(f, g, t) && openedAt + f.terms.lag <= t && closedAt + f.terms.lag <= t
    ensures Copied(f, m, openedAt, closedAt) == Copied(g, m, openedAt, closedAt)
  {
    assert Lookup(f, m, openedAt + f.terms.lag) == Lookup(g, m, openedAt + f.terms.lag);
    assert Lookup(f, m, closedAt + f.terms.lag) == Lookup(g, m, closedAt + f.terms.lag);
  }

  lemma CopiesAgree(f: Follower, g: Follower, t: Time, lots: seq<Lot>, m: Mint, at: Time)
    requires SeeAlike(f, g, t) && at + f.terms.lag <= t
    requires forall i :: 0 <= i < |lots| ==> lots[i].at + f.terms.lag <= t
    ensures CopiedAll(f, lots, m, at) == CopiedAll(g, lots, m, at)
  {
    forall k | 0 <= k < |lots| ensures Copied(f, m, lots[k].at, at) == Copied(g, m, lots[k].at, at) {
      CopyAgrees(f, g, t, m, lots[k].at, at);
    }
    assert CopiedEach(f, lots, m, at) == CopiedEach(g, lots, m, at);
  }

  /** Every lot of every queue was bought by then. */
  ghost predicate BoughtBy(positions: Positions, t: Time) {
    forall key, i :: key in positions && 0 <= i < |positions[key]| ==> positions[key][i].at <= t
  }

  lemma {:induction false} RestBy(lots: seq<Lot>, qty: nat, t: Time)
    requires forall i :: 0 <= i < |lots| ==> lots[i].at <= t
    ensures forall i :: 0 <= i < |Rest(lots, qty)| ==> Rest(lots, qty)[i].at <= t
    ensures forall i :: 0 <= i < |Fills(lots, qty)| ==> Fills(lots, qty)[i].lot.at <= t
  {
    if qty > 0 && lots != [] && qty >= lots[0].amount { RestBy(lots[1..], qty - lots[0].amount, t); }
  }

  ghost predicate TradedBy(trades: seq<Trade>, t: Time) {
    forall i :: 0 <= i < |trades| ==> trades[i].at <= t
  }

  lemma TradeBy(f: Follower, sol: real, b: Book, trade: Trade, i: nat, t: Time)
    requires BoughtBy(b.positions, t) && trade.at <= t
    ensures BoughtBy(AfterTrade(f, sol, b, trade, i).positions, t)
  {
    var lots := QueueOf(b.positions, (trade.wallet, trade.mint));
    RestBy(lots, trade.amount, t);
  }

  lemma TradeAgrees(f: Follower, g: Follower, sol: real, t: Time, b: Book, trade: Trade, i: nat)
    requires SeeAlike(f, g, t + f.terms.lag) && BoughtBy(b.positions, t) && trade.at <= t
    ensures AfterTrade(f, sol, b, trade, i) == AfterTrade(g, sol, b, trade, i)
  {
    if IsSell(trade.action) {
      var lots := QueueOf(b.positions, (trade.wallet, trade.mint));
      RestBy(lots, trade.amount, t);
      CopiesAgree(f, g, t + f.terms.lag, Origins(Fills(lots, trade.amount)), trade.mint, trade.at);
    }
  }

  lemma {:induction false} BooksAgree(f: Follower, g: Follower, sol: real, t: Time, trades: seq<Trade>)
    requires SeeAlike(f, g, t + f.terms.lag) && TradedBy(trades, t)
    ensures AfterTrades(f, sol, trades) == AfterTrades(g, sol, trades)
    ensures BoughtBy(AfterTrades(f, sol, trades).positions, t)
  {
    if trades != [] {
      var n := |trades| - 1;
      assert TradedBy(trades[..n], t);
      BooksAgree(f, g, sol, t, trades[..n]);
      TradeAgrees(f, g, sol, t, AfterTrades(f, sol, trades[..n]), trades[n], n);
      TradeBy(f, sol, AfterTrades(f, sol, trades[..n]), trades[n], n, t);
    }
  }

  /** What is booked by the time t has seen the prices up to the lag after t, and nothing later. */
  lemma SeesTheLag(f: Terms, sol: real, hs: H.Histories, ks: H.Histories, t: Time, trades: seq<Trade>)
    requires H.AgreeUpTo(hs, ks, t + f.lag) && TradedBy(trades, t)
    ensures AfterTrades(On(f, hs), sol, trades) == AfterTrades(On(f, ks), sol, trades)
  {
    AgreeingSeeAlike(f, hs, ks, t + f.lag);
    BooksAgree(On(f, hs), On(f, ks), sol, t, trades);
  }

  /** Histories that agree up to t give the same book to everything traded by t. */
  ghost predicate BookedBlind(f: Terms, sol: real, hs: H.Histories, ks: H.Histories, t: Time, trades: seq<Trade>) {
    H.AgreeUpTo(hs, ks, t) && TradedBy(trades, t) ==>
      AfterTrades(On(f, hs), sol, trades) == AfterTrades(On(f, ks), sol, trades)
  }

  ghost predicate BlindWithLag(lag: Time) {
    forall f: Terms, sol: real, hs: H.Histories, ks: H.Histories, t: Time, trades: seq<Trade> ::
      f.lag == lag ==> BookedBlind(f, sol, hs, ks, t, trades)
  }

  lemma AgreeEarlier(hs: H.Histories, ks: H.Histories, t: Time, earlier: Time)
    requires H.AgreeUpTo(hs, ks, t) && earlier <= t
    ensures H.AgreeUpTo(hs, ks, earlier)
  {
    forall m | m in hs ensures H.SamePast(hs[m], ks[m], earlier) {
      assert H.SamePast(hs[m], ks[m], t);
      UptoTwice(hs[m].points, H.Moment, t, earlier);
      UptoTwice(ks[m].points, H.Moment, t, earlier);
    }
  }

  const COIN: Mint := "coin"

  /** A token at 1.0 after one lag and at `last` after two. */
  function TwoPrices(lag: Time, last: real): H.Histories {
    map[COIN := H.TokenHistory([H.PricePoint(lag, 1.0, 0.0), H.PricePoint(2 * lag, last, 0.0)], 9, None, 15, None)]
  }

  /** Bought at the start, sold one lag later. */
  function BuyAndSell(wallet: Wallet, lag: Time): seq<Trade> {
    [Trade(wallet, COIN, Buy, 1.0, 1, 9, 0), Trade(wallet, COIN, Sell, 1.0, 1, 9, lag)]
  }

  function Frictionless(lag: Time): Terms { Terms(lag, 100.0, (size, liquidity) => 0.0, 0.0) }

  lemma TwoPricesSorted(a: H.PricePoint, b: H.PricePoint)
    requires a.at < b.at
    ensures Sort([a, b], H.Moment) == [a, b] && H.At([a, b], a.at) == Some(a) && H.At([a, b], b.at) == Some(b)
    ensures H.Seen([a, b], a.at) == [a]
  {
    assert [a, b][..1] == [a] && [a][..0] == [];
    assert Sort([a], H.Moment) == [a];
    assert Upto([a], H.Moment, a.at) == [a];
    assert H.BisectRight([a], a.at) == 1;
  }

  lemma TwoPricesSeen(lag: Time, last: real)
    requires lag > 0
    ensures var f := On(Frictionless(lag), TwoPrices(lag, last));
            && Lookup(f, COIN, lag) == Some(H.PricePoint(lag, 1.0, 0.0))
            && Lookup(f, COIN, 2 * lag) == Some(H.PricePoint(2 * lag, last, 0.0))
    ensures H.Seen(TwoPrices(lag, last)[COIN].points, lag) == [H.PricePoint(lag, 1.0, 0.0)]
  {
    TwoPricesSorted(H.PricePoint(lag, 1.0, 0.0), H.PricePoint(2 * lag, last, 0.0));
  }

  /** What a round trip that ends one lag after it began brings a follower who pays no costs. */
  lemma CopiedCase(f: Follower, lag: Time, last: real)
    requires f.terms == Frictionless(lag) && Lookup(f, COIN, lag) == Some(H.PricePoint(lag, 1.0, 0.0))
    requires Lookup(f, COIN, 2 * lag) == Some(H.PricePoint(2 * lag, last, 0.0))
    ensures Copied(f, COIN, 0, lag) == [100.0 * last - 100.0]
  {
  }

  lemma OneTrip(f: Follower, wallet: Wallet, lag: Time)
    ensures AfterTrades(f, 1.0, BuyAndSell(wallet, lag)).copyableUsd == Total(Copied(f, COIN, 0, lag))
  {
    var trades := BuyAndSell(wallet, lag);
    assert trades[..1] == [trades[0]] && trades[..1][..0] == [];
    var lot := LotOf(trades[0], 0);
    var bought := AfterTrade(f, 1.0, EMPTY, trades[0], 0);
    assert QueueOf(bought.positions, (wallet, COIN)) == [lot];
    assert AfterTrades(f, 1.0, trades[..1]) == bought;
    assert AfterTrades(f, 1.0, trades) == AfterTrade(f, 1.0, bought, trades[1], 1);
    OneFill(f, lot, lag);
  }

  lemma OneFill(f: Follower, lot: Lot, at: Time)
    requires lot.amount == 1
    ensures CopiedAll(f, Origins(Fills([lot], 1)), COIN, at) == Copied(f, COIN, lot.at, at)
  {
    assert Fills([lot], 1) == [Fill(lot, 1)];
    assert Origins([Fill(lot, 1)]) == [Origin(lot)];
    var each := CopiedEach(f, [Origin(lot)], COIN, at);
    assert each == [Copied(f, COIN, lot.at, at)] && each[..0] == [];
    assert Flat(each[..0]) == [] && Flat(each) == [] + each[0];
  }

  /** What is booked at the end of a round trip is the price one lag after its end. */
  lemma BookedAfterwards(wallet: Wallet, lag: Time, last: real)
    requires lag > 0
    ensures AfterTrades(On(Frictionless(lag), TwoPrices(lag, last)), 1.0, BuyAndSell(wallet, lag)).copyableUsd
         == 100.0 * last - 100.0
  {
    var f := On(Frictionless(lag), TwoPrices(lag, last));
    TwoPricesSeen(lag, last);
    CopiedCase(f, lag, last);
    OneTrip(f, wallet, lag);
    TotalOfMore([], Copied(f, COIN, 0, lag));
  }

  lemma TwoPricesAgree(lag: Time)
    requires lag > 0
    ensures H.AgreeUpTo(TwoPrices(lag, 2.0), TwoPrices(lag, 0.5), lag)
  {
    TwoPricesSeen(lag, 2.0);
    TwoPricesSeen(lag, 0.5);
  }

  lemma LagLooksAhead(lag: Time)
    requires lag > 0
    ensures !BookedBlind(Frictionless(lag), 1.0, TwoPrices(lag, 2.0), TwoPrices(lag, 0.5), lag, BuyAndSell("", lag))
  {
    TwoPricesAgree(lag);
    BookedAfterwards("", lag, 2.0);
    BookedAfterwards("", lag, 0.5);
  }

  /** A sale is booked when it happens, and the follower's result needs prices that are seen only later, exactly
      when the lag is positive. */
  lemma LooksAheadExactlyWhen(lag: Time)
    ensures BlindWithLag(lag) <==> lag <= 0
  {
    if lag <= 0 {
      forall f: Terms, sol: real, hs: H.Histories, ks: H.Histories, t: Time, trades: seq<Trade> | f.lag == lag
        ensures BookedBlind(f, sol, hs, ks, t, trades)
      {
        if H.AgreeUpTo(hs, ks, t) && TradedBy(trades, t) {
          AgreeEarlier(hs, ks, t, t + lag);
          SeesTheLag(f, sol, hs, ks, t, trades);
        }
      }
    } else {
      LagLooksAhead(lag);
    }
  }
}
