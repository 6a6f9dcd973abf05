/** FIFO matching of sells against earlier buys, as _pair_round_trips does it
    (src/asm/services/tasks/intelligence.py); SourceTrips uses the same queue. */
module Lots {
  import opened Numeric
  import opened Domain

  datatype Action = Buy | Sell | PartialSell | Other

  datatype Trade = Trade(wallet: Wallet, mint: Mint, action: Action, price: real,
                         amount: nat, decimals: nat, at: Time)

  /** What is left of one buy; `buy` is its place in the list of trades. */
  datatype Lot = Lot(buy: nat, price: real, amount: nat, decimals: nat, at: Time)

  /** A sell taking `used` from a lot. */
  datatype Fill = Fill(lot: Lot, used: nat)

  function LotOf(trade: Trade, i: nat): Lot {
    Lot(i, trade.price, trade.amount, trade.decimals, trade.at)
  }

  predicate IsSell(a: Action) { a == Sell || a == PartialSell }

  function Sum(lots: seq<Lot>): nat { if lots == [] then 0 else lots[0].amount + Sum(lots[1..]) }

  /** The queue after selling `qty` from its head. */
  function Rest(lots: seq<Lot>, qty: nat): seq<Lot> {
    if qty == 0 || lots == [] then lots
    else if qty < lots[0].amount then [lots[0].(amount := lots[0].amount - qty)] + lots[1..]
    else Rest(lots[1..], qty - lots[0].amount)
  }

  function Fills(lots: seq<Lot>, qty: nat): seq<Fill> {
    if qty == 0 || lots == [] then []
    else if qty < lots[0].amount then [Fill(lots[0], qty)]
    else [Fill(lots[0], lots[0].amount)] + Fills(lots[1..], qty - lots[0].amount)
  }

  /** The shared loop: shrink the head lot, pop it when empty, until the sell or the queue ends. */
  method SellFifo(queue: seq<Lot>, qty: nat) returns (lots: seq<Lot>, fills: seq<Fill>)
    ensures lots == Rest(queue, qty) && fills == Fills(queue, qty)
  {
    lots, fills := queue, [];
    var remaining := qty;
    while remaining > 0 && lots != []
      invariant Rest(lots, remaining) == Rest(queue, qty)
      invariant fills + Fills(lots, remaining) == Fills(queue, qty)
      decreases |lots| + remaining
    {
      var used := MinNat(remaining, lots[0].amount);
      fills := fills + [Fill(lots[0], used)];
      if used == lots[0].amount {
        lots := lots[1..];
      } else {
        lots := [lots[0].(amount := lots[0].amount - used)] + lots[1..];
      }
      remaining := remaining - used;
    }
    assert Fills(lots, remaining) == [];
  }

  // ---------------------------------------------------------------- splitting a sell

  /** Popping an exhausted head. */
  lemma PopHead(lots: seq<Lot>, qty: nat)
    requires lots != [] && qty > 0 && qty >= lots[0].amount
    ensures Rest(lots, qty) == Rest(lots[1..], qty - lots[0].amount)
    ensures MinNat(qty, Sum(lots)) == lots[0].amount + MinNat(qty - lots[0].amount, Sum(lots[1..]))
  {
  }

  lemma RestSplitsHead(lots: seq<Lot>, a: nat, b: nat)
    requires lots != [] && 0 < a < lots[0].amount
    ensures Rest(Rest(lots, a), b) == Rest(lots, a + b)
  {
    var shrunk := [lots[0].(amount := lots[0].amount - a)] + lots[1..];
    assert Rest(lots, a) == shrunk && shrunk[1..] == lots[1..];
  }

  lemma {:induction false} RestSplits(lots: seq<Lot>, a: nat, b: nat)
    ensures Rest(Rest(lots, a), b) == Rest(lots, a + b)
    decreases |lots|
  {
    if a > 0 && lots != [] {
      if a < lots[0].amount {
        RestSplitsHead(lots, a, b);
      } else {
        PopHead(lots, a);
        PopHead(lots, a + b);
        RestSplits(lots[1..], a - lots[0].amount, b);
      }
    }
  }

  // ---------------------------------------------------------------- cumulative intervals

  predicate Buys(trades: seq<Trade>, m: Mint, i: nat)
    requires i < |trades|
  {
    trades[i].price > 0.0 && trades[i].action == Buy && trades[i].mint == m
  }

  predicate Sells(trades: seq<Trade>, m: Mint, j: nat)
    requires j < |trades|
  {
    trades[j].price > 0.0 && IsSell(trades[j].action) && trades[j].mint == m
  }

  /** Units of a mint bought before trade i. */
  function Bought(trades: seq<Trade>, m: Mint, i: nat): nat
    requires i <= |trades|
  {
    if i == 0 then 0
    else Bought(trades, m, i - 1) + if Buys(trades, m, i - 1) then trades[i - 1].amount else 0
  }

  /** Units sold before trade j, each sell cut to what was available. */
  function Sold(trades: seq<Trade>, m: Mint, j: nat): nat
    requires j <= |trades|
  {
    if j == 0 then 0
    else if Sells(trades, m, j - 1)
         then MinNat(Sold(trades, m, j - 1) + trades[j - 1].amount, Bought(trades, m, j - 1))
         else Sold(trades, m, j - 1)
  }

  /** The length two half-open intervals share. */
  function Overlap(a: int, b: int, c: int, d: int): nat {
    var lo := if a >= c then a else c;
    var hi := if b <= d then b else d;
    if hi > lo then hi - lo else 0
  }

  /** What sell j takes from buy i: the overlap of their cumulative intervals. */
  function Matched(trades: seq<Trade>, m: Mint, i: nat, j: nat): nat
    requires i < |trades| && j < |trades|
  {
    Overlap(Bought(trades, m, i), Bought(trades, m, i + 1), Sold(trades, m, j), Sold(trades, m, j + 1))
  }

  lemma {:induction false} BoughtMonotone(trades: seq<Trade>, m: Mint, i: nat, k: nat)
    requires i <= k <= |trades|
    ensures Bought(trades, m, i) <= Bought(trades, m, k)
  {
    if i < k { BoughtMonotone(trades, m, i, k - 1); }
  }

  /** The points between the buys' intervals: buy i occupies [marks[i], marks[i + 1]). */
  ghost function Marks(trades: seq<Trade>, m: Mint): (marks: seq<nat>)
    ensures |marks| == |trades| + 1
    ensures forall i :: 0 <= i <= |trades| ==> marks[i] == Bought(trades, m, i)
  {
    seq(|trades| + 1, i requires 0 <= i <= |trades| => Bought(trades, m, i))
  }

  /** A lot is the part of its buy's interval from s on. */
  predicate Covers(marks: seq<nat>, t: nat, l: Lot, s: nat) {
    l.buy < t < |marks| && marks[l.buy] <= s && s + l.amount == marks[l.buy + 1]
  }

  /** Whole buys, end to end from s to everything bought so far. */
  predicate Whole(marks: seq<nat>, t: nat, lots: seq<Lot>, s: nat)
    requires t < |marks|
  {
    if lots == [] then s == marks[t]
    else Covers(marks, t, lots[0], s) && marks[lots[0].buy] == s
         && Whole(marks, t, lots[1..], s + lots[0].amount)
  }

  /** The queue tiles what is bought and not yet sold: the head may have been sold in part. */
  predicate Tiles(marks: seq<nat>, t: nat, lots: seq<Lot>, s: nat)
    requires t < |marks|
  {
    if lots == [] then s == marks[t]
    else Covers(marks, t, lots[0], s) && Whole(marks, t, lots[1..], s + lots[0].amount)
  }

  predicate Increasing(lots: seq<Lot>) {
    forall p, q :: 0 <= p < q < |lots| ==> lots[p].buy < lots[q].buy
  }

  predicate Queued(lots: seq<Lot>, i: nat) {
    exists p :: 0 <= p < |lots| && lots[p].buy == i
  }

  lemma {:induction false} WholeStarts(marks: seq<nat>, t: nat, lots: seq<Lot>, s: nat, i: nat)
    requires t < |marks| && Whole(marks, t, lots, s) && Queued(lots, i)
    ensures i < t && marks[i] >= s
  {
    var p :| 0 <= p < |lots| && lots[p].buy == i;
    if p > 0 {
      assert lots[1..][p - 1].buy == i;
      WholeStarts(marks, t, lots[1..], s + lots[0].amount, i);
    }
  }

  lemma {:induction false} WholeSum(marks: seq<nat>, t: nat, lots: seq<Lot>, s: nat)
    requires t < |marks| && Whole(marks, t, lots, s)
    ensures s + Sum(lots) == marks[t]
  {
    if lots != [] { WholeSum(marks, t, lots[1..], s + lots[0].amount); }
  }

  lemma TilesSum(marks: seq<nat>, t: nat, lots: seq<Lot>, s: nat)
    requires t < |marks| && Tiles(marks, t, lots, s)
    ensures s + Sum(lots) == marks[t]
  {
    if lots != [] { WholeSum(marks, t, lots[1..], s + lots[0].amount); }
  }

  lemma {:induction false} RestTiles(marks: seq<nat>, t: nat, lots: seq<Lot>, s: nat, qty: nat)
    requires t < |marks| && Tiles(marks, t, lots, s)
    ensures Tiles(marks, t, Rest(lots, qty), s + MinNat(qty, Sum(lots)))
    decreases |lots|, 0
  {
    if qty > 0 && lots != [] {
      if qty >= lots[0].amount {
        RestTilesBehind(marks, t, lots[1..], s + lots[0].amount, qty - lots[0].amount);
        PoppedTiles(marks, t, lots, s, qty);
      } else {
        ShrunkTiles(marks, t, lots, s, qty);
      }
    }
  }

  lemma PoppedTiles(marks: seq<nat>, t: nat, lots: seq<Lot>, s: nat, qty: nat)
    requires t < |marks| && lots != [] && 0 < qty && lots[0].amount <= qty
    requires var left := qty - lots[0].amount;
             Tiles(marks, t, Rest(lots[1..], left), s + lots[0].amount + MinNat(left, Sum(lots[1..])))
    ensures Tiles(marks, t, Rest(lots, qty), s + MinNat(qty, Sum(lots)))
  {
    PopHead(lots, qty);
  }

  lemma RestTilesBehind(marks: seq<nat>, t: nat, lots: seq<Lot>, s: nat, qty: nat)
    requires t < |marks| && Whole(marks, t, lots, s)
    ensures Tiles(marks, t, Rest(lots, qty), s + MinNat(qty, Sum(lots)))
    decreases |lots|, 1
  {
    WholeIsTiles(marks, t, lots, s);
    RestTiles(marks, t, lots, s, qty);
  }

  lemma WholeIsTiles(marks: seq<nat>, t: nat, lots: seq<Lot>, s: nat)
    requires t < |marks| && Whole(marks, t, lots, s)
    ensures Tiles(marks, t, lots, s)
  {
  }

  lemma ShrunkTiles(marks: seq<nat>, t: nat, lots: seq<Lot>, s: nat, qty: nat)
    requires t < |marks| && Tiles(marks, t, lots, s) && lots != [] && 0 < qty < lots[0].amount
    ensures Tiles(marks, t, Rest(lots, qty), s + qty) && MinNat(qty, Sum(lots)) == qty
  {
    var shrunk := [lots[0].(amount := lots[0].amount - qty)] + lots[1..];
    assert Rest(lots, qty) == shrunk && shrunk[1..] == lots[1..];
  }

  lemma {:induction false} RestIncreasing(lots: seq<Lot>, qty: nat)
    requires Increasing(lots)
    ensures Increasing(Rest(lots, qty))
  {
    if qty > 0 && lots != [] && qty >= lots[0].amount { RestIncreasing(lots[1..], qty - lots[0].amount); }
  }

  lemma {:induction false} RestCompletes(marks: seq<nat>, t: nat, lots: seq<Lot>, s: nat, qty: nat, i: nat)
    requires t < |marks| && Tiles(marks, t, lots, s) && Queued(lots, i) && i < t
    ensures Queued(Rest(lots, qty), i) || marks[i + 1] <= s + MinNat(qty, Sum(lots))
  {
    var p :| 0 <= p < |lots| && lots[p].buy == i;
    if qty > 0 {
      if qty < lots[0].amount {
        assert Rest(lots, qty)[p].buy == i;
      } else if p > 0 {
        assert lots[1..][p - 1].buy == i;
        RestCompletes(marks, t, lots[1..], s + lots[0].amount, qty - lots[0].amount, i);
      }
    }
  }

  lemma {:induction false} WholeAppend(marks: seq<nat>, t: nat, lots: seq<Lot>, s: nat, l: Lot)
    requires t + 1 < |marks| && Whole(marks, t, lots, s)
    requires l.buy == t && marks[t] + l.amount == marks[t + 1]
    ensures Whole(marks, t + 1, lots + [l], s)
  {
    if lots == [] {
      assert lots + [l] == [l];
    } else {
      WholeAppend(marks, t, lots[1..], s + lots[0].amount, l);
      assert (lots + [l])[1..] == lots[1..] + [l];
    }
  }

  lemma TilesAppend(marks: seq<nat>, t: nat, lots: seq<Lot>, s: nat, l: Lot)
    requires t + 1 < |marks| && Tiles(marks, t, lots, s)
    requires l.buy == t && marks[t] + l.amount == marks[t + 1]
    ensures Tiles(marks, t + 1, lots + [l], s)
  {
    if lots == [] {
      assert lots + [l] == [l];
    } else {
      WholeAppend(marks, t, lots[1..], s + lots[0].amount, l);
      assert (lots + [l])[1..] == lots[1..] + [l];
    }
  }

  lemma {:induction false} WholeLater(marks: seq<nat>, t: nat, lots: seq<Lot>, s: nat)
    requires t + 1 < |marks| && Whole(marks, t, lots, s) && marks[t + 1] == marks[t]
    ensures Whole(marks, t + 1, lots, s)
  {
    if lots != [] { WholeLater(marks, t, lots[1..], s + lots[0].amount); }
  }

  lemma TilesLater(marks: seq<nat>, t: nat, lots: seq<Lot>, s: nat)
    requires t + 1 < |marks| && Tiles(marks, t, lots, s) && marks[t + 1] == marks[t]
    ensures Tiles(marks, t + 1, lots, s)
  {
    if lots != [] { WholeLater(marks, t, lots[1..], s + lots[0].amount); }
  }

  /** What the fills of one sell take from buy i. */
  function Taken(fills: seq<Fill>, i: nat): nat {
    if fills == [] then 0 else (if fills[0].lot.buy == i then fills[0].used else 0) + Taken(fills[1..], i)
  }

  lemma TakenFrom(lots: seq<Lot>, qty: nat, i: nat)
    requires qty > 0 && lots != []
    ensures Taken(Fills(lots, qty), i)
         == (if lots[0].buy == i then MinNat(qty, lots[0].amount) else 0)
            + (if qty < lots[0].amount then 0 else Taken(Fills(lots[1..], qty - lots[0].amount), i))
  {
    if qty >= lots[0].amount {
      var tail := Fills(lots[1..], qty - lots[0].amount);
      assert ([Fill(lots[0], lots[0].amount)] + tail)[1..] == tail;
    }
  }

  /** Buys behind the head start where the head ends. */
  lemma BehindHead(marks: seq<nat>, t: nat, lots: seq<Lot>, s: nat, i: nat)
    requires t < |marks| && Tiles(marks, t, lots, s) && Queued(lots, i) && lots[0].buy != i
    ensures Queued(lots[1..], i) && i < t && marks[i] >= s + lots[0].amount
  {
    var p :| 0 <= p < |lots| && lots[p].buy == i;
    assert lots[1..][p - 1].buy == i;
    WholeStarts(marks, t, lots[1..], s + lots[0].amount, i);
  }

  /** A buy that ends where the head ends and starts no later than s. */
  lemma OverlapHead(a: int, s: int, amount: nat, qty: nat, behind: nat, later: int)
    requires a <= s
    ensures Overlap(a, s + amount, s, s + MinNat(qty, amount + behind)) == MinNat(qty, amount)
    ensures Overlap(a, s + amount, s + amount, later) == 0
  {
  }

  /** A buy outside the head: entirely behind it, or not there any more. */
  lemma OverlapElsewhere(a: int, b: int, s: int, amount: nat, qty: nat, behind: nat)
    requires a <= b && (a >= s + amount || b <= s)
    ensures Overlap(a, b, s, s + MinNat(qty, amount + behind))
         == if qty < amount then 0
            else Overlap(a, b, s + amount, s + amount + MinNat(qty - amount, behind))
  {
  }

  lemma {:induction false} FillsOverlap(marks: seq<nat>, t: nat, lots: seq<Lot>, s: nat, qty: nat, i: nat)
    requires t < |marks| && i + 1 < |marks| && Tiles(marks, t, lots, s) && marks[i] <= marks[i + 1]
    requires Queued(lots, i) || marks[i + 1] <= s || marks[i] >= marks[t]
    ensures Taken(Fills(lots, qty), i) == Overlap(marks[i], marks[i + 1], s, s + MinNat(qty, Sum(lots)))
    decreases |lots|, 0
  {
    if qty > 0 && lots != [] {
      TakenFrom(lots, qty, i);
      HeadOverlap(marks, t, lots, s, qty, i);
      if qty >= lots[0].amount { TailOverlap(marks, t, lots, s, qty - lots[0].amount, i); }
    }
  }

  lemma TailOverlap(marks: seq<nat>, t: nat, lots: seq<Lot>, s: nat, left: nat, i: nat)
    requires t < |marks| && i + 1 < |marks| && Tiles(marks, t, lots, s) && marks[i] <= marks[i + 1] && lots != []
    requires Queued(lots, i) || marks[i + 1] <= s || marks[i] >= marks[t]
    ensures var tail, behind := lots[1..], s + lots[0].amount;
            Taken(Fills(tail, left), i)
            == Overlap(marks[i], marks[i + 1], behind, behind + MinNat(left, Sum(tail)))
    decreases |lots| - 1, 1
  {
    TailStands(marks, t, lots, s, i);
    FillsOverlap(marks, t, lots[1..], s + lots[0].amount, left, i);
  }

  /** Behind the head a buy stands as it did before: queued, sold or yet to come. */
  lemma TailStands(marks: seq<nat>, t: nat, lots: seq<Lot>, s: nat, i: nat)
    requires t < |marks| && i + 1 < |marks| && Tiles(marks, t, lots, s) && lots != []
    requires Queued(lots, i) || marks[i + 1] <= s || marks[i] >= marks[t]
    ensures Tiles(marks, t, lots[1..], s + lots[0].amount)
    ensures Queued(lots[1..], i) || marks[i + 1] <= s + lots[0].amount || marks[i] >= marks[t]
  {
    WholeIsTiles(marks, t, lots[1..], s + lots[0].amount);
    if Queued(lots, i) && lots[0].buy != i { BehindHead(marks, t, lots, s, i); }
  }

  /** What the head contributes to an overlap, and what is left for the lots behind it. */
  lemma HeadOverlap(marks: seq<nat>, t: nat, lots: seq<Lot>, s: nat, qty: nat, i: nat)
    requires t < |marks| && i + 1 < |marks| && Tiles(marks, t, lots, s) && marks[i] <= marks[i + 1]
    requires Queued(lots, i) || marks[i + 1] <= s || marks[i] >= marks[t]
    requires qty > 0 && lots != []
    ensures var amount, behind := lots[0].amount, Sum(lots[1..]);
            Overlap(marks[i], marks[i + 1], s, s + MinNat(qty, Sum(lots)))
            == (if lots[0].buy == i then MinNat(qty, amount) else 0)
               + (if qty < amount then 0
                  else Overlap(marks[i], marks[i + 1], s + amount, s + amount + MinNat(qty - amount, behind)))
  {
    TilesSum(marks, t, lots, s);
    var amount, behind := lots[0].amount, Sum(lots[1..]);
    if i == lots[0].buy {
      var later := s + amount + MinNat(if qty < amount then 0 else qty - amount, behind);
      OverlapHead(marks[i], s, amount, qty, behind, later);
    } else {
      if Queued(lots, i) { BehindHead(marks, t, lots, s, i); }
      OverlapElsewhere(marks[i], marks[i + 1], s, amount, qty, behind);
    }
  }

  // ---------------------------------------------------------------- a queue over the trades

  /** The lot is a copy of an earlier buy of the mint, up to what was sold from it. */
  predicate CopyOf(trades: seq<Trade>, m: Mint, t: nat, l: Lot) {
    t <= |trades| && l.buy < t && Buys(trades, m, l.buy)
    && l == LotOf(trades[l.buy], l.buy).(amount := l.amount)
  }

  /** The state of one mint's queue after t trades. */
  ghost predicate QueueOk(trades: seq<Trade>, m: Mint, t: nat, lots: seq<Lot>) {
    && t <= |trades| && Tiles(Marks(trades, m), t, lots, Sold(trades, m, t)) && Increasing(lots)
    && (forall p :: 0 <= p < |lots| ==> CopyOf(trades, m, t, lots[p]))
    && (forall i :: 0 <= i < t && Buys(trades, m, i) ==>
         Queued(lots, i) || Bought(trades, m, i + 1) <= Sold(trades, m, t))
  }

  lemma BuyKeepsQueue(trades: seq<Trade>, m: Mint, t: nat, lots: seq<Lot>)
    requires t < |trades| && QueueOk(trades, m, t, lots) && Buys(trades, m, t)
    ensures QueueOk(trades, m, t + 1, lots + [LotOf(trades[t], t)])
  {
    var l := LotOf(trades[t], t);
    TilesAppend(Marks(trades, m), t, lots, Sold(trades, m, t), l);
    forall p | 0 <= p < |lots| ensures lots[p].buy < t { assert CopyOf(trades, m, t, lots[p]); }
    forall i | 0 <= i < t + 1 && Buys(trades, m, i)
      ensures Queued(lots + [l], i) || Bought(trades, m, i + 1) <= Sold(trades, m, t + 1)
    {
      if i == t { assert (lots + [l])[|lots|].buy == i; }
      else if Queued(lots, i) {
        var p :| 0 <= p < |lots| && lots[p].buy == i;
        assert (lots + [l])[p].buy == i;
      }
    }
  }

  lemma {:induction false} RestCopies(trades: seq<Trade>, m: Mint, t: nat, lots: seq<Lot>, qty: nat)
    requires forall p :: 0 <= p < |lots| ==> CopyOf(trades, m, t, lots[p])
    ensures forall p :: 0 <= p < |Rest(lots, qty)| ==> CopyOf(trades, m, t, Rest(lots, qty)[p])
  {
    if qty > 0 && lots != [] && qty >= lots[0].amount { RestCopies(trades, m, t, lots[1..], qty - lots[0].amount); }
  }

  lemma MarkedSell(marks: seq<nat>, t: nat, lots: seq<Lot>, s: nat, qty: nat)
    requires t + 1 < |marks| && Tiles(marks, t, lots, s) && marks[t + 1] == marks[t]
    ensures Tiles(marks, t + 1, Rest(lots, qty), s + MinNat(qty, Sum(lots))) && s + Sum(lots) == marks[t]
  {
    TilesSum(marks, t, lots, s);
    RestTiles(marks, t, lots, s, qty);
    TilesLater(marks, t, Rest(lots, qty), s + MinNat(qty, Sum(lots)));
  }

  lemma SellTiles(trades: seq<Trade>, m: Mint, t: nat, lots: seq<Lot>)
    requires t < |trades| && Sells(trades, m, t) && Tiles(Marks(trades, m), t, lots, Sold(trades, m, t))
    ensures Tiles(Marks(trades, m), t + 1, Rest(lots, trades[t].amount), Sold(trades, m, t + 1))
    ensures Sold(trades, m, t + 1) == Sold(trades, m, t) + MinNat(trades[t].amount, Sum(lots))
  {
    MarkedSell(Marks(trades, m), t, lots, Sold(trades, m, t), trades[t].amount);
  }

  lemma SellCompletes(trades: seq<Trade>, m: Mint, t: nat, lots: seq<Lot>, i: nat)
    requires t < |trades| && QueueOk(trades, m, t, lots) && Sells(trades, m, t)
    requires i < t + 1 && Buys(trades, m, i)
    ensures Queued(Rest(lots, trades[t].amount), i) || Bought(trades, m, i + 1) <= Sold(trades, m, t + 1)
  {
    SellTiles(trades, m, t, lots);
    if Queued(lots, i) { RestCompletes(Marks(trades, m), t, lots, Sold(trades, m, t), trades[t].amount, i); }
  }

  lemma SellKeepsQueue(trades: seq<Trade>, m: Mint, t: nat, lots: seq<Lot>)
    requires t < |trades| && QueueOk(trades, m, t, lots) && Sells(trades, m, t)
    ensures QueueOk(trades, m, t + 1, Rest(lots, trades[t].amount))
  {
    var rest := Rest(lots, trades[t].amount);
    SellTiles(trades, m, t, lots);
    RestIncreasing(lots, trades[t].amount);
    RestCopies(trades, m, t, lots, trades[t].amount);
    forall p | 0 <= p < |rest| ensures CopyOf(trades, m, t + 1, rest[p]) { assert CopyOf(trades, m, t, rest[p]); }
    forall i | 0 <= i < t + 1 && Buys(trades, m, i)
      ensures Queued(rest, i) || Bought(trades, m, i + 1) <= Sold(trades, m, t + 1)
    {
      SellCompletes(trades, m, t, lots, i);
    }
  }

  lemma OtherKeepsQueue(trades: seq<Trade>, m: Mint, t: nat, lots: seq<Lot>)
    requires t < |trades| && QueueOk(trades, m, t, lots) && !Buys(trades, m, t) && !Sells(trades, m, t)
    ensures QueueOk(trades, m, t + 1, lots)
  {
    TilesLater(Marks(trades, m), t, lots, Sold(trades, m, t));
    forall p | 0 <= p < |lots| ensures CopyOf(trades, m, t + 1, lots[p]) { assert CopyOf(trades, m, t, lots[p]); }
  }

  /** A buy is still queued, already sold, or yet to come. */
  lemma BuyStands(trades: seq<Trade>, m: Mint, t: nat, lots: seq<Lot>, i: nat)
    requires QueueOk(trades, m, t, lots) && i < |trades| && Buys(trades, m, i)
    ensures Queued(lots, i) || Bought(trades, m, i + 1) <= Sold(trades, m, t)
            || Bought(trades, m, i) >= Bought(trades, m, t)
  {
    if i >= t { BoughtMonotone(trades, m, t, i); }
  }

  lemma TiledSellOverlap(trades: seq<Trade>, m: Mint, t: nat, lots: seq<Lot>, i: nat)
    requires t < |trades| && Sells(trades, m, t) && Tiles(Marks(trades, m), t, lots, Sold(trades, m, t))
    requires i < |trades|
    requires Queued(lots, i) || Bought(trades, m, i + 1) <= Sold(trades, m, t)
             || Bought(trades, m, i) >= Bought(trades, m, t)
    ensures Taken(Fills(lots, trades[t].amount), i) == Matched(trades, m, i, t)
  {
    BoughtMonotone(trades, m, i, i + 1);
    SoldNext(trades, m, t, lots);
    MarkedOverlap(trades, m, t, lots, Marks(trades, m), Sold(trades, m, t), i);
  }

  lemma SoldNext(trades: seq<Trade>, m: Mint, t: nat, lots: seq<Lot>)
    requires t < |trades| && Sells(trades, m, t) && Tiles(Marks(trades, m), t, lots, Sold(trades, m, t))
    ensures Sold(trades, m, t + 1) == Sold(trades, m, t) + MinNat(trades[t].amount, Sum(lots))
  {
    TilesSum(Marks(trades, m), t, lots, Sold(trades, m, t));
  }

  lemma MarkedOverlap(trades: seq<Trade>, m: Mint, t: nat, lots: seq<Lot>, marks: seq<nat>, s: nat, i: nat)
    requires t < |trades| && i + 1 < |marks| == |trades| + 1 && Tiles(marks, t, lots, s) && marks[i] <= marks[i + 1]
    requires Queued(lots, i) || marks[i + 1] <= s || marks[i] >= marks[t]
    ensures Taken(Fills(lots, trades[t].amount), i)
         == Overlap(marks[i], marks[i + 1], s, s + MinNat(trades[t].amount, Sum(lots)))
  {
    FillsOverlap(marks, t, lots, s, trades[t].amount, i);
  }

  /** The closed form: sell t takes from every buy the overlap of their cumulative intervals. */
  lemma SellTakesOverlap(trades: seq<Trade>, m: Mint, t: nat, lots: seq<Lot>, i: nat)
    requires t < |trades| && QueueOk(trades, m, t, lots) && Sells(trades, m, t)
    requires i < |trades| && Buys(trades, m, i)
    ensures Taken(Fills(lots, trades[t].amount), i) == Matched(trades, m, i, t)
  {
    BuyStands(trades, m, t, lots, i);
    TiledSellOverlap(trades, m, t, lots, i);
  }

  /** What a queue still holds of buy i. */
  function Held(lots: seq<Lot>, i: nat): nat {
    if lots == [] then 0 else (if lots[0].buy == i then lots[0].amount else 0) + Held(lots[1..], i)
  }

  /** Selling everything takes what is held. */
  lemma {:induction false} AllTaken(lots: seq<Lot>, i: nat)
    ensures Taken(Fills(lots, Sum(lots)), i) == Held(lots, i)
  {
    if Sum(lots) == 0 {
      NothingHeld(lots, i);
    } else {
      TakenFrom(lots, Sum(lots), i);
      AllTaken(lots[1..], i);
    }
  }

  lemma {:induction false} NothingHeld(lots: seq<Lot>, i: nat)
    requires Sum(lots) == 0
    ensures Held(lots, i) == 0
  {
    if lots != [] { NothingHeld(lots[1..], i); }
  }

  lemma TilesHold(marks: seq<nat>, t: nat, lots: seq<Lot>, s: nat, i: nat)
    requires t < |marks| && i < t && Tiles(marks, t, lots, s) && marks[i] <= marks[i + 1] <= marks[t]
    requires Queued(lots, i) || marks[i + 1] <= s
    ensures Held(lots, i) == Overlap(marks[i], marks[i + 1], s, marks[t])
  {
    TilesSum(marks, t, lots, s);
    AllTaken(lots, i);
    FillsOverlap(marks, t, lots, s, Sum(lots), i);
  }

  /** What is left of a buy is the part of its interval that no sell has reached. */
  lemma HeldIsUnsold(trades: seq<Trade>, m: Mint, t: nat, lots: seq<Lot>, i: nat)
    requires QueueOk(trades, m, t, lots) && i < t && Buys(trades, m, i)
    ensures Held(lots, i)
         == Overlap(Bought(trades, m, i), Bought(trades, m, i + 1), Sold(trades, m, t), Bought(trades, m, t))
  {
    BoughtMonotone(trades, m, i, i + 1);
    BoughtMonotone(trades, m, i + 1, t);
    TilesHold(Marks(trades, m), t, lots, Sold(trades, m, t), i);
  }

  lemma {:induction false} SoldWithinBought(trades: seq<Trade>, m: Mint, j: nat)
    requires j <= |trades|
    ensures Sold(trades, m, j) <= Bought(trades, m, j)
  {
    if j > 0 { SoldWithinBought(trades, m, j - 1); }
  }

  // ---------------------------------------------------------------- round trips

  const ASSUMED_COPY_LATENCY_S := 3
  const COST_PCT := 2.5

  datatype Outcome = Outcome(buy: nat, sell: nat, used: nat, openedAt: Time, closedAt: Time,
                             sourceReturnPct: real, copyableReturnPct: real, sizeUsd: real)

  function HoldSeconds(start: Time, end: Time): int {
    var s := WholeSeconds(end - start);
    if s < 1 then 1 else s
  }

  /** The share of the holding time a follower's delay eats. */
  function LagShare(hold: int): real
    requires hold >= 1
  {
    (if ASSUMED_COPY_LATENCY_S <= hold then ASSUMED_COPY_LATENCY_S else hold) as real / hold as real
  }

  function CopyableReturn(sourceReturn: real, hold: int): real
    requires hold >= 1
  {
    sourceReturn - sourceReturn * LagShare(hold) - COST_PCT
  }

  function OutcomeOf(f: Fill, trade: Trade, sell: nat): Outcome
    requires f.lot.price > 0.0
  {
    var ret := (trade.price - f.lot.price) / f.lot.price * 100.0;
    Outcome(f.lot.buy, sell, f.used, f.lot.at, trade.at, ret,
            CopyableReturn(ret, HoldSeconds(f.lot.at, trade.at)),
            Ui(f.used, f.lot.decimals) * f.lot.price)
  }

  function OutcomesOf(fills: seq<Fill>, trade: Trade, sell: nat): seq<Outcome>
    requires forall k :: 0 <= k < |fills| ==> fills[k].lot.price > 0.0
  {
    seq(|fills|, k requires 0 <= k < |fills| => OutcomeOf(fills[k], trade, sell))
  }

  /** What the reported round trips say sell j took from buy i. */
  function Reported(outcomes: seq<Outcome>, i: nat, j: nat): nat {
    if outcomes == [] then 0
    else
      var o := outcomes[0];
      (if o.buy == i && o.sell == j then o.used else 0) + Reported(outcomes[1..], i, j)
  }

  lemma {:induction false} ReportedAppend(xs: seq<Outcome>, ys: seq<Outcome>, i: nat, j: nat)
    ensures Reported(xs + ys, i, j) == Reported(xs, i, j) + Reported(ys, i, j)
  {
    if xs == [] {
      assert xs + ys == ys;
    } else {
      assert (xs + ys)[1..] == xs[1..] + ys;
      ReportedAppend(xs[1..], ys, i, j);
    }
  }

  lemma {:induction false} ReportedFills(fills: seq<Fill>, trade: Trade, sell: nat, i: nat, j: nat)
    requires forall k :: 0 <= k < |fills| ==> fills[k].lot.price > 0.0
    ensures Reported(OutcomesOf(fills, trade, sell), i, j) == if j == sell then Taken(fills, i) else 0
  {
    if fills != [] {
      ReportedFills(fills[1..], trade, sell, i, j);
      assert OutcomesOf(fills, trade, sell)[1..] == OutcomesOf(fills[1..], trade, sell);
    }
  }

  lemma {:induction false} FillsCopies(trades: seq<Trade>, m: Mint, t: nat, lots: seq<Lot>, qty: nat, k: nat)
    requires forall p :: 0 <= p < |lots| ==> CopyOf(trades, m, t, lots[p])
    requires k < |Fills(lots, qty)|
    ensures CopyOf(trades, m, t, Fills(lots, qty)[k].lot)
  {
    if k > 0 { FillsCopies(trades, m, t, lots[1..], qty - lots[0].amount, k - 1); }
  }

  /** A reported round trip: an earlier buy and a later sell of one mint, with the sell's own
      returns on that buy. */
  predicate RoundTrip(trades: seq<Trade>, o: Outcome) {
    && o.buy < o.sell < |trades|
    && Buys(trades, trades[o.buy].mint, o.buy) && Sells(trades, trades[o.buy].mint, o.sell)
    && o.openedAt == trades[o.buy].at && o.closedAt == trades[o.sell].at
    && o.sourceReturnPct == (trades[o.sell].price - trades[o.buy].price) / trades[o.buy].price * 100.0
    && o.copyableReturnPct == CopyableReturn(o.sourceReturnPct, HoldSeconds(o.openedAt, o.closedAt))
    && o.sizeUsd == Ui(o.used, trades[o.buy].decimals) * trades[o.buy].price
  }

  function QueueIn(lots: map<Mint, seq<Lot>>, m: Mint): seq<Lot> { if m in lots then lots[m] else [] }

  ghost predicate QueuesOk(trades: seq<Trade>, t: nat, lots: map<Mint, seq<Lot>>) {
    forall m :: QueueOk(trades, m, t, QueueIn(lots, m))
  }

  ghost predicate ReportsOk(trades: seq<Trade>, t: nat, outcomes: seq<Outcome>) {
    && (forall k :: 0 <= k < |outcomes| ==> RoundTrip(trades, outcomes[k]) && outcomes[k].sell < t)
    && (forall m, i, j {:trigger Buys(trades, m, i), Sells(trades, m, j)} ::
         0 <= i < |trades| && 0 <= j < t <= |trades| && Buys(trades, m, i) && Sells(trades, m, j) ==>
         Reported(outcomes, i, j) == Matched(trades, m, i, j))
  }

  lemma {:induction false} NothingReportedYet(outcomes: seq<Outcome>, i: nat, j: nat)
    requires forall k :: 0 <= k < |outcomes| ==> outcomes[k].sell < j
    ensures Reported(outcomes, i, j) == 0
  {
    if outcomes != [] { NothingReportedYet(outcomes[1..], i, j); }
  }

  lemma QueuesAfterSell(trades: seq<Trade>, t: nat, lots: map<Mint, seq<Lot>>)
    requires t < |trades| && QueuesOk(trades, t, lots) && Sells(trades, trades[t].mint, t)
    ensures QueuesOk(trades, t + 1, lots[trades[t].mint := Rest(QueueIn(lots, trades[t].mint), trades[t].amount)])
  {
    var mint := trades[t].mint;
    var lots' := lots[mint := Rest(QueueIn(lots, mint), trades[t].amount)];
    forall m ensures QueueOk(trades, m, t + 1, QueueIn(lots', m)) {
      if m == mint { SellKeepsQueue(trades, m, t, QueueIn(lots, m)); }
      else { OtherKeepsQueue(trades, m, t, QueueIn(lots, m)); }
    }
  }

  lemma QueuesAfterBuy(trades: seq<Trade>, t: nat, lots: map<Mint, seq<Lot>>)
    requires t < |trades| && QueuesOk(trades, t, lots) && Buys(trades, trades[t].mint, t)
    ensures QueuesOk(trades, t + 1, lots[trades[t].mint := QueueIn(lots, trades[t].mint) + [LotOf(trades[t], t)]])
  {
    var mint := trades[t].mint;
    var lots' := lots[mint := QueueIn(lots, mint) + [LotOf(trades[t], t)]];
    forall m ensures QueueOk(trades, m, t + 1, QueueIn(lots', m)) {
      if m == mint { BuyKeepsQueue(trades, m, t, QueueIn(lots, m)); }
      else { OtherKeepsQueue(trades, m, t, QueueIn(lots, m)); }
    }
  }

  lemma QueuesAfterOther(trades: seq<Trade>, t: nat, lots: map<Mint, seq<Lot>>)
    requires t < |trades| && QueuesOk(trades, t, lots)
    requires trades[t].price <= 0.0 || (trades[t].action != Buy && !IsSell(trades[t].action))
    ensures QueuesOk(trades, t + 1, lots)
  {
    forall m ensures QueueOk(trades, m, t + 1, QueueIn(lots, m)) {
      OtherKeepsQueue(trades, m, t, QueueIn(lots, m));
    }
  }

  lemma FillIsRoundTrip(trades: seq<Trade>, m: Mint, t: nat, f: Fill)
    requires t < |trades| && Sells(trades, m, t) && CopyOf(trades, m, t, f.lot)
    ensures f.lot.price > 0.0 && RoundTrip(trades, OutcomeOf(f, trades[t], t))
  {
  }

  lemma TripsAfterSell(trades: seq<Trade>, m: Mint, t: nat, lots: seq<Lot>, qty: nat)
    requires t < |trades| && Sells(trades, m, t)
    requires forall p :: 0 <= p < |lots| ==> CopyOf(trades, m, t, lots[p])
    ensures forall f :: f in Fills(lots, qty) ==> f.lot.price > 0.0 && RoundTrip(trades, OutcomeOf(f, trades[t], t))
  {
    forall f | f in Fills(lots, qty) ensures f.lot.price > 0.0 && RoundTrip(trades, OutcomeOf(f, trades[t], t)) {
      var k :| 0 <= k < |Fills(lots, qty)| && Fills(lots, qty)[k] == f;
      FillsCopies(trades, m, t, lots, qty, k);
      FillIsRoundTrip(trades, m, t, f);
    }
  }

  lemma ReportsAfterSell(trades: seq<Trade>, t: nat, lots: map<Mint, seq<Lot>>, outcomes: seq<Outcome>,
                         fills: seq<Fill>)
    requires t < |trades| && QueuesOk(trades, t, lots) && Sells(trades, trades[t].mint, t)
    requires ReportsOk(trades, t, outcomes) && fills == Fills(QueueIn(lots, trades[t].mint), trades[t].amount)
    ensures forall k :: 0 <= k < |fills| ==> fills[k].lot.price > 0.0
    ensures ReportsOk(trades, t + 1, outcomes + OutcomesOf(fills, trades[t], t))
  {
    var mint := trades[t].mint;
    var queue := QueueIn(lots, mint);
    assert QueueOk(trades, mint, t, queue);
    TripsAfterSell(trades, mint, t, queue, trades[t].amount);
    assert forall k :: 0 <= k < |fills| ==> fills[k] in fills;
    var more := OutcomesOf(fills, trades[t], t);
    forall m, i, j | 0 <= i < |trades| && 0 <= j < t + 1 && Buys(trades, m, i) && Sells(trades, m, j)
      ensures Reported(outcomes + more, i, j) == Matched(trades, m, i, j)
    {
      ReportedAppend(outcomes, more, i, j);
      ReportedFills(fills, trades[t], t, i, j);
      if j == t {
        NothingReportedYet(outcomes, i, j);
        SellTakesOverlap(trades, mint, t, queue, i);
      }
    }
  }

  /** What a report of these trades' round trips has to say. */
  ghost predicate Paired(trades: seq<Trade>, outcomes: seq<Outcome>) {
    && (forall k :: 0 <= k < |outcomes| ==> RoundTrip(trades, outcomes[k]))
    && (forall m, i, j {:trigger Buys(trades, m, i), Sells(trades, m, j)} ::
         0 <= i < |trades| && 0 <= j < |trades| && Buys(trades, m, i) && Sells(trades, m, j) ==>
         Reported(outcomes, i, j) == Matched(trades, m, i, j))
  }

  /** FIFO round trips per token. The quantity reported between buy i and sell j is exactly the
      overlap of their cumulative intervals, for every pair; `left` is what stays in the queues. */
  method PairRoundTrips(trades: seq<Trade>) returns (outcomes: seq<Outcome>, ghost left: map<Mint, seq<Lot>>)
    ensures Paired(trades, outcomes) && Accounted(trades, outcomes, left)
  {
    outcomes, left := MatchAll(trades);
    EveryUnitIsReportedOrLeft(trades, outcomes, left);
  }

  method MatchAll(trades: seq<Trade>) returns (outcomes: seq<Outcome>, ghost left: map<Mint, seq<Lot>>)
    ensures ReportsOk(trades, |trades|, outcomes) && QueuesOk(trades, |trades|, left)
  {
    var lots: map<Mint, seq<Lot>> := map[];
    outcomes := [];
    for t := 0 to |trades|
      invariant QueuesOk(trades, t, lots) && ReportsOk(trades, t, outcomes)
    {
      var trade := trades[t];
      if trade.price <= 0.0 {
        QueuesAfterOther(trades, t, lots);
        continue;
      }
      if trade.action == Buy {
        QueuesAfterBuy(trades, t, lots);
        lots := lots[trade.mint := QueueIn(lots, trade.mint) + [LotOf(trade, t)]];
      } else if IsSell(trade.action) {
        var rest, fills := SellFifo(QueueIn(lots, trade.mint), trade.amount);
        QueuesAfterSell(trades, t, lots);
        ReportsAfterSell(trades, t, lots, outcomes, fills);
        lots := lots[trade.mint := rest];
        outcomes := outcomes + OutcomesOf(fills, trade, t);
      } else {
        QueuesAfterOther(trades, t, lots);
      }
    }
    left := lots;
  }

  // ---------------------------------------------------------------- where every unit went

  /** Units the report says were taken from buy i by the sells before trade n. */
  function ReportedFrom(outcomes: seq<Outcome>, i: nat, n: nat): nat {
    if outcomes == [] then 0
    else
      var o := outcomes[0];
      (if o.buy == i && o.sell < n then o.used else 0) + ReportedFrom(outcomes[1..], i, n)
  }

  /** Units the report says sell j took from the buys before trade n. */
  function ReportedTo(outcomes: seq<Outcome>, j: nat, n: nat): nat {
    if outcomes == [] then 0
    else
      var o := outcomes[0];
      (if o.sell == j && o.buy < n then o.used else 0) + ReportedTo(outcomes[1..], j, n)
  }

  lemma {:induction false} ReportedFromNext(outcomes: seq<Outcome>, i: nat, n: nat)
    ensures ReportedFrom(outcomes, i, n + 1) == ReportedFrom(outcomes, i, n) + Reported(outcomes, i, n)
    ensures ReportedFrom(outcomes, i, 0) == 0
  {
    if outcomes != [] { ReportedFromNext(outcomes[1..], i, n); }
  }

  lemma {:induction false} ReportedToNext(outcomes: seq<Outcome>, j: nat, n: nat)
    ensures ReportedTo(outcomes, j, n + 1) == ReportedTo(outcomes, j, n) + Reported(outcomes, n, j)
    ensures ReportedTo(outcomes, j, 0) == 0
  {
    if outcomes != [] { ReportedToNext(outcomes[1..], j, n); }
  }

  /** Only buys and sells of one mint are reported. */
  lemma {:induction false} OthersUnreported(trades: seq<Trade>, outcomes: seq<Outcome>, i: nat, j: nat)
    requires forall k :: 0 <= k < |outcomes| ==> RoundTrip(trades, outcomes[k])
    requires i < |trades| && j < |trades|
    requires !Buys(trades, trades[i].mint, i) || !Sells(trades, trades[i].mint, j)
    ensures Reported(outcomes, i, j) == 0
  {
    if outcomes != [] {
      assert RoundTrip(trades, outcomes[0]);
      OthersUnreported(trades, outcomes[1..], i, j);
    }
  }

  lemma OverlapExtends(a: int, b: int, c: int, d: int, e: int)
    requires a <= b && c <= d <= e
    ensures Overlap(a, b, c, d) + Overlap(a, b, d, e) == Overlap(a, b, c, e)
    ensures Overlap(c, d, a, b) + Overlap(d, e, a, b) == Overlap(c, e, a, b)
  {
  }

  /** The sells before trade n took from a buy what lies below what they sold. */
  lemma {:induction false} FromBuy(trades: seq<Trade>, outcomes: seq<Outcome>, m: Mint, i: nat, n: nat)
    requires Paired(trades, outcomes) && i < |trades| && n <= |trades| && Buys(trades, m, i)
    ensures ReportedFrom(outcomes, i, n)
         == Overlap(Bought(trades, m, i), Bought(trades, m, i + 1), 0, Sold(trades, m, n))
  {
    if n == 0 {
      ReportedFromNext(outcomes, i, 0);
    } else {
      FromBuy(trades, outcomes, m, i, n - 1);
      ReportedFromNext(outcomes, i, n - 1);
      PairReported(trades, outcomes, m, i, n - 1);
    }
  }

  /** One more sell, or a trade that is none. */
  lemma PairReported(trades: seq<Trade>, outcomes: seq<Outcome>, m: Mint, i: nat, j: nat)
    requires Paired(trades, outcomes) && i < |trades| && j < |trades| && Buys(trades, m, i)
    ensures Overlap(Bought(trades, m, i), Bought(trades, m, i + 1), 0, Sold(trades, m, j)) + Reported(outcomes, i, j)
         == Overlap(Bought(trades, m, i), Bought(trades, m, i + 1), 0, Sold(trades, m, j + 1))
  {
    if Sells(trades, m, j) {
      SoldWithinBought(trades, m, j);
      BoughtMonotone(trades, m, i, i + 1);
      OverlapExtends(Bought(trades, m, i), Bought(trades, m, i + 1), 0, Sold(trades, m, j), Sold(trades, m, j + 1));
    } else {
      OthersUnreported(trades, outcomes, i, j);
    }
  }

  /** A sell took from the buys before trade n what lies below what they bought. */
  lemma {:induction false} ToSellOf(trades: seq<Trade>, outcomes: seq<Outcome>, m: Mint, j: nat, n: nat)
    requires Paired(trades, outcomes) && j < |trades| && n <= |trades| && Sells(trades, m, j)
    ensures ReportedTo(outcomes, j, n) == Overlap(0, Bought(trades, m, n), Sold(trades, m, j), Sold(trades, m, j + 1))
  {
    SoldWithinBought(trades, m, j);
    if n == 0 {
      ReportedToNext(outcomes, j, 0);
    } else {
      ToSellOf(trades, outcomes, m, j, n - 1);
      ReportedToNext(outcomes, j, n - 1);
      ReportedPair(trades, outcomes, m, j, n - 1);
    }
  }

  /** One more buy, or a trade that is none. */
  lemma ReportedPair(trades: seq<Trade>, outcomes: seq<Outcome>, m: Mint, j: nat, i: nat)
    requires Paired(trades, outcomes) && j < |trades| && i < |trades| && Sells(trades, m, j)
    ensures Overlap(0, Bought(trades, m, i), Sold(trades, m, j), Sold(trades, m, j + 1)) + Reported(outcomes, i, j)
         == Overlap(0, Bought(trades, m, i + 1), Sold(trades, m, j), Sold(trades, m, j + 1))
  {
    SoldWithinBought(trades, m, j);
    if Buys(trades, m, i) {
      OverlapExtends(Sold(trades, m, j), Sold(trades, m, j + 1), 0, Bought(trades, m, i), Bought(trades, m, i + 1));
    } else {
      assert trades[i].mint != m || !Buys(trades, trades[i].mint, i);
      OthersUnreported(trades, outcomes, i, j);
    }
  }

  /** What a sell can sell: its amount, or all there is. */
  function Sellable(trades: seq<Trade>, m: Mint, j: nat): int
    requires j < |trades|
  {
    var there := Bought(trades, m, j) - Sold(trades, m, j);
    if trades[j].amount <= there then trades[j].amount else there
  }

  /** Every unit bought is reported sold or left in its queue, and every sell is reported in full, as far as
      there was something to sell. */
  ghost predicate Accounted(trades: seq<Trade>, outcomes: seq<Outcome>, left: map<Mint, seq<Lot>>) {
    && (forall m, i {:trigger Buys(trades, m, i)} :: 0 <= i < |trades| && Buys(trades, m, i) ==>
         ReportedFrom(outcomes, i, |trades|) + Held(QueueIn(left, m), i) == trades[i].amount)
    && (forall m, j {:trigger Sells(trades, m, j)} :: 0 <= j < |trades| && Sells(trades, m, j) ==>
         ReportedTo(outcomes, j, |trades|) == Sellable(trades, m, j))
  }

  lemma BuyAccounted(trades: seq<Trade>, outcomes: seq<Outcome>, lots: seq<Lot>, m: Mint, i: nat)
    requires Paired(trades, outcomes) && QueueOk(trades, m, |trades|, lots) && i < |trades| && Buys(trades, m, i)
    ensures ReportedFrom(outcomes, i, |trades|) + Held(lots, i) == trades[i].amount
  {
    FromBuy(trades, outcomes, m, i, |trades|);
    HeldIsUnsold(trades, m, |trades|, lots, i);
    SoldAndUnsold(trades, m, i);
  }

  lemma SoldAndUnsold(trades: seq<Trade>, m: Mint, i: nat)
    requires i < |trades| && Buys(trades, m, i)
    ensures var a, b, n := Bought(trades, m, i), Bought(trades, m, i + 1), |trades|;
            Overlap(a, b, 0, Sold(trades, m, n)) + Overlap(a, b, Sold(trades, m, n), Bought(trades, m, n))
            == trades[i].amount
  {
    var n := |trades|;
    SoldWithinBought(trades, m, n);
    BoughtMonotone(trades, m, i + 1, n);
    OverlapExtends(Bought(trades, m, i), Bought(trades, m, i + 1), 0, Sold(trades, m, n), Bought(trades, m, n));
  }

  lemma SellAccounted(trades: seq<Trade>, outcomes: seq<Outcome>, m: Mint, j: nat)
    requires Paired(trades, outcomes) && j < |trades| && Sells(trades, m, j)
    ensures ReportedTo(outcomes, j, |trades|) == Sellable(trades, m, j)
  {
    ToSellOf(trades, outcomes, m, j, |trades|);
    SoldWithinBought(trades, m, j);
    BoughtMonotone(trades, m, j, |trades|);
  }

  lemma EveryUnitIsReportedOrLeft(trades: seq<Trade>, outcomes: seq<Outcome>, left: map<Mint, seq<Lot>>)
    requires Paired(trades, outcomes) && QueuesOk(trades, |trades|, left)
    ensures Accounted(trades, outcomes, left)
  {
    forall m, i | 0 <= i < |trades| && Buys(trades, m, i)
      ensures ReportedFrom(outcomes, i, |trades|) + Held(QueueIn(left, m), i) == trades[i].amount
    {
      BuyAccounted(trades, outcomes, QueueIn(left, m), m, i);
    }
    forall m, j | 0 <= j < |trades| && Sells(trades, m, j)
      ensures ReportedTo(outcomes, j, |trades|) == Sellable(trades, m, j)
    {
      SellAccounted(trades, outcomes, m, j);
    }
  }

  // ---------------------------------------------------------------- is the estimate pessimistic?

  /** The copyable return flatters the trader exactly when the lag's share of a loss outweighs
      the fixed cost. */
  lemma FlattersExactlyWhen(sourceReturn: real, hold: int)
    requires hold >= 1
    ensures CopyableReturn(sourceReturn, hold) > sourceReturn <==> sourceReturn * LagShare(hold) < -COST_PCT
    ensures sourceReturn >= -COST_PCT ==> CopyableReturn(sourceReturn, hold) <= sourceReturn
  {
    var lag := LagShare(hold);
    assert 0.0 < lag <= 1.0;
    if sourceReturn >= 0.0 { MulMono(lag, 0.0, sourceReturn); }
    else if sourceReturn >= -COST_PCT {
      MulMono(-sourceReturn, lag, 1.0);
    }
  }

  /** The whole seconds of a span, and one at least. */
  predicate IsHold(hold: int, span: Time) {
    if span < 2 * SECOND then hold == 1 else hold * SECOND <= span < (hold + 1) * SECOND
  }

  lemma HoldMeans(start: Time, end: Time)
    ensures IsHold(HoldSeconds(start, end), end - start)
  {
    var span := end - start;
    var whole := span as real / SECOND as real;
    Quotient(span as real, SECOND as real);
    if span >= 0 {
      assert whole.Floor as real <= whole < whole.Floor as real + 1.0;
    } else {
      assert (-whole).Floor as real <= -whole;
    }
  }

  /** A follower three seconds late keeps the rest of the holding time's return, less 2.5 percent; nothing of it when
      that time was three seconds or less. */
  predicate IsCopyable(copyable: real, sourceReturn: real, hold: int) {
    if hold <= 3 then copyable == -2.5
    else (copyable + 2.5) * hold as real == sourceReturn * (hold as real - 3.0)
  }

  lemma CopyableMeans(sourceReturn: real, hold: int)
    requires hold >= 1
    ensures IsCopyable(CopyableReturn(sourceReturn, hold), sourceReturn, hold)
  {
    var h := hold as real;
    if hold <= 3 {
      assert LagShare(hold) == 1.0;
    } else {
      var lag := 3.0 / h;
      Quotient(3.0, h);
      assert (sourceReturn - sourceReturn * lag) * h == sourceReturn * h - sourceReturn * (lag * h);
    }
  }

  /** The two returns a report gives for a round trip, from the two trades. */
  lemma ReportedReturnsMean(trades: seq<Trade>, outcomes: seq<Outcome>, k: nat)
    requires Paired(trades, outcomes) && k < |outcomes|
    ensures var o := outcomes[k];
            && o.buy < |trades| && o.sell < |trades|
            && var bought, sold := trades[o.buy], trades[o.sell];
               && bought.action == Buy && (sold.action == Sell || sold.action == PartialSell)
               && bought.mint == sold.mint && o.sourceReturnPct * bought.price == 100.0 * (sold.price - bought.price)
               && exists hold :: IsHold(hold, sold.at - bought.at)
                                 && IsCopyable(o.copyableReturnPct, o.sourceReturnPct, hold)
  {
    var o := outcomes[k];
    assert RoundTrip(trades, o);
    HoldMeans(trades[o.buy].at, trades[o.sell].at);
    CopyableMeans(o.sourceReturnPct, HoldSeconds(trades[o.buy].at, trades[o.sell].at));
  }

  lemma {:induction false} ReportedTrip(outcomes: seq<Outcome>, i: nat, j: nat) returns (k: nat)
    requires Reported(outcomes, i, j) > 0
    ensures k < |outcomes| && outcomes[k].buy == i && outcomes[k].sell == j
  {
    var o := outcomes[0];
    if o.buy == i && o.sell == j {
      k := 0;
    } else {
      k := ReportedTrip(outcomes[1..], i, j);
      k := k + 1;
    }
  }

  /** Bought at 100, sold two seconds later at 50, whole or in part. */
  function QuickLoss(wallet: Wallet, mint: Mint, amount: nat, sell: Action): seq<Trade> {
    [Trade(wallet, mint, Buy, 100.0, amount, 9, 0), Trade(wallet, mint, sell, 50.0, amount, 9, 2 * SECOND)]
  }

  lemma QuickLossMatches(wallet: Wallet, mint: Mint, amount: nat, sell: Action)
    requires amount > 0 && (sell == Sell || sell == PartialSell)
    ensures var trades := QuickLoss(wallet, mint, amount, sell);
            Buys(trades, mint, 0) && Sells(trades, mint, 1) && Matched(trades, mint, 0, 1) == amount
  {
    var trades := QuickLoss(wallet, mint, amount, sell);
    assert Bought(trades, mint, 0) == 0 && Bought(trades, mint, 1) == amount && Bought(trades, mint, 2) == amount;
    assert Sold(trades, mint, 0) == 0 && Sold(trades, mint, 1) == 0 && Sold(trades, mint, 2) == amount;
  }

  /** Whatever reports its round trips correctly shows it as a loss of 2.5 percent, not of 50. */
  lemma QuickLossIsFlattered(wallet: Wallet, mint: Mint, amount: nat, sell: Action, outcomes: seq<Outcome>)
    requires amount > 0 && (sell == Sell || sell == PartialSell)
    requires Paired(QuickLoss(wallet, mint, amount, sell), outcomes)
    ensures exists k :: 0 <= k < |outcomes|
                        && outcomes[k].sourceReturnPct == -50.0 && outcomes[k].copyableReturnPct == -2.5
  {
    QuickLossMatches(wallet, mint, amount, sell);
    var k := ReportedTrip(outcomes, 0, 1);
    assert RoundTrip(QuickLoss(wallet, mint, amount, sell), outcomes[k]);
    assert HoldSeconds(0, 2 * SECOND) == 2 && LagShare(2) == 1.0;
  }

  /** Of the reported round trips exactly those are flattered whose loss, times the lag's share of the
      holding time, exceeds the fixed cost; and no trade that is considered loses everything. */
  lemma ReportFlattersExactlyWhen(trades: seq<Trade>, outcomes: seq<Outcome>, k: nat)
    requires Paired(trades, outcomes) && k < |outcomes|
    ensures var o := outcomes[k];
            && o.buy < |trades| && o.sell < |trades|
            && (o.copyableReturnPct > o.sourceReturnPct
                <==> o.sourceReturnPct * LagShare(HoldSeconds(trades[o.buy].at, trades[o.sell].at)) < -COST_PCT)
            && o.sourceReturnPct > -100.0
  {
    var o := outcomes[k];
    assert RoundTrip(trades, o);
    FlattersExactlyWhen(o.sourceReturnPct, HoldSeconds(trades[o.buy].at, trades[o.sell].at));
    ReturnAboveTotalLoss(trades[o.buy].price, trades[o.sell].price);
  }

  lemma ReturnAboveTotalLoss(bought: real, sold: real)
    requires bought > 0.0 && sold > 0.0
    ensures (sold - bought) / bought * 100.0 > -100.0
  {
    Quotient(sold - bought, bought);
    if (sold - bought) / bought <= -1.0 { MulMono(bought, (sold - bought) / bought, -1.0); }
  }
}
