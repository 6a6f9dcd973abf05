/** The race the atomic script closes: many callers reserve the same size at once against one
    limit. Exactly as many are granted as that limit has room for, in whatever order they run. */
module LedgerRace {
  import opened Numeric
  import opened Domain
  import opened Ledger
  import opened LedgerBook
  import opened LedgerLimits

  datatype Attempt = Attempt(id: ResId, mint: Mint, wallet: Wallet)

  function After(s: Ledger, ctl: Control, lim: Limits, size: real, attempts: seq<Attempt>): Ledger
    decreases |attempts|
  {
    if attempts == [] then s else After(Next(s, ctl, lim, size, attempts[0]), ctl, lim, size, attempts[1..])
  }

  function Next(s: Ledger, ctl: Control, lim: Limits, size: real, a: Attempt): Ledger {
    AfterReserve(s, ctl, lim, a.id, a.mint, a.wallet, size)
  }

  predicate Wins(s: Ledger, ctl: Control, lim: Limits, size: real, a: Attempt) {
    Refusal(s, ctl, lim, a.mint, a.wallet, size) == None
  }

  function Granted(s: Ledger, ctl: Control, lim: Limits, size: real, attempts: seq<Attempt>): nat
    decreases |attempts|
  {
    if attempts == [] then 0
    else (if Wins(s, ctl, lim, size, attempts[0]) then 1 else 0)
         + Granted(Next(s, ctl, lim, size, attempts[0]), ctl, lim, size, attempts[1..])
  }

  function Times(n: nat, size: real): real { if n == 0 then 0.0 else size + Times(n - 1, size) }

  lemma TimesIs(n: nat, size: real)
    ensures Times(n, size) == n as real * size
  {
    if n > 0 {
      TimesIs(n - 1, size);
      assert n as real * size == (n - 1) as real * size + size;
    }
  }

  /** How many more reservations of `size` a limit still admits. */
  function Room(shown: real, ceiling: real, size: real): nat
    requires size > 0.0
  {
    if shown + size > ceiling then 0
    else
      QuotientShifts(ceiling - shown, size);
      ((ceiling - shown) / size).Floor
  }

  lemma QuotientShifts(x: real, size: real)
    requires size > 0.0
    ensures x / size * size == x
    ensures (x - size) / size == x / size - 1.0
    ensures x >= size ==> x / size >= 1.0
    ensures x < size ==> x / size < 1.0
  {
    var q := x / size;
    assert (q - 1.0) * size == x - size;
    assert (x - size) / size * size == x - size;
    if x >= size && q < 1.0 { MulLess(q, 1.0, size); }
    if x < size && q >= 1.0 { MulMono(size, 1.0, q); }
    MulCancel((x - size) / size, q - 1.0, size);
  }

  lemma RoomShrinks(shown: real, ceiling: real, size: real)
    requires size > 0.0 && shown + size <= ceiling
    ensures Room(shown, ceiling, size) == 1 + Room(shown + size, ceiling, size)
  {
    QuotientShifts(ceiling - shown, size);
    QuotientShifts(ceiling - (shown + size), size);
    assert ceiling - (shown + size) == ceiling - shown - size;
  }

  /** Room is the largest k with shown + k * size <= ceiling. */
  lemma {:induction false} RoomIsLargest(shown: real, ceiling: real, size: real)
    requires size > 0.0 && shown <= ceiling
    ensures var k := Room(shown, ceiling, size);
            shown + k as real * size <= ceiling < shown + (k + 1) as real * size
    decreases Room(shown, ceiling, size)
  {
    var k := Room(shown, ceiling, size);
    if shown + size <= ceiling {
      RoomShrinks(shown, ceiling, size);
      RoomIsLargest(shown + size, ceiling, size);
      assert k as real * size == (k - 1) as real * size + size;
      assert (k + 1) as real * size == k as real * size + size;
    }
  }

  predicate InScope(a: Attempt, sc: Scope) {
    match sc
    case Everything => true
    case OfToken(m) => a.mint == m
    case OfTrader(w) => a.wallet == w
  }

  /** How many of the attempts a limit concerns. */
  function Count(attempts: seq<Attempt>, sc: Scope): nat {
    if attempts == [] then 0 else (if InScope(attempts[0], sc) then 1 else 0) + Count(attempts[1..], sc)
  }

  /** What the race should come to: as many as attempt it or as the limit has room for. */
  function Winners(s: Ledger, lim: Limits, size: real, sc: Scope, attempts: seq<Attempt>): nat
    requires size > 0.0
  {
    MinNat(|attempts|, Room(Shown(s, sc), Ceiling(s, lim, sc), size))
  }

  /** The other limits do not bind: whatever is needed for that many reservations is there. Only
      limits that some attempt concerns matter, each for its own attempts. */
  ghost predicate OthersSlack(s: Ledger, ctl: Control, lim: Limits, size: real, sc: Scope,
                              attempts: seq<Attempt>, n: nat) {
    && ControlRefusal(ctl) == None
    && size > 0.0 && size >= lim.minPositionUsd && Times(n, size) <= s.cash
    && BreakersClosed(s, lim)
    && s.openPositions + s.pending + n <= lim.maxOpenPositions && s.pending + n <= lim.maxPending
    && (forall other: Scope :: other != sc && Count(attempts, other) > 0 ==>
         Fits(s, lim, other, Times(MinNat(n, Count(attempts, other)), size)))
  }

  lemma TimesAtLeast(n: nat, size: real)
    requires size > 0.0
    ensures Times(n, size) >= 0.0
    ensures n > 0 ==> Times(n, size) == size + Times(n - 1, size) >= size
  {
    if n > 1 { TimesAtLeast(n - 1, size); }
  }

  lemma TimesMonotone(n: nat, k: nat, size: real)
    requires n <= k && size > 0.0
    ensures Times(n, size) <= Times(k, size)
  {
    if n < k { TimesMonotone(n, k - 1, size); }
  }

  /** A limit that concerns the first attempt has room for it. */
  lemma RoomForOne(s: Ledger, ctl: Control, lim: Limits, size: real, sc: Scope, attempts: seq<Attempt>, n: nat,
                   other: Scope)
    requires n > 0 && attempts != [] && OthersSlack(s, ctl, lim, size, sc, attempts, n)
    requires other != sc && InScope(attempts[0], other)
    ensures Fits(s, lim, other, size)
  {
    assert Count(attempts, other) > 0;
    TimesAtLeast(MinNat(n, Count(attempts, other)), size);
  }

  lemma PassesAll(s: Ledger, ctl: Control, lim: Limits, size: real, a: Attempt)
    requires ControlRefusal(ctl) == None && size >= lim.minPositionUsd && size <= s.cash
    requires BreakersClosed(s, lim) && SlotFree(s, lim)
    requires Fits(s, lim, Everything, size)
    requires Fits(s, lim, OfToken(a.mint), size) && Fits(s, lim, OfTrader(a.wallet), size)
    ensures Wins(s, ctl, lim, size, a)
  {
    BreakersMean(s, lim);
  }

  lemma FirstWins(s: Ledger, ctl: Control, lim: Limits, size: real, sc: Scope, attempts: seq<Attempt>, n: nat)
    requires n > 0 && attempts != [] && OthersSlack(s, ctl, lim, size, sc, attempts, n)
    requires Fits(s, lim, sc, size)
    ensures Wins(s, ctl, lim, size, attempts[0])
  {
    var a := attempts[0];
    TimesAtLeast(n, size);
    assert size <= s.cash && SlotFree(s, lim);
    if sc != Everything { RoomForOne(s, ctl, lim, size, sc, attempts, n, Everything); }
    if sc != OfToken(a.mint) { RoomForOne(s, ctl, lim, size, sc, attempts, n, OfToken(a.mint)); }
    if sc != OfTrader(a.wallet) { RoomForOne(s, ctl, lim, size, sc, attempts, n, OfTrader(a.wallet)); }
    PassesAll(s, ctl, lim, size, a);
  }

  lemma ShownNext(s: Ledger, ctl: Control, lim: Limits, size: real, a: Attempt, sc: Scope)
    requires size > 0.0
    ensures var shown := Shown(Next(s, ctl, lim, size, a), sc);
            shown == Shown(s, sc) + (if Wins(s, ctl, lim, size, a) && InScope(a, sc) then size else 0.0)
    ensures Ceiling(Next(s, ctl, lim, size, a), lim, sc) == Ceiling(s, lim, sc)
  {
  }

  lemma FitsNext(s: Ledger, ctl: Control, lim: Limits, size: real, sc: Scope, attempts: seq<Attempt>, n: nat,
                 other: Scope)
    requires n > 0 && attempts != [] && OthersSlack(s, ctl, lim, size, sc, attempts, n)
    requires other != sc && Count(attempts[1..], other) > 0
    ensures Fits(Next(s, ctl, lim, size, attempts[0]), lim, other,
                 Times(MinNat(n - 1, Count(attempts[1..], other)), size))
  {
    var now, later := MinNat(n, Count(attempts, other)), MinNat(n - 1, Count(attempts[1..], other));
    assert Fits(s, lim, other, Times(now, size));
    ShownNext(s, ctl, lim, size, attempts[0], other);
    TimesAtLeast(now, size);
    TimesMonotone(later, if InScope(attempts[0], other) then now - 1 else now, size);
  }

  lemma SlackNext(s: Ledger, ctl: Control, lim: Limits, size: real, sc: Scope, attempts: seq<Attempt>, n: nat)
    requires n > 0 && attempts != [] && OthersSlack(s, ctl, lim, size, sc, attempts, n)
    ensures OthersSlack(Next(s, ctl, lim, size, attempts[0]), ctl, lim, size, sc, attempts[1..], n - 1)
  {
    TimesAtLeast(n, size);
    var next := Next(s, ctl, lim, size, attempts[0]);
    forall other: Scope | other != sc && Count(attempts[1..], other) > 0
      ensures Fits(next, lim, other, Times(MinNat(n - 1, Count(attempts[1..], other)), size))
    {
      FitsNext(s, ctl, lim, size, sc, attempts, n, other);
    }
  }

  /** Once the limit is full nobody gets in any more, whatever the other limits say. */
  lemma {:induction false} NobodyWins(s: Ledger, ctl: Control, lim: Limits, size: real, sc: Scope,
                                      attempts: seq<Attempt>)
    requires !Fits(s, lim, sc, size)
    requires forall i :: 0 <= i < |attempts| ==> InScope(attempts[i], sc)
    ensures Granted(s, ctl, lim, size, attempts) == 0 && After(s, ctl, lim, size, attempts) == s
    decreases |attempts|
  {
    if attempts != [] {
      assert !Wins(s, ctl, lim, size, attempts[0]);
      NobodyWins(s, ctl, lim, size, sc, attempts[1..]);
    }
  }

  /** n equal reservations race for one limit (the deployed ceiling, one token's, or one trader's) that
      the others leave to decide: min(n, room) of them are granted, in any order. */
  lemma {:induction false} RaceCount(s: Ledger, ctl: Control, lim: Limits, size: real, sc: Scope,
                                     attempts: seq<Attempt>)
    requires size > 0.0
    requires OthersSlack(s, ctl, lim, size, sc, attempts, Winners(s, lim, size, sc, attempts))
    requires forall i :: 0 <= i < |attempts| ==> InScope(attempts[i], sc)
    ensures Granted(s, ctl, lim, size, attempts) == Winners(s, lim, size, sc, attempts)
    ensures Shown(After(s, ctl, lim, size, attempts), sc)
         == Shown(s, sc) + Times(Winners(s, lim, size, sc, attempts), size)
    decreases |attempts|
  {
    var n := Winners(s, lim, size, sc, attempts);
    if attempts != [] {
      if Fits(s, lim, sc, size) {
        RoomShrinks(Shown(s, sc), Ceiling(s, lim, sc), size);
        FirstWins(s, ctl, lim, size, sc, attempts, n);
        SlackNext(s, ctl, lim, size, sc, attempts, n);
        ShownNext(s, ctl, lim, size, attempts[0], sc);
        RaceCount(Next(s, ctl, lim, size, attempts[0]), ctl, lim, size, sc, attempts[1..]);
      } else {
        NobodyWins(s, ctl, lim, size, sc, attempts);
      }
    }
  }

  lemma {:induction false} CountSome(attempts: seq<Attempt>, sc: Scope) returns (i: nat)
    requires Count(attempts, sc) > 0
    ensures i < |attempts| && InScope(attempts[i], sc)
  {
    if InScope(attempts[0], sc) { i := 0; } else { i := CountSome(attempts[1..], sc); i := i + 1; }
  }

  /** 5 percent a token, 15 a trader, 60 in all, and no more than 5 at once. */
  const LIMITS := Limits(5.0, 20.0, 60.0, 20, 5, 5.0, 15.0, 10.0)

  lemma FreshCeilings(sc: Scope)
    ensures Shown(Fresh(1000.0), sc) == 0.0
    ensures Ceiling(Fresh(1000.0), LIMITS, sc)
         == match sc case Everything => 600.0 case OfToken(_) => 50.0 case OfTrader(_) => 150.0
  {
  }

  const RUNNING := Control(false, Some("running"))

  lemma FreshOpens()
    ensures ControlRefusal(RUNNING) == None && BreakersClosed(Fresh(1000.0), LIMITS)
  {
    RunningPasses();
    FreshBreakers(1000.0, LIMITS);
  }

  lemma FreshFits(a: Attempt, b: Attempt, other: Scope)
    requires a.mint == b.mint && other != OfToken(a.mint) && Count([a, b], other) > 0
    ensures Fits(Fresh(1000.0), LIMITS, other, 50.0)
  {
    var i := CountSome([a, b], other);
    FreshCeilings(other);
  }

  /** The race the script was written against: two signals buy one untouched token at once, each at the
      full token cap. One of them gets it. */
  lemma TwoBuysOneCap(a: Attempt, b: Attempt)
    requires a.mint == b.mint && a.id != b.id
    ensures Granted(Fresh(1000.0), RUNNING, LIMITS, 50.0, [a, b]) == 1
  {
    var s, sc, both := Fresh(1000.0), OfToken(a.mint), [a, b];
    FreshCeilings(sc);
    RoomShrinks(0.0, 50.0, 50.0);
    assert Winners(s, LIMITS, 50.0, sc, both) == 1;
    assert Times(1, 50.0) == 50.0;
    assert OthersSlack(s, RUNNING, LIMITS, 50.0, sc, both, 1) by {
      FreshOpens();
      forall other: Scope | other != sc && Count(both, other) > 0
        ensures Fits(s, LIMITS, other, Times(MinNat(1, Count(both, other)), 50.0))
      {
        FreshFits(a, b, other);
      }
    }
    RaceCount(s, RUNNING, LIMITS, 50.0, sc, both);
  }
}
