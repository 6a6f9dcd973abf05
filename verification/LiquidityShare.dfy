/** How the final size compares with the share of the book it may take (src/asm/engine/decision.py,
    src/asm/engine/gates.py, src/asm/engine/sizing.py). The liquidity gate fits the provisional size
    into the book, but what is bought is the uncapped base times all multipliers, capped afterwards. */
module LiquidityShare {
  import opened Numeric
  import opened Gates
  import opened Decision

  // ---------------------------------------------------------------- rounding into a room

  /** An amount rounds into a room when it is below the room's whole cents plus half a cent; on that
      point itself the tie goes down when the cents are even. */
  function Reach(room: real): real { ((room * 100.0).Floor as real + 0.5) / 100.0 }

  predicate EvenCents(room: real) { (room * 100.0).Floor % 2 == 0 }

  predicate UpTo(x: real, limit: real, tie: bool) { x < limit || (tie && x == limit) }

  lemma CentsWithin(x: real, room: real)
    ensures Cents(x) <= room <==> UpTo(x, Reach(room), EvenCents(room))
  {
    var y, cents := x * 100.0, (room * 100.0).Floor;
    assert RoundHalfEven(y) <= cents <==> y < cents as real + 0.5 || (y == cents as real + 0.5 && cents % 2 == 0);
    assert Cents(x) <= room <==> RoundHalfEven(y) as real <= room * 100.0;
  }

  /** How much more than the room may be wanted, because the gate shrinks in the proportion of the room
      to the provisional size. */
  function Stretch(provisional: real, room: real): real
    requires room > 0.0
  {
    if provisional > room then provisional / room else 1.0
  }

  lemma UpToScales(x: real, limit: real, k: real, tie: bool)
    requires k > 0.0
    ensures UpTo(x, limit, tie) <==> UpTo(x * k, limit * k, tie)
  {
    if x < limit { MulLess(x, limit, k); }
    if x > limit { MulLess(limit, x, k); }
  }

  lemma Inverse(provisional: real, room: real)
    requires provisional > 0.0 && room > 0.0
    ensures (room / provisional) * (provisional / room) == 1.0
  {
    Quotient(room, provisional);
    Quotient(provisional, room);
    var x, y := room / provisional, provisional / room;
    assert x * provisional == room && y * room == provisional;
    assert (x * y) * room == x * (y * room);
    MulCancel(x * y, 1.0, room);
  }

  /** A wanted amount shrunk in that proportion rounds into the room just when it is within the stretch. */
  lemma ShrunkWithin(wanted: real, provisional: real, room: real, size: real)
    requires provisional > 0.0 && room > 0.0
    requires size == Scaled(wanted, if provisional > room then room / provisional else 1.0)
    ensures Cents(size) <= room <==> UpTo(wanted, Reach(room) * Stretch(provisional, room), EvenCents(room))
  {
    CentsWithin(size, room);
    if provisional > room {
      var shrink, stretch := room / provisional, provisional / room;
      Inverse(provisional, room);
      StretchPositive(provisional, room);
      UpToScales(size, Reach(room), stretch, EvenCents(room));
      Regroup(wanted, shrink, stretch);
    }
  }

  lemma StretchPositive(provisional: real, room: real)
    requires provisional > 0.0 && room > 0.0
    ensures provisional / room > 0.0
  {
    Quotient(provisional, room);
    if provisional / room <= 0.0 { MulMono(room, provisional / room, 0.0); }
  }

  /** Rounding a minimum, into a room: one of the two has to round into it. */
  lemma SmallerWithin(x: real, y: real, room: real)
    ensures Cents(Min(x, y)) <= room <==> Cents(x) <= room || Cents(y) <= room
  {
    if x <= y { CentsMonotone(x, y); } else { CentsMonotone(y, x); }
  }

  // ---------------------------------------------------------------- from gate to size

  lemma LastMultiplier(results: seq<GateResult>, last: GateResult)
    requires last.Pass?
    ensures Multiplier(results + [last]) == Scaled(Multiplier(results), last.mult)
  {
    assert (results + [last])[..|results|] == results;
  }

  lemma PassingLast(results: seq<GateResult>, last: GateResult)
    requires AllPass(results + [last])
    ensures last.Pass?
  {
    assert (results + [last])[|results|] == last;
  }

  /** A passing liquidity gate shrinks in the proportion of the room to the intended size. */
  lemma GateShrinks(c: Signal, gates: CopyRules, intended: real)
    requires intended > 0.0 && gates.maxPctOfLiquidity > 0.0 && LiquidityGate(c, gates, intended).Pass?
    ensures var room := LiquidityRoom(c, gates);
            room > 0.0 && LiquidityGate(c, gates, intended).mult == if intended > room then room / intended else 1.0
  {
    ShareIsRoom(c, gates, intended);
    MulLess(0.0, gates.maxPctOfLiquidity, c.market.liquidityUsd);
  }

  /** What the gates but the last leave of the base. */
  function Wanted(c: Signal, gates: CopyRules, base: real): real { Scaled(base, Multiplier(SignalGates(c, gates))) }

  /** The size of a sweep is within the liquidity share exactly when what is wanted is within the stretch,
      or the caps are within the room anyway; half a cent of rounding included. */
  ghost predicate FitsExactly(size: real, wanted: real, provisional: real, room: real, caps: real) {
    room > 0.0
    && (size <= room <==> || UpTo(wanted, Reach(room) * Stretch(provisional, room), EvenCents(room))
                          || UpTo(caps, Reach(room), EvenCents(room)))
  }

  lemma SizeFits(wanted: real, shrunk: real, provisional: real, room: real, caps: real)
    requires provisional > 0.0 && room > 0.0
    requires shrunk == Scaled(wanted, if provisional > room then room / provisional else 1.0)
    ensures FitsExactly(Cents(Min(shrunk, caps)), wanted, provisional, room, caps)
  {
    SmallerWithin(shrunk, caps, room);
    ShrunkWithin(wanted, provisional, room, shrunk);
    CentsWithin(caps, room);
  }

  function Caps(p: Portfolio, cfg: SizeRules): real { Min(Cap(p, cfg), p.cash) }

  lemma RoundedFits(wanted: real, shrunk: real, provisional: real, room: real, p: Portfolio, cfg: SizeRules)
    requires provisional > 0.0 && room > 0.0
    requires shrunk == Scaled(wanted, if provisional > room then room / provisional else 1.0)
    requires Rounded(Capped(shrunk, p, cfg), cfg) > 0.0
    ensures FitsExactly(Rounded(Capped(shrunk, p, cfg), cfg), wanted, provisional, room, Caps(p, cfg))
  {
    assert Capped(shrunk, p, cfg) == Min(shrunk, Caps(p, cfg));
    SizeFits(wanted, shrunk, provisional, room, Caps(p, cfg));
  }

  lemma SweepSize(results: seq<GateResult>, base: real, amount: real, p: Portfolio, cfg: SizeRules)
    requires Sweep(results, base, p, cfg).Ask? && amount == Scaled(base, Multiplier(results))
    ensures Sweep(results, base, p, cfg).size == Rounded(Capped(amount, p, cfg), cfg) > 0.0
  {
  }

  lemma ResultsFit(others: seq<GateResult>, last: GateResult, base: real, provisional: real, room: real,
                   p: Portfolio, cfg: SizeRules)
    requires provisional > 0.0 && room > 0.0 && last.Pass?
    requires last.mult == if provisional > room then room / provisional else 1.0
    requires Sweep(others + [last], base, p, cfg).Ask?
    ensures FitsExactly(Sweep(others + [last], base, p, cfg).size, Scaled(base, Multiplier(others)), provisional, room,
                        Caps(p, cfg))
  {
    LastMultiplier(others, last);
    var wanted := Scaled(base, Multiplier(others));
    var shrunk := Scaled(wanted, last.mult);
    ScaledTwice(base, Multiplier(others), last.mult);
    SweepSize(others + [last], base, shrunk, p, cfg);
    RoundedFits(wanted, shrunk, provisional, room, p, cfg);
  }

  lemma SweepFits(c: Signal, base: real, provisional: real, p: Portfolio, gates: CopyRules, cfg: SizeRules)
    requires provisional > 0.0 && gates.maxPctOfLiquidity > 0.0
    requires Sweep(EntryGates(c, gates, provisional), base, p, cfg).Ask?
    ensures FitsExactly(Sweep(EntryGates(c, gates, provisional), base, p, cfg).size, Wanted(c, gates, base),
                        provisional, LiquidityRoom(c, gates), Caps(p, cfg))
  {
    PassingLast(SignalGates(c, gates), LiquidityGate(c, gates, provisional));
    GateShrinks(c, gates, provisional);
    ResultsFit(SignalGates(c, gates), LiquidityGate(c, gates, provisional), base, provisional,
               LiquidityRoom(c, gates), p, cfg);
  }

  lemma Regroup(x: real, y: real, z: real)
    ensures x * (y * z) == (x * y) * z
  {
  }

  lemma PlanIsSweep(c: Signal, p: Portfolio, mode: SizingMode, gates: CopyRules, cfg: SizeRules)
    requires PlanEntry(c, p, mode, gates, cfg).Ask?
    ensures BaseSize(c, p, mode, cfg).Some?
    ensures var base := BaseSize(c, p, mode, cfg).value;
            var provisional := FinalSize(base, 1.0, p, cfg);
            provisional > 0.0
            && PlanEntry(c, p, mode, gates, cfg) == Sweep(EntryGates(c, gates, provisional), base, p, cfg)
  {
  }

  /** The size a decision asks for is within the liquidity share if and only if the base times the other
      multipliers is within the stretch of the room, or the caps are within the room. */
  lemma FitsTheBookExactlyWhen(c: Signal, p: Portfolio, mode: SizingMode, gates: CopyRules, cfg: SizeRules)
    requires PlanEntry(c, p, mode, gates, cfg).Ask? && gates.maxPctOfLiquidity > 0.0
    ensures BaseSize(c, p, mode, cfg).Some?
    ensures var base := BaseSize(c, p, mode, cfg).value;
            FitsExactly(PlanEntry(c, p, mode, gates, cfg).size, Wanted(c, gates, base),
                        FinalSize(base, 1.0, p, cfg), LiquidityRoom(c, gates), Caps(p, cfg))
  {
    PlanIsSweep(c, p, mode, gates, cfg);
    var base := BaseSize(c, p, mode, cfg).value;
    SweepFits(c, base, FinalSize(base, 1.0, p, cfg), p, gates, cfg);
  }
}
