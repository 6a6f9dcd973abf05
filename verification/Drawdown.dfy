/** The drawdown meter of a backtest (src/asm/backtest/engine.py) and the ledger's high-water mark
    (src/asm/state/scripts.py): one pass over the equity curve against the definition that compares
    every point with every later one. */
module Drawdown {
  import opened Numeric
  import opened Ledger
  import LB = LedgerBook

  /** Percent lost from one equity to another. */
  function Fall(high: real, low: real): real { if high > 0.0 then (high - low) / high * 100.0 else 0.0 }

  datatype Meter = Meter(peak: real, maxPct: real)

  function Observe(m: Meter, equity: real): Meter {
    var peak := if equity > m.peak then equity else m.peak;
    var dd := Fall(peak, equity);
    Meter(peak, if peak > 0.0 && dd > m.maxPct then dd else m.maxPct)
  }

  /** The meter after a whole curve, the starting capital being its first point. */
  function Online(curve: seq<real>): Meter
    requires curve != []
  {
    if |curve| == 1 then Meter(curve[0], 0.0)
    else Observe(Online(curve[..|curve| - 1]), curve[|curve| - 1])
  }

  ghost predicate IsHighest(m: real, xs: seq<real>) {
    m in xs && forall i :: 0 <= i < |xs| ==> xs[i] <= m
  }

  ghost predicate IsWorstFall(worst: real, curve: seq<real>) {
    && (exists i, j :: 0 <= i <= j < |curve| && worst == Fall(curve[i], curve[j]))
    && forall i, j :: 0 <= i <= j < |curve| ==> Fall(curve[i], curve[j]) <= worst
  }

  /** For equity that is not negative, a higher starting point means a deeper fall. */
  lemma FallOrder(lower: real, higher: real, low: real)
    requires 0.0 < lower <= higher && low >= 0.0
    ensures Fall(lower, low) <= Fall(higher, low)
  {
    QuotientOrder(low, lower, higher);
    FallIsRest(lower, low);
    FallIsRest(higher, low);
  }

  lemma FallIsRest(high: real, low: real)
    requires high > 0.0
    ensures Fall(high, low) == (1.0 - low / high) * 100.0
  {
    Quotient(high - low, high);
    Quotient(low, high);
    MulCancel((high - low) / high, 1.0 - low / high, high);
  }

  lemma FallNonNegative(high: real, low: real)
    requires high >= low
    ensures Fall(high, low) >= 0.0
  {
    if high > 0.0 { assert (high - low) / high >= 0.0; }
  }

  ghost predicate NeverNegative(curve: seq<real>) {
    forall i :: 0 <= i < |curve| ==> curve[i] >= 0.0
  }

  lemma {:induction false} PeakIsHighest(curve: seq<real>)
    requires curve != []
    ensures IsHighest(Online(curve).peak, curve)
  {
    var n := |curve| - 1;
    if n > 0 {
      PeakIsHighest(curve[..n]);
      var before := Online(curve[..n]).peak;
      var at :| 0 <= at < n && curve[..n][at] == before;
      assert curve[at] == before;
      forall i | 0 <= i < |curve| ensures curve[i] <= Online(curve).peak {
        if i < n { assert curve[..n][i] == curve[i]; }
      }
    }
  }

  /** The single pass finds the worst fall between any two points in order, for every curve that starts
      with capital and never goes below zero. */
  lemma {:induction false} OnlineIsOffline(curve: seq<real>)
    requires curve != [] && curve[0] > 0.0 && NeverNegative(curve)
    ensures IsWorstFall(Online(curve).maxPct, curve)
  {
    var n := |curve| - 1;
    if n == 0 {
      assert Fall(curve[0], curve[0]) == 0.0;
    } else {
      var shorter := curve[..n];
      OnlineIsOffline(shorter);
      PeakIsHighest(curve);
      WitnessesExtend(curve, Online(shorter).maxPct);
      var now := Online(curve);
      var at :| 0 <= at <= n && curve[at] == now.peak;
      assert curve[0] <= now.peak;
      forall i, j | 0 <= i <= j < |curve| ensures Fall(curve[i], curve[j]) <= now.maxPct {
        if j < n {
          assert shorter[i] == curve[i] && shorter[j] == curve[j];
        } else {
          LastFall(curve, i, now.peak);
        }
      }
    }
  }

  lemma LastFall(curve: seq<real>, i: nat, peak: real)
    requires i < |curve| && NeverNegative(curve) && IsHighest(peak, curve)
    ensures Fall(curve[i], curve[|curve| - 1]) <= Fall(peak, curve[|curve| - 1])
  {
    var last := curve[|curve| - 1];
    assert last >= 0.0 && curve[i] <= peak;
    if curve[i] > 0.0 { FallOrder(curve[i], peak, last); } else { FallNonNegative(peak, last); }
  }

  lemma WitnessesExtend(curve: seq<real>, worst: real)
    requires |curve| > 1 && IsWorstFall(worst, curve[..|curve| - 1])
    ensures exists i, j :: 0 <= i <= j < |curve| - 1 && worst == Fall(curve[i], curve[j])
  {
    var shorter := curve[..|curve| - 1];
    var i, j :| 0 <= i <= j < |shorter| && worst == Fall(shorter[i], shorter[j]);
    assert worst == Fall(curve[i], curve[j]);
  }

  // ---------------------------------------------------------------- equity a little below zero

  function Floored(curve: seq<real>): (floor: seq<real>)
    ensures |floor| == |curve| && forall i :: 0 <= i < |curve| ==> floor[i] == Max(curve[i], 0.0)
  {
    seq(|curve|, i requires 0 <= i < |curve| => Max(curve[i], 0.0))
  }

  lemma FallBelowZero(peak: real, low: real, slack: real, capital: real)
    requires peak >= capital > 0.0 && low >= -slack && slack >= 0.0
    ensures 0.0 <= Fall(peak, low) - Fall(peak, Max(low, 0.0)) <= slack / capital * 100.0
  {
    FallIsRest(peak, low);
    FallIsRest(peak, Max(low, 0.0));
    QuotientOrder(slack, capital, peak);
    if low < 0.0 {
      QuotientOrder(-low, peak, peak);
      Quotient(-low, peak);
      Quotient(low, peak);
      MulCancel(low / peak, -(-low / peak), peak);
      QuotientRises(-low, slack, peak);
    }
  }

  lemma QuotientRises(x: real, y: real, k: real)
    requires k > 0.0 && x <= y
    ensures x / k <= y / k
  {
    QuotientOrder(y - x, k, k);
    assert y / k - x / k == (y - x) / k;
  }

  lemma {:induction false} FlooredMeter(curve: seq<real>, slack: real)
    requires curve != [] && curve[0] > 0.0 && slack >= 0.0 && forall i :: 0 <= i < |curve| ==> curve[i] >= -slack
    ensures Online(Floored(curve)).peak == Online(curve).peak >= curve[0]
    ensures 0.0 <= Online(curve).maxPct - Online(Floored(curve)).maxPct <= slack / curve[0] * 100.0
  {
    var n := |curve| - 1;
    QuotientOrder(slack, curve[0], curve[0]);
    if n > 0 {
      FlooredMeter(curve[..n], slack);
      assert Floored(curve)[..n] == Floored(curve[..n]);
      FallBelowZero(Online(curve).peak, curve[n], slack, curve[0]);
    }
  }

  /** When equity may dip below zero by no more than `slack`, the meter reports the worst fall of the curve
      floored at zero, and at most the slack's share of the first equity on top; nothing on top when it
      does not dip at all. */
  lemma MeterWithinSlack(curve: seq<real>, slack: real)
    requires curve != [] && curve[0] > 0.0 && slack >= 0.0 && forall i :: 0 <= i < |curve| ==> curve[i] >= -slack
    ensures IsWorstFall(Online(Floored(curve)).maxPct, Floored(curve))
    ensures 0.0 <= Online(curve).maxPct - Online(Floored(curve)).maxPct <= slack / curve[0] * 100.0
    ensures NeverNegative(curve) ==> Floored(curve) == curve
  {
    FlooredMeter(curve, slack);
    OnlineIsOffline(Floored(curve));
  }

  // ---------------------------------------------------------------- the ledger's high-water mark

  /** The equities marked during a run. */
  ghost function MarkedEquities(b: LB.Book, lim: Limits, ops: seq<LB.Op>): seq<real>
    requires LB.LegalRun(b, lim, ops)
    decreases |ops|
  {
    if ops == [] then []
    else
      var next := LB.Apply(b, lim, ops[0]);
      (if ops[0].Mark? then [next.ledger.equity] else []) + MarkedEquities(next, lim, ops[1..])
  }

  /** Whatever else happens to the ledger, its high-water mark is the maximum of the value it started
      with and every equity marked since. */
  lemma {:induction false} HighWaterMark(b: LB.Book, lim: Limits, ops: seq<LB.Op>)
    requires LB.LegalRun(b, lim, ops)
    ensures IsMaximum(LB.Run(b, lim, ops).ledger.hwm, b.ledger.hwm, MarkedEquities(b, lim, ops))
    decreases |ops|
  {
    if ops != [] {
      var next := LB.Apply(b, lim, ops[0]);
      HighWaterMark(next, lim, ops[1..]);
      if ops[0].Mark? {
        MaximumOfMore(LB.Run(b, lim, ops).ledger.hwm, b.ledger.hwm, next.ledger.equity,
                      MarkedEquities(next, lim, ops[1..]));
      }
    }
  }
}
