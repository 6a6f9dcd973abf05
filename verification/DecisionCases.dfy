/** Concrete decisions under the engine's default settings (src/asm/config.py): a confirmed signal that
    overflows its share of the book, and, where a token is given less room than by default, a worse signal
    that reserves more than the better one. */
module DecisionCases {
  import opened Numeric
  import opened Domain
  import opened Ledger
  import opened Gates
  import opened Decision
  import opened LiquidityShare
  import LL = LedgerLimits

  const RULES := CopyRules(60.0, 50.0, 55.0, 1.0, 3.0, 5.0, 8.0, 0.5, 0.25, 15000, 25000.0, 1.0, 3.0, 1.0,
                           50000.0, 500000000.0, 300, 3600, 0.5, 40, 10.0)

  const SIZES := SizeRules(0.75, 2.0, 10.0)

  const TRADER := Trader(Active, 100.0, 100.0, 100.0, 1.0, None, None, None, None, 0, 0.0, 0.0)

  const PORTFOLIO := Portfolio(50000.0, 50000.0)

  /** A buy at 1.0 SOL, seen at once while SOL is at 100 dollars, with an impact of one percent. */
  function Case(price: real, liquidity: real, confirmations: nat): Signal {
    Signal(TRADER, true, 1.0, true, 1000.0, 0, 0, Market(price, 100.0 * price, liquidity, 0.0, None, false),
           Some(TokenRisk(false, false, 10, false)), Some(1.0), 100.0, confirmations)
  }

  lemma CaseGates(price: real, liquidity: real, confirmations: nat)
    requires price == 1.0 || price == 1.04
    ensures var c := Case(price, liquidity, confirmations);
            && TraderGate(c, RULES) == Pass(1.0) && LatencyGate(c, RULES) == Pass(1.0)
            && PriceChaseGate(c, RULES) == Pass(if price == 1.0 then 1.0 else 0.5)
            && MarketCapGate(c, RULES) == Pass(1.0) && TokenAgeGate(c, RULES) == Pass(1.0)
            && TokenSafetyGate(c, RULES) == Pass(1.0) && SlippageGate(c, RULES) == Pass(1.0)
  {
    assert PctChange(1.0, price) == if price == 1.0 then 0.0 else 4.0;
  }

  lemma EightMultipliers(x: real, y: real)
    ensures var results := [Pass(1.0), Pass(x), Pass(1.0), Pass(1.0), Pass(1.0), Pass(1.0), Pass(1.0), Pass(y)];
            AllPass(results) && Multiplier(results) == x * y
  {
    var one := Pass(1.0);
    LastMultiplier([], one);
    assert [] + [one] == [one];
    LastMultiplier([one], Pass(x));
    assert [one] + [Pass(x)] == [one, Pass(x)];
    Ones([one, Pass(x)], 5);
    LastMultiplier([one, Pass(x)] + [one, one, one, one, one], Pass(y));
    assert [one, Pass(x)] + [one, one, one, one, one] + [Pass(y)]
        == [one, Pass(x), one, one, one, one, one, Pass(y)];
  }

  lemma Ones(results: seq<GateResult>, n: nat)
    requires n == 5
    ensures var one: GateResult := Pass(1.0);
            Multiplier(results + [one, one, one, one, one]) == Multiplier(results)
  {
    var one: GateResult := Pass(1.0);
    var r1 := results + [one];
    var r2 := r1 + [one];
    var r3 := r2 + [one];
    var r4 := r3 + [one];
    LastMultiplier(results, one);
    LastMultiplier(r1, one);
    LastMultiplier(r2, one);
    LastMultiplier(r3, one);
    LastMultiplier(r4, one);
    assert r4 + [one] == results + [one, one, one, one, one];
  }

  lemma SweepAsks(results: seq<GateResult>, multiplier: real)
    requires AllPass(results) && Multiplier(results) == multiplier && 10.0 <= Scaled(375.0, multiplier) <= 1000.0
    ensures Decision.Sweep(results, 375.0, PORTFOLIO, SIZES) == Ask(Cents(Scaled(375.0, multiplier)), multiplier)
  {
    CentsNear(Scaled(375.0, multiplier));
  }

  lemma CaseBase(c: Signal)
    requires c.trader == TRADER
    ensures BaseSize(c, PORTFOLIO, ConfidenceWeighted, SIZES) == Some(375.0)
    ensures FinalSize(375.0, 1.0, PORTFOLIO, SIZES) == 375.0
  {
    assert Weight(100.0) == 1.0;
    assert TraderSize(TRADER, c.sourceValueUsd, PORTFOLIO, ConfidenceWeighted, SIZES)
        == Some(375.0 * Weight(100.0) * Weight(100.0) * Weight(100.0));
    assert Cents(375.0) == 375.0;
  }

  function PriceShare(price: real): real { if price == 1.0 then 1.0 else 0.5 }

  function Bonus(confirmations: nat): real { if confirmations >= 2 then 1.25 else 1.0 }

  lemma CaseSignalGates(price: real, liquidity: real, confirmations: nat)
    requires price == 1.0 || price == 1.04
    ensures var results := SignalGates(Case(price, liquidity, confirmations), RULES);
            AllPass(results) && Multiplier(results) == PriceShare(price) * Bonus(confirmations)
  {
    CaseGates(price, liquidity, confirmations);
    EightMultipliers(PriceShare(price), Bonus(confirmations));
  }

  /** The plan of a case, when the liquidity gate passes with `share`. */
  lemma CasePlan(price: real, liquidity: real, confirmations: nat, share: real, multiplier: real)
    requires price == 1.0 || price == 1.04
    requires LiquidityGate(Case(price, liquidity, confirmations), RULES, 375.0) == Pass(share)
    requires multiplier == Scaled(PriceShare(price) * Bonus(confirmations), share)
    requires 10.0 <= Scaled(375.0, multiplier) <= 1000.0
    ensures PlanEntry(Case(price, liquidity, confirmations), PORTFOLIO, ConfidenceWeighted, RULES, SIZES)
         == Ask(Cents(Scaled(375.0, multiplier)), multiplier)
  {
    var c := Case(price, liquidity, confirmations);
    CaseBase(c);
    CaseSignalGates(price, liquidity, confirmations);
    LastMultiplier(SignalGates(c, RULES), Pass(share));
    SweepAsks(SignalGates(c, RULES) + [Pass(share)], multiplier);
  }

  /** Two confirmations are enough to overflow the book under the default settings. A base of 375 meets a
      book with room for 300, is cut to 300, and the bonus of a quarter puts 375 back. */
  lemma BonusOverflowsTheBook()
    ensures LiquidityRoom(Case(1.0, 30000.0, 2), RULES) == 300.0
    ensures PlanEntry(Case(1.0, 30000.0, 2), PORTFOLIO, ConfidenceWeighted, RULES, SIZES) == Ask(375.0, 1.0)
  {
    assert Cents(375.0) == 375.0;
    CasePlan(1.0, 30000.0, 2, 0.8, 1.0);
  }

  /** Half a percent of equity a token, the default limits otherwise. */
  const LIMITS := Limits(5.0, 20.0, 60.0, 20, 5, 0.5, 15.0, 10.0)

  lemma HeadroomOfFresh(mint: Mint, wallet: Wallet)
    ensures Headroom(Fresh(50000.0), LIMITS, mint, wallet) == 250.0
    ensures OpenFor(Fresh(50000.0), Control(false, Some("running")), LIMITS)
  {
    LL.FreshBreakers(50000.0, LIMITS);
  }

  /** A price 4 percent up halves the size, and only the half fits the token's room: the better signal
      reserves nothing, the worse one 187.50. */
  lemma WorseReservesMore(mint: Mint, wallet: Wallet)
    ensures var c, d := Case(1.0, 100000.0, 0), Case(1.04, 100000.0, 0);
            var s, ctl := Fresh(50000.0), Control(false, Some("running"));
            && Worse(c, d)
            && PlanEntry(c, Snapshot(s), ConfidenceWeighted, RULES, SIZES) == Ask(375.0, 1.0)
            && PlanEntry(d, Snapshot(s), ConfidenceWeighted, RULES, SIZES) == Ask(187.5, 0.5)
            && Reserved(s, ctl, LIMITS, mint, wallet, 375.0) == 0.0
            && Reserved(s, ctl, LIMITS, mint, wallet, 187.5) == 187.5
  {
    assert Snapshot(Fresh(50000.0)) == PORTFOLIO;
    assert Cents(375.0) == 375.0 && Cents(187.5) == 187.5;
    CasePlan(1.0, 100000.0, 0, 1.0, 1.0);
    CasePlan(1.04, 100000.0, 0, 1.0, 0.5);
    HeadroomOfFresh(mint, wallet);
    GrantedWithinHeadroom(Fresh(50000.0), Control(false, Some("running")), LIMITS, mint, wallet, 375.0);
    GrantedWithinHeadroom(Fresh(50000.0), Control(false, Some("running")), LIMITS, mint, wallet, 187.5);
  }
}
