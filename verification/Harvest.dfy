/** Profit harvesting (src/asm/engine/harvest.py): when equity has gained enough on a stored
    baseline, a share of the gain leaves for the treasury and the baseline moves up. */
module Harvest {
  import opened Numeric
  import opened Ledger

  datatype HarvestRules = HarvestRules(thresholdPct: real, takePct: real, minActive: real, startingCapital: real)

  datatype Decision =
    | NoBaseline
    | BelowThreshold(profit: real)
    | NoFreeCash(profit: real)
    | Harvest(amount: real, retained: real, profit: real, newHwm: real)

  function Share(rules: HarvestRules, gain: real): real { Percent(gain, rules.takePct) }

  /** The amount before rounding: the share, cut to the capital floor, cut to free cash. */
  function RawAmount(rules: HarvestRules, equity: real, cash: real, baseline: real): real {
    var share := Share(rules, equity - baseline);
    Min(if equity - share < rules.minActive then Max(0.0, equity - rules.minActive) else share, cash)
  }

  function EvaluateHarvest(rules: HarvestRules, equity: real, cash: real, baseline: real): Decision {
    if baseline <= 0.0 then NoBaseline
    else if (equity - baseline) / baseline * 100.0 < rules.thresholdPct then BelowThreshold(equity - baseline)
    else
      var profit := equity - baseline;
      var raw := RawAmount(rules, equity, cash, baseline);
      if raw <= 0.0 then NoFreeCash(profit)
      else Harvest(Cents(raw), Cents(profit - raw), profit, equity - raw)
  }

  // ---------------------------------------------------------------- stored state

  /** The ledger and the stored baseline, absent until the first evaluation. */
  datatype Desk = Desk(ledger: Ledger, baseline: Option<real>)

  function Equity(s: Ledger): real { s.cash + s.deployed + s.unrealized }

  function Base(d: Desk, rules: HarvestRules): real {
    match d.baseline case Some(v) => v case None => rules.startingCapital
  }

  /** The trigger leaves unrealized results out. */
  function DecisionOf(d: Desk, rules: HarvestRules): Decision {
    EvaluateHarvest(rules, Equity(d.ledger) - d.ledger.unrealized, d.ledger.cash, Base(d, rules))
  }

  /** The treasury refuses an amount that is not positive; otherwise the transfer went out or not. */
  predicate Harvests(d: Desk, rules: HarvestRules, sent: bool) {
    DecisionOf(d, rules).Harvest? && DecisionOf(d, rules).amount > 0.0 && sent
  }

  function AfterAttempt(d: Desk, rules: HarvestRules, sent: bool): Desk {
    if Harvests(d, rules, sent) then
      var amount := DecisionOf(d, rules).amount;
      Desk(AfterHarvest(d.ledger, amount), Some(Equity(d.ledger) - amount))
    else d.(baseline := Some(Base(d, rules)))
  }

  class Harvester {
    const ledger: RiskLedger
    var baseline: Option<real>

    constructor (risk: RiskLedger)
      ensures ledger == risk && baseline == None
    {
      ledger, baseline := risk, None;
    }

    ghost function State(): Desk
      reads this, ledger
    {
      Desk(ledger.State(), baseline)
    }

    /** One timer tick. `sent` is whether the treasury's transfer succeeded. */
    method MaybeHarvest(rules: HarvestRules, sent: bool) returns (harvested: bool)
      modifies this`baseline, ledger
      ensures State() == AfterAttempt(old(State()), rules, sent)
      ensures harvested == Harvests(old(State()), rules, sent)
      ensures !harvested ==> ledger.State() == old(ledger.State())
      ensures !sent ==> !harvested && Base(State(), rules) == old(Base(State(), rules))
    {
      var total := ledger.risk.cash + ledger.risk.deployed + ledger.risk.unrealized;
      if baseline.None? { baseline := Some(rules.startingCapital); }
      var decision :=
        EvaluateHarvest(rules, total - ledger.risk.unrealized, ledger.risk.cash, baseline.value);
      if !decision.Harvest? { return false; }
      if decision.amount <= 0.0 { return false; }
      if !sent { return false; }
      ledger.AddHarvest(decision.amount);
      baseline := Some(total - decision.amount);
      return true;
    }
  }

  // ---------------------------------------------------------------- one harvest

  predicate SaneTake(rules: HarvestRules) { 0.0 <= rules.takePct <= 100.0 }

  lemma ShareSplits(rules: HarvestRules, x: real, y: real)
    ensures Share(rules, x + y) == Share(rules, x) + Share(rules, y)
  {
    PercentSplits(x, y, rules.takePct);
  }

  lemma ShareOrder(rules: HarvestRules, x: real, y: real)
    requires SaneTake(rules) && x <= y
    ensures Share(rules, x) <= Share(rules, y)
  {
    PercentOrder(x, y, rules.takePct);
  }

  lemma ShareIsPart(rules: HarvestRules, x: real)
    requires SaneTake(rules) && x >= 0.0
    ensures 0.0 <= Share(rules, x) <= x
  {
    PercentIsPart(x, rules.takePct);
  }

  /** How far a harvest's rounded amount is above the exact one. */
  function Excess(d: Decision, equity: real): real
    requires d.Harvest?
  {
    d.amount - (equity - d.newHwm)
  }

  /** Each harvested amount is within half a cent of every limit: its share of the gain, free cash
      and the capital floor. */
  lemma HarvestWithinLimits(rules: HarvestRules, equity: real, cash: real, baseline: real)
    requires SaneTake(rules) && EvaluateHarvest(rules, equity, cash, baseline).Harvest?
    ensures var d := EvaluateHarvest(rules, equity, cash, baseline);
            && -0.005 <= Excess(d, equity) <= 0.005
            && d.amount - Excess(d, equity) <= Share(rules, equity - baseline)
            && d.amount <= cash + 0.005
            && equity - d.amount >= rules.minActive - 0.005
            && equity > baseline && d.newHwm >= baseline
  {
    var raw := RawAmount(rules, equity, cash, baseline);
    CentsNear(raw);
    if equity <= baseline { ShareOrder(rules, equity - baseline, 0.0); }
    ShareIsPart(rules, Max(0.0, equity - baseline));
  }

  lemma ThresholdMeans(equity: real, baseline: real, pct: real)
    requires baseline > 0.0
    ensures (equity - baseline) / baseline * 100.0 < pct <==> equity - baseline < Percent(baseline, pct)
  {
    var share, limit := (equity - baseline) / baseline, pct / 100.0;
    Quotient(equity - baseline, baseline);
    assert limit * baseline == Percent(baseline, pct);
    if share < limit { MulLess(share, limit, baseline); } else { MulMono(baseline, limit, share); }
  }

  /** Exactly when something is harvested: there is a baseline, equity gained the threshold on it, and the share, the
      capital floor and free cash leave something. */
  lemma HarvestsExactlyWhen(rules: HarvestRules, equity: real, cash: real, baseline: real)
    ensures var share := Percent(equity - baseline, rules.takePct);
            EvaluateHarvest(rules, equity, cash, baseline).Harvest?
            <==> && baseline > 0.0 && equity - baseline >= Percent(baseline, rules.thresholdPct) && cash > 0.0
                 && (if equity - share < rules.minActive then equity > rules.minActive else share > 0.0)
  {
    if baseline > 0.0 { ThresholdMeans(equity, baseline, rules.thresholdPct); }
  }

  /** What is harvested, in cents, is as much as one of the three allows: the share of the gain, what is above the
      capital floor, or free cash; and the equity left is the new mark. */
  lemma HarvestIsLargest(rules: HarvestRules, equity: real, cash: real, baseline: real)
    requires EvaluateHarvest(rules, equity, cash, baseline).Harvest?
    ensures var d := EvaluateHarvest(rules, equity, cash, baseline);
            var exact := equity - d.newHwm;
            && d.profit == equity - baseline
            && -0.005 <= d.amount - exact <= 0.005 && -0.005 <= d.retained - (d.profit - exact) <= 0.005
            && (exact == Percent(d.profit, rules.takePct) || d.newHwm == rules.minActive || exact == cash)
            && exact <= cash && d.newHwm >= rules.minActive
            && (exact == Percent(d.profit, rules.takePct) || exact < Percent(d.profit, rules.takePct))
  {
    var raw := RawAmount(rules, equity, cash, baseline);
    CentsNear(raw);
    CentsNear(equity - baseline - raw);
  }

  /** After a harvest the new baseline is below the old one exactly when the unrealized loss exceeds
      the profit that the harvest leaves behind. */
  lemma BaselineFallsExactlyWhen(d: Desk, rules: HarvestRules, sent: bool)
    requires SaneTake(rules) && Harvests(d, rules, sent)
    ensures var decision := DecisionOf(d, rules);
            Base(AfterAttempt(d, rules, sent), rules) < Base(d, rules)
            <==> d.ledger.unrealized < decision.amount - decision.profit
  {
  }

  /** With no unrealized loss it falls by the rounding at most. */
  lemma BaselineHolds(d: Desk, rules: HarvestRules, sent: bool)
    requires SaneTake(rules) && Harvests(d, rules, sent) && d.ledger.unrealized >= 0.0
    ensures var equity := Equity(d.ledger) - d.ledger.unrealized;
            Base(AfterAttempt(d, rules, sent), rules) >= Base(d, rules) - Excess(DecisionOf(d, rules), equity)
  {
    HarvestWithinLimits(rules, Equity(d.ledger) - d.ledger.unrealized, d.ledger.cash, Base(d, rules));
  }

  // ---------------------------------------------------------------- whole runs

  /** Between attempts trading may leave the ledger in any state; it never touches the harvested total. */
  datatype Step = Trade(after: Ledger) | Attempt(sent: bool)

  function AfterStep(d: Desk, rules: HarvestRules, step: Step): Desk {
    match step
    case Trade(after) => d.(ledger := after)
    case Attempt(sent) => AfterAttempt(d, rules, sent)
  }

  ghost predicate Allowed(d: Desk, rules: HarvestRules, step: Step) {
    match step
    case Trade(after) => after.harvestedTotal == d.ledger.harvestedTotal
    case Attempt(sent) => Harvests(d, rules, sent) ==> d.ledger.unrealized >= 0.0
  }

  ghost predicate AllowedRun(d: Desk, rules: HarvestRules, steps: seq<Step>)
    decreases |steps|
  {
    steps == [] || (Allowed(d, rules, steps[0]) && AllowedRun(AfterStep(d, rules, steps[0]), rules, steps[1..]))
  }

  ghost function Run(d: Desk, rules: HarvestRules, steps: seq<Step>): Desk
    decreases |steps|
  {
    if steps == [] then d else Run(AfterStep(d, rules, steps[0]), rules, steps[1..])
  }

  function ExcessOf(d: Desk, rules: HarvestRules, step: Step): real {
    if step.Attempt? && Harvests(d, rules, step.sent)
    then Excess(DecisionOf(d, rules), Equity(d.ledger) - d.ledger.unrealized) else 0.0
  }

  ghost function TotalExcess(d: Desk, rules: HarvestRules, steps: seq<Step>): real
    decreases |steps|
  {
    if steps == [] then 0.0
    else ExcessOf(d, rules, steps[0]) + TotalExcess(AfterStep(d, rules, steps[0]), rules, steps[1..])
  }

  ghost function HarvestCount(d: Desk, rules: HarvestRules, steps: seq<Step>): nat
    decreases |steps|
  {
    if steps == [] then 0
    else (if steps[0].Attempt? && Harvests(d, rules, steps[0].sent) then 1 else 0)
         + HarvestCount(AfterStep(d, rules, steps[0]), rules, steps[1..])
  }

  /** How much may have been harvested, given the baseline and an allowance for rounding. */
  predicate OnceOnly(d: Desk, rules: HarvestRules, allowance: real) {
    d.ledger.harvestedTotal
    <= Share(rules, Base(d, rules) + d.ledger.harvestedTotal - rules.startingCapital) + allowance
  }

  lemma StepOnceOnly(d: Desk, rules: HarvestRules, step: Step, allowance: real)
    requires SaneTake(rules) && Allowed(d, rules, step) && OnceOnly(d, rules, allowance)
    ensures OnceOnly(AfterStep(d, rules, step), rules, allowance + ExcessOf(d, rules, step))
    ensures Base(AfterStep(d, rules, step), rules) >= Base(d, rules) - ExcessOf(d, rules, step)
    ensures -0.005 <= ExcessOf(d, rules, step) <= 0.005
  {
    if step.Attempt? && Harvests(d, rules, step.sent) {
      var equity := Equity(d.ledger) - d.ledger.unrealized;
      var base, total := Base(d, rules), d.ledger.harvestedTotal;
      HarvestWithinLimits(rules, equity, d.ledger.cash, base);
      BaselineHolds(d, rules, step.sent);
      var room := base + total - rules.startingCapital;
      ShareSplits(rules, room, equity - base);
      ShareOrder(rules, room + (equity - base), room + (equity - base) + d.ledger.unrealized);
      var next := AfterStep(d, rules, step);
      assert Base(next, rules) + next.ledger.harvestedTotal - rules.startingCapital
          == room + (equity - base) + d.ledger.unrealized;
    }
  }

  lemma {:induction false} RunOnceOnly(d: Desk, rules: HarvestRules, steps: seq<Step>, allowance: real)
    requires SaneTake(rules) && AllowedRun(d, rules, steps) && OnceOnly(d, rules, allowance)
    ensures var excess := TotalExcess(d, rules, steps);
            var cents := 0.005 * HarvestCount(d, rules, steps) as real;
            && OnceOnly(Run(d, rules, steps), rules, allowance + excess)
            && Base(Run(d, rules, steps), rules) >= Base(d, rules) - excess
            && -cents <= excess <= cents
    decreases |steps|
  {
    if steps != [] {
      StepOnceOnly(d, rules, steps[0], allowance);
      RunOnceOnly(AfterStep(d, rules, steps[0]), rules, steps[1..], allowance + ExcessOf(d, rules, steps[0]));
    }
  }

  /** No dollar of profit is harvested twice. Over any run whose harvests are taken with no unrealized
      loss, from a fresh ledger: the harvested total is at most the take share of everything gained
      since the start (baseline plus harvested, less the starting capital), and the baseline ends no
      lower than it began; both up to the rounding, half a cent a harvest. */
  lemma NothingHarvestedTwice(rules: HarvestRules, steps: seq<Step>)
    requires SaneTake(rules)
    requires AllowedRun(Desk(Fresh(rules.startingCapital), None), rules, steps)
    ensures var start := Desk(Fresh(rules.startingCapital), None);
            var end := Run(start, rules, steps);
            var excess := TotalExcess(start, rules, steps);
            && end.ledger.harvestedTotal
               <= Share(rules, Base(end, rules) + end.ledger.harvestedTotal - rules.startingCapital) + excess
            && Base(end, rules) >= rules.startingCapital - excess
            && -0.005 * HarvestCount(start, rules, steps) as real <= excess
            && excess <= 0.005 * HarvestCount(start, rules, steps) as real
  {
    RunOnceOnly(Desk(Fresh(rules.startingCapital), None), rules, steps, 0.0);
  }
}
