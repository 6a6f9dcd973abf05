/** Why harvesting needs its proviso (src/asm/engine/harvest.py): under the default limits and harvest settings
    (src/asm/config.py), a ledger that a run reaches, with open losses on it, is harvested twice for the same gain. */
module HarvestCase {
  import opened Numeric
  import opened Domain
  import opened Ledger
  import opened LedgerBook
  import H = Harvest
  import LL = LedgerLimits

  const RUNNING := Control(false, Some("running"))

  const LIMITS := Limits(5.0, 20.0, 60.0, 20, 5, 5.0, 15.0, 10.0)

  const RULES := H.HarvestRules(25.0, 40.0, 500.0, 1000.0)

  /** Four tokens and two traders. */
  datatype Cast = Cast(a: Mint, b: Mint, c: Mint, d: Mint, w: Wallet, v: Wallet)

  predicate Distinct(who: Cast) {
    && who.a != who.b && who.a != who.c && who.a != who.d && who.b != who.c && who.b != who.d && who.c != who.d
    && who.w != who.v
  }

  function Entry(id: ResId, mint: Mint, wallet: Wallet, size: real): seq<Op> {
    [Reserve(id, mint, wallet, size), Commit(id, size)]
  }

  /** A position of 50 is sold for 450. */
  function Gain(who: Cast): seq<Op> {
    Entry(0, who.a, who.w, 50.0) + [Exit(0, 50.0, 400.0, 450.0, true), Mark(0.0)]
  }

  function TwoEntries(id: ResId, one: Mint, other: Mint, wallet: Wallet): seq<Op> {
    Entry(id, one, wallet, 70.0) + Entry(id + 1, other, wallet, 70.0)
  }

  function Entries(who: Cast): seq<Op> {
    TwoEntries(1, who.a, who.b, who.w) + TwoEntries(3, who.c, who.d, who.v)
  }

  /** Then four positions of 70 are opened, on which 270 are lost on paper. */
  function Story(who: Cast): seq<Op> { Gain(who) + Entries(who) + [Mark(-270.0)] }

  lemma {:induction false} Then(b: Book, lim: Limits, ops: seq<Op>, more: seq<Op>)
    requires LegalRun(b, lim, ops) && LegalRun(Run(b, lim, ops), lim, more)
    ensures LegalRun(b, lim, ops + more) && Run(b, lim, ops + more) == Run(Run(b, lim, ops), lim, more)
    decreases |ops|
  {
    if ops == [] {
      assert ops + more == more;
    } else {
      Then(Apply(b, lim, ops[0]), lim, ops[1..], more);
      assert (ops + more)[1..] == ops[1..] + more;
    }
  }

  lemma OneOp(b: Book, lim: Limits, op: Op)
    requires Legal(b, op)
    ensures LegalRun(b, lim, [op]) && Run(b, lim, [op]) == Apply(b, lim, op)
  {
    assert [op][1..] == [];
  }

  /** Nothing lost, nothing pending, and so much deployed. */
  predicate Calm(b: Book, equity: real, deployed: real, positions: nat) {
    && b.control == RUNNING && b.ledger.equity == b.ledger.hwm == equity && b.ledger.realizedToday >= 0.0
    && b.ledger.cash == equity - deployed && b.ledger.deployed == deployed && b.ledger.harvestedTotal == 0.0
    && b.ledger.pending == 0 && b.ledger.openPositions == positions
  }

  predicate HasRoom(b: Book, mint: Mint, wallet: Wallet, size: real) {
    && b.ledger.deployed + size <= b.ledger.equity * 0.6 && At(b.ledger.token, mint) + size <= b.ledger.equity * 0.05
    && At(b.ledger.trader, wallet) + size <= b.ledger.equity * 0.15
  }

  lemma IsGranted(b: Book, mint: Mint, wallet: Wallet, size: real, equity: real, deployed: real, positions: nat)
    requires Calm(b, equity, deployed, positions) && deployed >= 0.0
    requires 10.0 <= size <= equity - deployed && positions < 20 && HasRoom(b, mint, wallet, size)
    ensures Refusal(b.ledger, b.control, LIMITS, mint, wallet, size) == None
  {
    NothingLost(b.ledger, equity);
    LL.GrantedExactlyWhen(b.ledger, RUNNING, LIMITS, mint, wallet, size);
  }

  /** A whole entry, filled at its size. */
  lemma Enters(b: Book, id: ResId, mint: Mint, wallet: Wallet, size: real, equity: real, deployed: real, positions: nat)
    returns (c: Book)
    requires Calm(b, equity, deployed, positions) && deployed >= 0.0
    requires 10.0 <= size <= equity - deployed && positions < 20
    requires HasRoom(b, mint, wallet, size) && id !in b.used
    ensures LegalRun(b, LIMITS, Entry(id, mint, wallet, size)) && c == Run(b, LIMITS, Entry(id, mint, wallet, size))
    ensures Calm(c, equity, deployed + size, positions + 1) && c.used == b.used + {id}
    ensures id in c.claims && c.claims[id] == Claim(mint, wallet, size, true)
    ensures forall m :: At(c.ledger.token, m) == At(b.ledger.token, m) + if m == mint then size else 0.0
    ensures forall w :: At(c.ledger.trader, w) == At(b.ledger.trader, w) + if w == wallet then size else 0.0
  {
    IsGranted(b, mint, wallet, size, equity, deployed, positions);
    var held := Apply(b, LIMITS, Reserve(id, mint, wallet, size));
    OneOp(b, LIMITS, Reserve(id, mint, wallet, size));
    OneOp(held, LIMITS, Commit(id, size));
    Then(b, LIMITS, [Reserve(id, mint, wallet, size)], [Commit(id, size)]);
    c := Apply(held, LIMITS, Commit(id, size));
  }

  lemma NothingLost(s: Ledger, equity: real)
    requires s.equity == s.hwm == equity > 0.0 && s.realizedToday >= 0.0
    ensures LL.BreakersClosed(s, LIMITS)
  {
    MulLess(0.0, 5.0, equity);
    MulLess(0.0, 20.0, equity);
  }

  lemma GainRuns(who: Cast) returns (b: Book)
    ensures LegalRun(Opening(1000.0, RUNNING), LIMITS, Gain(who))
    ensures b == Run(Opening(1000.0, RUNNING), LIMITS, Gain(who))
    ensures Calm(b, 1400.0, 0.0, 0) && b.used == {0}
    ensures forall m :: At(b.ledger.token, m) == 0.0
    ensures forall w :: At(b.ledger.trader, w) == 0.0
  {
    var b0 := Opening(1000.0, RUNNING);
    var b1 := Enters(b0, 0, who.a, who.w, 50.0, 1000.0, 0.0, 0);
    var sold := Exit(0, 50.0, 400.0, 450.0, true);
    var b2 := Apply(b1, LIMITS, sold);
    OneOp(b1, LIMITS, sold);
    OneOp(b2, LIMITS, Mark(0.0));
    Then(b1, LIMITS, [sold], [Mark(0.0)]);
    Then(b0, LIMITS, Entry(0, who.a, who.w, 50.0), [sold] + [Mark(0.0)]);
    assert [sold] + [Mark(0.0)] == [sold, Mark(0.0)];
    b := Apply(b2, LIMITS, Mark(0.0));
    forall m ensures At(b.ledger.token, m) == 0.0 { assert At(b0.ledger.token, m) == 0.0; }
    forall w ensures At(b.ledger.trader, w) == 0.0 { assert At(b0.ledger.trader, w) == 0.0; }
  }

  /** Two tokens for one trader, none of which is held yet. */
  lemma TwoEnter(b: Book, id: ResId, one: Mint, other: Mint, wallet: Wallet, positions: nat) returns (c: Book)
    requires Calm(b, 1400.0, 70.0 * positions as real, positions) && positions <= 2
    requires id !in b.used && id + 1 !in b.used
    requires At(b.ledger.token, one) == At(b.ledger.token, other) == At(b.ledger.trader, wallet) == 0.0 && one != other
    ensures LegalRun(b, LIMITS, TwoEntries(id, one, other, wallet))
    ensures c == Run(b, LIMITS, TwoEntries(id, one, other, wallet))
    ensures Calm(c, 1400.0, 70.0 * positions as real + 140.0, positions + 2) && c.used == b.used + {id, id + 1}
    ensures forall m :: m != one && m != other ==> At(c.ledger.token, m) == At(b.ledger.token, m)
    ensures forall w :: w != wallet ==> At(c.ledger.trader, w) == At(b.ledger.trader, w)
  {
    var d := 70.0 * positions as real;
    var mid := Enters(b, id, one, wallet, 70.0, 1400.0, d, positions);
    c := Enters(mid, id + 1, other, wallet, 70.0, 1400.0, d + 70.0, positions + 1);
    Then(b, LIMITS, Entry(id, one, wallet, 70.0), Entry(id + 1, other, wallet, 70.0));
  }

  lemma EntriesRun(who: Cast, b0: Book) returns (b: Book)
    requires Distinct(who) && Calm(b0, 1400.0, 0.0, 0) && b0.used == {0}
    requires forall m :: At(b0.ledger.token, m) == 0.0
    requires forall w :: At(b0.ledger.trader, w) == 0.0
    ensures LegalRun(b0, LIMITS, Entries(who)) && b == Run(b0, LIMITS, Entries(who))
    ensures Calm(b, 1400.0, 280.0, 4)
  {
    var b2 := TwoEnter(b0, 1, who.a, who.b, who.w, 0);
    b := TwoEnter(b2, 3, who.c, who.d, who.v, 2);
    Then(b0, LIMITS, TwoEntries(1, who.a, who.b, who.w), TwoEntries(3, who.c, who.d, who.v));
  }

  lemma StoryRuns(who: Cast) returns (b: Book)
    requires Distinct(who)
    ensures LegalRun(Opening(1000.0, RUNNING), LIMITS, Story(who))
    ensures b == Run(Opening(1000.0, RUNNING), LIMITS, Story(who))
    ensures b.ledger.cash == 1120.0 && b.ledger.deployed == 280.0 && b.ledger.unrealized == -270.0
    ensures b.ledger.harvestedTotal == 0.0
  {
    var b0 := Opening(1000.0, RUNNING);
    var b1 := GainRuns(who);
    var b2 := EntriesRun(who, b1);
    Then(b0, LIMITS, Gain(who), Entries(who));
    OneOp(b2, LIMITS, Mark(-270.0));
    Then(b0, LIMITS, Gain(who) + Entries(who), [Mark(-270.0)]);
    b := Apply(b2, LIMITS, Mark(-270.0));
  }

  /** Two attempts on that ledger: the first takes 40 percent of the gain of 400 and lowers the baseline
      below the starting capital; the second takes a share of gains the first already shared. */
  lemma UnrealizedLossHarvestsTwice(who: Cast)
    requires Distinct(who)
    ensures LegalRun(Opening(1000.0, RUNNING), LIMITS, Story(who))
    ensures var s := Run(Opening(1000.0, RUNNING), LIMITS, Story(who)).ledger;
            var once := H.AfterAttempt(H.Desk(s, None), RULES, true);
            var twice := H.AfterAttempt(once, RULES, true);
            && once.ledger.harvestedTotal == 160.0 && H.Base(once, RULES) == 970.0
            && twice.ledger.harvestedTotal == 268.0 && H.Base(twice, RULES) == 862.0
            && !H.OnceOnly(twice, RULES, 0.01)
  {
    var b := StoryRuns(who);
    HarvestsTwice(b.ledger);
  }

  lemma HarvestsTwice(s: Ledger)
    requires s.cash == 1120.0 && s.deployed == 280.0 && s.unrealized == -270.0 && s.harvestedTotal == 0.0
    ensures var once := H.AfterAttempt(H.Desk(s, None), RULES, true);
            var twice := H.AfterAttempt(once, RULES, true);
            && once.ledger.harvestedTotal == 160.0 && H.Base(once, RULES) == 970.0
            && twice.ledger.harvestedTotal == 268.0 && H.Base(twice, RULES) == 862.0
            && !H.OnceOnly(twice, RULES, 0.01)
  {
    assert Cents(160.0) == 160.0 && Cents(108.0) == 108.0;
    assert H.DecisionOf(H.Desk(s, None), RULES) == H.Harvest(160.0, Cents(240.0), 400.0, 1240.0);
    var once := H.AfterAttempt(H.Desk(s, None), RULES, true);
    assert H.DecisionOf(once, RULES) == H.Harvest(108.0, Cents(162.0), 270.0, 1132.0);
  }
}
