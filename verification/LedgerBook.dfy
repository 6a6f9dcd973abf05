/** What the ledger's redundant counters mean. A `Book` pairs the ledger with the claims on
    capital its callers hold: a claim is a held reservation or an open position. Over every run
    of legal operations the counters agree with the claims. */
module LedgerBook {
  import opened Numeric
  import opened Domain
  import opened Ledger

  datatype Claim = Claim(mint: Mint, wallet: Wallet, usd: real, open: bool)

  /** `gains` is the sum of (proceeds - cost released), `exits` the number of exits booked. */
  datatype Book = Book(ledger: Ledger, control: Control, claims: map<ResId, Claim>,
                       used: set<ResId>, gains: real, exits: nat)

  datatype Op =
    | Reserve(id: ResId, mint: Mint, wallet: Wallet, size: real)
    | Release(id: ResId)
    | Commit(id: ResId, actual: real)
    | Exit(id: ResId, cost: real, pnl: real, proceeds: real, fully: bool)
    | Mark(unrealized: real)
    | AddHarvest(amount: real)
    | ResetDaily
    | Expire(id: ResId)
    | Command(control: Control)

  function Opening(capital: real, control: Control): Book {
    Book(Fresh(capital), control, map[], {}, 0.0, 0)
  }

  /** What the callers guarantee: reservation ids are never reused (uuid4), amounts are not
      negative, and an exit closes at most the cost its own open position still carries, all of
      it when it closes the position. Release and Commit may be called with any id, repeatedly. */
  predicate Legal(b: Book, op: Op) {
    match op
    case Reserve(id, _, _, size) => id !in b.used && size >= 0.0
    case Commit(_, actual) => actual >= 0.0
    case Exit(id, cost, _, _, fully) =>
      id in b.claims && b.claims[id].open && 0.0 <= cost <= b.claims[id].usd
      && (fully ==> cost == b.claims[id].usd)
    case _ => true
  }

  predicate Grants(b: Book, lim: Limits, op: Op) {
    op.Reserve? && Refusal(b.ledger, b.control, lim, op.mint, op.wallet, op.size) == None
  }

  predicate Settles(b: Book, op: Op) {
    (op.Release? || op.Commit?) && HeldIn(b.ledger, op.id)
  }

  function Apply(b: Book, lim: Limits, op: Op): Book
    requires Legal(b, op)
  {
    var s := b.ledger;
    match op
    case Reserve(id, mint, wallet, size) =>
      b.(ledger := AfterReserve(s, b.control, lim, id, mint, wallet, size),
         claims := if Grants(b, lim, op) then b.claims[id := Claim(mint, wallet, size, false)] else b.claims,
         used := b.used + {id})
    case Release(id) =>
      b.(ledger := AfterRelease(s, id),
         claims := if HeldIn(s, id) then b.claims - {id} else b.claims)
    case Commit(id, actual) =>
      b.(ledger := AfterCommit(s, id, actual),
         claims := if HeldIn(s, id)
                   then b.claims[id := Claim(s.reservations[id].mint, s.reservations[id].wallet, actual, true)]
                   else b.claims)
    case Exit(id, cost, pnl, proceeds, fully) =>
      var c := b.claims[id];
      b.(ledger := AfterExit(s, c.mint, c.wallet, cost, pnl, proceeds, fully),
         claims := if fully then b.claims - {id} else b.claims[id := c.(usd := c.usd - cost)],
         gains := b.gains + (proceeds - cost), exits := b.exits + 1)
    case Mark(unrealized) => b.(ledger := AfterMark(s, unrealized))
    case AddHarvest(amount) => b.(ledger := AfterHarvest(s, amount))
    case ResetDaily => b.(ledger := s.(realizedToday := 0.0))
    case Expire(id) => b.(ledger := AfterExpiry(s, id))
    case Command(control) => b.(control := control)
  }

  ghost predicate LegalRun(b: Book, lim: Limits, ops: seq<Op>)
    decreases |ops|
  {
    ops == [] || (Legal(b, ops[0]) && LegalRun(Apply(b, lim, ops[0]), lim, ops[1..]))
  }

  ghost function Run(b: Book, lim: Limits, ops: seq<Op>): Book
    requires LegalRun(b, lim, ops)
    decreases |ops|
  {
    if ops == [] then b else Run(Apply(b, lim, ops[0]), lim, ops[1..])
  }

  // ---------------------------------------------------------------- sums over claims

  /** Which claims a counter counts. */
  datatype Scope = Everything | OfToken(mint: Mint) | OfTrader(wallet: Wallet)

  function Share(sc: Scope, c: Claim): real {
    match sc
    case Everything => c.usd
    case OfToken(m) => if c.mint == m then c.usd else 0.0
    case OfTrader(w) => if c.wallet == w then c.usd else 0.0
  }

  ghost function Total(claims: map<ResId, Claim>, sc: Scope): real
    decreases |claims|
  {
    if claims == map[] then 0.0
    else
      var id :| id in claims;
      Share(sc, claims[id]) + Total(claims - {id}, sc)
  }

  lemma {:induction false} TotalWithout(claims: map<ResId, Claim>, sc: Scope, id: ResId)
    requires id in claims
    ensures Total(claims, sc) == Share(sc, claims[id]) + Total(claims - {id}, sc)
    decreases |claims|
  {
    var pick :| pick in claims && Total(claims, sc) == Share(sc, claims[pick]) + Total(claims - {pick}, sc);
    if pick != id {
      TotalWithout(claims - {pick}, sc, id);
      TotalWithout(claims - {id}, sc, pick);
      assert claims - {pick} - {id} == claims - {id} - {pick};
    }
  }

  lemma TotalWith(claims: map<ResId, Claim>, sc: Scope, id: ResId, c: Claim)
    ensures Total(claims[id := c], sc)
         == Total(claims, sc) + Share(sc, c) - (if id in claims then Share(sc, claims[id]) else 0.0)
  {
    TotalWithout(claims[id := c], sc, id);
    if id in claims {
      TotalWithout(claims, sc, id);
      assert claims[id := c] - {id} == claims - {id};
    } else {
      assert claims[id := c] - {id} == claims;
    }
  }

  ghost predicate Covered(claims: map<ResId, Claim>) {
    forall id :: id in claims ==> claims[id].usd >= 0.0
  }

  lemma {:induction false} TotalNonNegative(claims: map<ResId, Claim>, sc: Scope)
    requires Covered(claims)
    ensures Total(claims, sc) >= 0.0
    decreases |claims|
  {
    if claims != map[] {
      var id :| id in claims;
      TotalWithout(claims, sc, id);
      TotalNonNegative(claims - {id}, sc);
    }
  }

  // ---------------------------------------------------------------- the agreement

  function HeldIds(claims: map<ResId, Claim>): set<ResId> { set id | id in claims && !claims[id].open }

  function OpenIds(claims: map<ResId, Claim>): set<ResId> { set id | id in claims && claims[id].open }

  /** Counters never show more than is really claimed, and less only by the dust swept away:
      at most one DUST for each exit so far. */
  predicate Drifts(claimed: real, shown: real, exits: nat) {
    0.0 <= claimed - shown <= exits as real * DUST
  }

  function Shown(s: Ledger, sc: Scope): real {
    match sc
    case Everything => s.deployed
    case OfToken(m) => At(s.token, m)
    case OfTrader(w) => At(s.trader, w)
  }

  ghost predicate TablesAgree(b: Book) {
    && Covered(b.claims)
    && b.claims.Keys <= b.used
    && b.ledger.reservations.Keys <= b.used
    && (forall id :: HeldIn(b.ledger, id) <==> id in b.claims && !b.claims[id].open)
    && (forall id :: HeldIn(b.ledger, id) ==>
         var r := b.ledger.reservations[id]; b.claims[id] == Claim(r.mint, r.wallet, r.usd, false))
  }

  predicate CountsAgree(b: Book) {
    && b.ledger.pending == |HeldIds(b.claims)|
    && b.ledger.openPositions == |OpenIds(b.claims)|
  }

  ghost predicate SumsAgree(b: Book) {
    forall sc :: Drifts(Total(b.claims, sc), Shown(b.ledger, sc), b.exits)
  }

  ghost predicate CashAgrees(b: Book, capital: real) {
    b.ledger.cash + Total(b.claims, Everything) + b.ledger.harvestedTotal == capital + b.gains
  }

  /** The accounting statement every reachable state satisfies. */
  ghost predicate Balanced(b: Book, capital: real) {
    TablesAgree(b) && CountsAgree(b) && SumsAgree(b) && CashAgrees(b, capital)
  }

  lemma OpeningBalanced(capital: real, control: Control)
    ensures Balanced(Opening(capital, control), capital)
  {
    var b := Opening(capital, control);
    assert HeldIds(b.claims) == {} && OpenIds(b.claims) == {};
  }

  lemma ApplyTables(b: Book, lim: Limits, op: Op)
    requires TablesAgree(b) && Legal(b, op)
    ensures TablesAgree(Apply(b, lim, op))
  {
  }

  function HeldOne(claims: map<ResId, Claim>, id: ResId): int {
    if id in claims && !claims[id].open then 1 else 0
  }

  function OpenOne(claims: map<ResId, Claim>, id: ResId): int {
    if id in claims && claims[id].open then 1 else 0
  }

  lemma CountsWithout(claims: map<ResId, Claim>, id: ResId)
    ensures |HeldIds(claims - {id})| == |HeldIds(claims)| - HeldOne(claims, id)
    ensures |OpenIds(claims - {id})| == |OpenIds(claims)| - OpenOne(claims, id)
  {
    assert HeldIds(claims - {id}) == HeldIds(claims) - {id};
    assert OpenIds(claims - {id}) == OpenIds(claims) - {id};
  }

  lemma CountsWith(claims: map<ResId, Claim>, id: ResId, c: Claim)
    ensures |HeldIds(claims[id := c])| == |HeldIds(claims)| - HeldOne(claims, id) + (if c.open then 0 else 1)
    ensures |OpenIds(claims[id := c])| == |OpenIds(claims)| - OpenOne(claims, id) + (if c.open then 1 else 0)
  {
    CountsWithout(claims, id);
    CountsWithout(claims[id := c], id);
    assert claims[id := c] - {id} == claims - {id};
  }

  lemma ApplyCounts(b: Book, lim: Limits, op: Op)
    requires TablesAgree(b) && CountsAgree(b) && Legal(b, op)
    ensures CountsAgree(Apply(b, lim, op))
  {
    match op
    case Reserve(id, mint, wallet, size) => CountsWith(b.claims, id, Claim(mint, wallet, size, false));
    case Release(id) => CountsWithout(b.claims, id);
    case Commit(id, actual) =>
      if HeldIn(b.ledger, id) {
        var r := b.ledger.reservations[id];
        CountsWith(b.claims, id, Claim(r.mint, r.wallet, actual, true));
      }
    case Exit(id, cost, _, _, _) =>
      CountsWithout(b.claims, id);
      CountsWith(b.claims, id, b.claims[id].(usd := b.claims[id].usd - cost));
    case _ =>
  }

  /** How one operation moves a claimed total. */
  function Moved(b: Book, lim: Limits, op: Op, sc: Scope): real
    requires Legal(b, op)
  {
    match op
    case Reserve(_, m, w, size) => if Grants(b, lim, op) then Share(sc, Claim(m, w, size, false)) else 0.0
    case Release(id) =>
      if HeldIn(b.ledger, id) then
        var r := b.ledger.reservations[id]; -Share(sc, Claim(r.mint, r.wallet, r.usd, false))
      else 0.0
    case Commit(id, actual) =>
      if HeldIn(b.ledger, id) then
        var r := b.ledger.reservations[id]; Share(sc, Claim(r.mint, r.wallet, actual - r.usd, true))
      else 0.0
    case Exit(id, cost, _, _, _) => -Share(sc, b.claims[id].(usd := cost))
    case _ => 0.0
  }

  lemma TotalMoves(b: Book, lim: Limits, op: Op, sc: Scope)
    requires TablesAgree(b) && Legal(b, op)
    ensures Total(Apply(b, lim, op).claims, sc) == Total(b.claims, sc) + Moved(b, lim, op, sc)
  {
    match op
    case Reserve(id, m, w, size) =>
      if Grants(b, lim, op) { TotalWith(b.claims, sc, id, Claim(m, w, size, false)); }
    case Release(id) =>
      if HeldIn(b.ledger, id) { TotalWithout(b.claims, sc, id); }
    case Commit(id, actual) =>
      if HeldIn(b.ledger, id) {
        var r := b.ledger.reservations[id];
        TotalWith(b.claims, sc, id, Claim(r.mint, r.wallet, actual, true));
      }
    case Exit(id, cost, _, _, fully) =>
      if fully { TotalWithout(b.claims, sc, id); }
      else { TotalWith(b.claims, sc, id, b.claims[id].(usd := b.claims[id].usd - cost)); }
    case _ =>
  }

  /** A counter follows the claimed total, except that an exit may then wipe dust from it. */
  lemma ShownMoves(b: Book, lim: Limits, op: Op, sc: Scope)
    requires TablesAgree(b) && Legal(b, op)
    ensures var shown := Shown(Apply(b, lim, op).ledger, sc);
            var moved := Shown(b.ledger, sc) + Moved(b, lim, op, sc);
            shown == moved || (op.Exit? && shown == 0.0 && moved < DUST)
  {
  }

  lemma ApplySums(b: Book, lim: Limits, op: Op)
    requires TablesAgree(b) && SumsAgree(b) && Legal(b, op)
    ensures SumsAgree(Apply(b, lim, op))
  {
    var b' := Apply(b, lim, op);
    ApplyTables(b, lim, op);
    forall sc ensures Drifts(Total(b'.claims, sc), Shown(b'.ledger, sc), b'.exits) {
      TotalMoves(b, lim, op, sc);
      ShownMoves(b, lim, op, sc);
      TotalNonNegative(b'.claims, sc);
      assert Drifts(Total(b.claims, sc), Shown(b.ledger, sc), b.exits);
    }
  }

  lemma ApplyCash(b: Book, lim: Limits, op: Op, capital: real)
    requires TablesAgree(b) && CashAgrees(b, capital) && Legal(b, op)
    ensures CashAgrees(Apply(b, lim, op), capital)
  {
    TotalMoves(b, lim, op, Everything);
  }

  lemma ApplyBalanced(b: Book, lim: Limits, op: Op, capital: real)
    requires Balanced(b, capital) && Legal(b, op)
    ensures Balanced(Apply(b, lim, op), capital)
  {
    ApplyTables(b, lim, op);
    ApplyCounts(b, lim, op);
    ApplySums(b, lim, op);
    ApplyCash(b, lim, op, capital);
  }

  lemma {:induction false} RunBalanced(b: Book, lim: Limits, ops: seq<Op>, capital: real)
    requires Balanced(b, capital) && LegalRun(b, lim, ops)
    ensures Balanced(Run(b, lim, ops), capital)
    decreases |ops|
  {
    if ops != [] {
      ApplyBalanced(b, lim, ops[0], capital);
      RunBalanced(Apply(b, lim, ops[0]), lim, ops[1..], capital);
    }
  }

  /** Ledger accounting, in every state any interleaving of callers can reach. */
  lemma LedgerAccounting(capital: real, control: Control, lim: Limits, ops: seq<Op>)
    requires LegalRun(Opening(capital, control), lim, ops)
    ensures Balanced(Run(Opening(capital, control), lim, ops), capital)
  {
    OpeningBalanced(capital, control);
    RunBalanced(Opening(capital, control), lim, ops, capital);
  }

  /** An exit leaves no counter of its own with less than a millionth of a dollar: it is zero, or at least that, or a
      whole dollar short. */
  lemma ExitSweeps(s: Ledger, mint: Mint, wallet: Wallet, cost: real, pnl: real, proceeds: real, fully: bool)
    ensures var after := AfterExit(s, mint, wallet, cost, pnl, proceeds, fully);
            && (after.deployed == 0.0 || after.deployed >= 0.000001 || after.deployed <= -1.0)
            && (mint in after.token ==> after.token[mint] >= 0.000001)
            && (wallet in after.trader ==> after.trader[wallet] >= 0.000001)
  {
  }

  // ---------------------------------------------------------------- exactness

  /** A whole number of millionths of a dollar. */
  predicate IsMicros(x: real, k: int) { x * 1000000.0 == k as real }

  ghost predicate Micro(x: real) { exists k: int :: IsMicros(x, k) }

  ghost predicate MicroOp(op: Op) {
    match op
    case Reserve(_, _, _, size) => Micro(size)
    case Commit(_, actual) => Micro(actual)
    case Exit(_, cost, _, _, _) => Micro(cost)
    case _ => true
  }

  lemma MicroSum(x: real, y: real)
    requires Micro(x) && Micro(y)
    ensures Micro(x + y) && Micro(x - y) && Micro(-x)
  {
    var j: int :| IsMicros(x, j);
    var k: int :| IsMicros(y, k);
    assert IsMicros(x + y, j + k) && IsMicros(x - y, j - k) && IsMicros(-x, -j);
  }

  lemma MicroZero()
    ensures Micro(0.0)
  {
    assert IsMicros(0.0, 0);
  }

  lemma MicroDust(x: real)
    requires Micro(x) && 0.0 <= x < DUST
    ensures x == 0.0
  {
    var k: int :| IsMicros(x, k);
  }

  ghost predicate Exact(b: Book) {
    && (forall sc :: Shown(b.ledger, sc) == Total(b.claims, sc))
    && (forall sc :: Micro(Shown(b.ledger, sc)))
    && (forall id :: id in b.claims ==> Micro(b.claims[id].usd))
  }

  lemma MovedIsMicro(b: Book, lim: Limits, op: Op, sc: Scope)
    requires TablesAgree(b) && Exact(b) && Legal(b, op) && MicroOp(op)
    ensures Micro(Moved(b, lim, op, sc))
  {
    MicroZero();
    match op
    case Reserve(_, _, _, _) =>
    case Release(id) =>
      if HeldIn(b.ledger, id) { MicroSum(b.claims[id].usd, 0.0); }
    case Commit(id, actual) =>
      if HeldIn(b.ledger, id) { MicroSum(actual, b.claims[id].usd); }
    case Exit(_, cost, _, _, _) => MicroSum(cost, 0.0);
    case _ =>
  }

  lemma ApplyClaimsMicro(b: Book, lim: Limits, op: Op, id: ResId)
    requires TablesAgree(b) && Exact(b) && Legal(b, op) && MicroOp(op)
    requires id in Apply(b, lim, op).claims
    ensures Micro(Apply(b, lim, op).claims[id].usd)
  {
    if op.Exit? && op.id == id { MicroSum(b.claims[id].usd, op.cost); }
  }

  lemma ApplyExact(b: Book, lim: Limits, op: Op)
    requires TablesAgree(b) && Exact(b) && Legal(b, op) && MicroOp(op)
    ensures Exact(Apply(b, lim, op))
  {
    var b' := Apply(b, lim, op);
    ApplyTables(b, lim, op);
    forall sc ensures Shown(b'.ledger, sc) == Total(b'.claims, sc) && Micro(Shown(b'.ledger, sc)) {
      TotalMoves(b, lim, op, sc);
      ShownMoves(b, lim, op, sc);
      TotalNonNegative(b'.claims, sc);
      MovedIsMicro(b, lim, op, sc);
      MicroZero();
      MicroSum(Shown(b.ledger, sc), Moved(b, lim, op, sc));
      var moved := Shown(b.ledger, sc) + Moved(b, lim, op, sc);
      if Shown(b'.ledger, sc) != moved { MicroDust(moved); }
    }
    forall id | id in b'.claims ensures Micro(b'.claims[id].usd) {
      ApplyClaimsMicro(b, lim, op, id);
    }
  }

  lemma {:induction false} RunExact(b: Book, lim: Limits, ops: seq<Op>)
    requires TablesAgree(b) && Exact(b) && LegalRun(b, lim, ops)
    requires forall i :: 0 <= i < |ops| ==> MicroOp(ops[i])
    ensures Exact(Run(b, lim, ops))
    decreases |ops|
  {
    if ops != [] {
      ApplyExact(b, lim, ops[0]);
      ApplyTables(b, lim, ops[0]);
      RunExact(Apply(b, lim, ops[0]), lim, ops[1..]);
    }
  }

  /** With amounts in whole millionths the dust sweep never loses anything: every counter equals
      the claims it counts, after any run. */
  lemma ExactInMicroDollars(capital: real, control: Control, lim: Limits, ops: seq<Op>)
    requires LegalRun(Opening(capital, control), lim, ops)
    requires forall i :: 0 <= i < |ops| ==> MicroOp(ops[i])
    ensures var b := Run(Opening(capital, control), lim, ops);
            forall sc :: Shown(b.ledger, sc) == Total(b.claims, sc)
  {
    MicroZero();
    OpeningBalanced(capital, control);
    RunExact(Opening(capital, control), lim, ops);
  }

  // ---------------------------------------------------------------- settle once

  ghost function GrantCount(b: Book, lim: Limits, ops: seq<Op>, id: ResId): nat
    requires LegalRun(b, lim, ops)
    decreases |ops|
  {
    if ops == [] then 0
    else (if Grants(b, lim, ops[0]) && ops[0].id == id then 1 else 0)
         + GrantCount(Apply(b, lim, ops[0]), lim, ops[1..], id)
  }

  ghost function SettleCount(b: Book, lim: Limits, ops: seq<Op>, id: ResId): nat
    requires LegalRun(b, lim, ops)
    decreases |ops|
  {
    if ops == [] then 0
    else (if Settles(b, ops[0]) && ops[0].id == id then 1 else 0)
         + SettleCount(Apply(b, lim, ops[0]), lim, ops[1..], id)
  }

  function HeldCount(b: Book, id: ResId): nat { if HeldIn(b.ledger, id) then 1 else 0 }

  /** Conservation of holds: what was granted is settled exactly once or still held. */
  lemma {:induction false} GrantsAreSettledOrHeld(b: Book, lim: Limits, ops: seq<Op>, id: ResId)
    requires TablesAgree(b) && LegalRun(b, lim, ops)
    ensures HeldCount(b, id) + GrantCount(b, lim, ops, id)
         == SettleCount(b, lim, ops, id) + HeldCount(Run(b, lim, ops), id)
    ensures id in b.used ==> GrantCount(b, lim, ops, id) == 0
    ensures GrantCount(b, lim, ops, id) <= 1
    decreases |ops|
  {
    if ops != [] {
      ApplyTables(b, lim, ops[0]);
      GrantsAreSettledOrHeld(Apply(b, lim, ops[0]), lim, ops[1..], id);
    }
  }

  /** However often Release and Commit are repeated, a reservation is settled at most once. */
  lemma SettledAtMostOnce(capital: real, control: Control, lim: Limits, ops: seq<Op>, id: ResId)
    requires LegalRun(Opening(capital, control), lim, ops)
    ensures SettleCount(Opening(capital, control), lim, ops, id) <= 1
  {
    OpeningBalanced(capital, control);
    GrantsAreSettledOrHeld(Opening(capital, control), lim, ops, id);
  }
}
