/** Live orders (src/asm/execution/live.py, src/asm/state/dedupe.py and the settlement in
    src/asm/services/decision_service.py) as a transition system: any number of attempts, each
    one call of LiveExecutor.execute plus the settlement of its reservation, interleave with
    crashes, retries, the passing of time and the chain. */
module OrderProtocol {
  import opened Numeric

  type Key = string
  type Sig = nat
  type AttemptId = nat

  /** Seconds a claimed idempotency key lives unless its order is finished. */
  const ORDER_TTL: nat := 86400

  datatype Value = Pending | Signed(sig: Sig)

  datatype Slot = Slot(value: Value, expiry: Option<nat>)

  type Slots = map<Key, Slot>

  predicate Live(slots: Slots, now: nat, k: Key) {
    k in slots && (slots[k].expiry == None || now < slots[k].expiry.value)
  }

  function Claimed(slots: Slots, now: nat, k: Key): Slots {
    if Live(slots, now, k) then slots else slots[k := Slot(Pending, Some(now + ORDER_TTL))]
  }

  function Finished(slots: Slots, k: Key, sig: Sig): Slots { slots[k := Slot(Signed(sig), None)] }

  class Dedupe {
    var slots: Slots
    var now: nat

    constructor ()
      ensures slots == map[] && now == 0
    {
      slots, now := map[], 0;
    }

    /** SET NX EX: true when no order holds this key. */
    method ClaimOrder(k: Key) returns (claimed: bool)
      modifies this`slots
      ensures claimed == !old(Live(slots, now, k))
      ensures slots == Claimed(old(slots), now, k)
    {
      if Live(slots, now, k) { return false; }
      slots := slots[k := Slot(Pending, Some(now + ORDER_TTL))];
      return true;
    }

    /** SET without expiry: the signature stays for good. */
    method FinishOrder(k: Key, sig: Sig)
      modifies this`slots
      ensures slots == Finished(old(slots), k, sig)
    {
      slots := slots[k := Slot(Signed(sig), None)];
    }

    method AbandonOrder(k: Key)
      modifies this`slots
      ensures slots == old(slots) - {k}
    {
      slots := slots - {k};
    }
  }

  /** A claim that nothing follows up keeps its key for exactly a day, and a recorded signature for good. */
  lemma ClaimLastsADay(slots: Slots, now: nat, k: Key, later: nat, sig: Sig)
    requires !Live(slots, now, k)
    ensures Live(Claimed(slots, now, k), later, k) <==> later < now + 24 * 60 * 60
    ensures Live(Finished(slots, k, sig), later, k)
  {
  }

  // ---------------------------------------------------------------- the machine

  datatype Why = Duplicate | NotPrepared | SignerRefused | OnChainError

  datatype Outcome = Failed(why: Why) | Submitted | Confirmed

  /** Where an attempt stands; `at` is when it claimed the key. */
  datatype Phase =
    | Start
    | Claiming(at: nat)
    | Built(at: nat)
    | Dropping(at: nat, why: Why)
    | Ready(at: nat, sig: Sig)
    | Recorded(sig: Sig)
    | Sent(sig: Sig)
    | Resaved(sig: Sig)
    | Landing(sig: Sig)
    | Done(outcome: Outcome)
    | Crashed

  datatype Hold = OnHold | GivenBack | Booked

  /** What becomes of the attempt's own transaction. */
  datatype Fate = NotSent | InFlight | Landed | Errored

  datatype Attempt = Attempt(key: Key, phase: Phase, hold: Hold, broadcast: bool, fate: Fate)

  datatype State = State(now: nat, slots: Slots, attempts: map<AttemptId, Attempt>, log: seq<AttemptId>)

  /** How the first finish_order ends; an exception may strike before or after the write. */
  datatype RecordAnswer = Wrote | RaisedAfterWrite | RaisedBeforeWrite

  /** How send_transaction ends; an error says nothing about whether the network got it. */
  datatype SendAnswer = Accepted | OtherSignature | RaisedReached | RaisedLost

  datatype ConfirmAnswer = Unavailable | TimedOut | ReportsError | ReportsSuccess

  datatype Step =
    | Begin(a: AttemptId, key: Key)
    | Claim(a: AttemptId)
    | Prepare(a: AttemptId, ok: bool)
    | Sign(a: AttemptId, signed: Option<Sig>)
    | Abandon(a: AttemptId)
    | Record(a: AttemptId, recorded: RecordAnswer)
    | Send(a: AttemptId, sent: SendAnswer)
    | Resave(a: AttemptId, saved: bool)
    | Confirm(a: AttemptId, confirmed: ConfirmAnswer)
    | Reconcile(a: AttemptId, matched: bool)
    | Settle(a: AttemptId)
    | Crash(a: AttemptId)
    | Chain(a: AttemptId, lands: bool)
    | Tick(seconds: nat)

  predicate Enabled(s: State, st: Step) {
    if st.Tick? then true
    else if st.Begin? then st.a !in s.attempts
    else
      st.a in s.attempts &&
      var at := s.attempts[st.a];
      match st
      case Claim(_) => at.phase == Start
      case Prepare(_, _) => at.phase.Claiming?
      case Sign(_, _) => at.phase.Built?
      case Abandon(_) => at.phase.Dropping?
      case Record(_, _) => at.phase.Ready?
      case Send(_, _) => at.phase.Recorded?
      case Resave(_, _) => at.phase.Sent?
      case Confirm(_, answer) =>
        at.phase.Resaved? && (answer == ReportsError ==> at.fate == Errored)
        && (answer == ReportsSuccess ==> at.fate == Landed)
      case Reconcile(_, _) => at.phase.Landing?
      case Settle(_) => at.phase.Done? && at.hold == OnHold
      case Crash(_) => at.hold == OnHold
      case Chain(_, _) => at.fate == InFlight
      case _ => true
  }

  function Settled(o: Outcome): Hold {
    match o
    case Confirmed => Booked
    case Submitted => OnHold
    case Failed(_) => GivenBack
  }

  /** The attempt after its own step. */
  function Moved(s: State, at: Attempt, st: Step): Attempt
    requires Enabled(s, st) && !st.Tick? && !st.Begin? && at == s.attempts[st.a]
  {
    match st
    case Claim(_) => at.(phase := if Live(s.slots, s.now, at.key) then Done(Failed(Duplicate)) else Claiming(s.now))
    case Prepare(_, ok) => at.(phase := if ok then Built(at.phase.at) else Dropping(at.phase.at, NotPrepared))
    case Sign(_, signed) =>
      at.(phase := match signed
                   case Some(sig) => Ready(at.phase.at, sig)
                   case None => Dropping(at.phase.at, SignerRefused))
    case Abandon(_) => at.(phase := Done(Failed(at.phase.why)))
    case Record(_, answer) => at.(phase := if answer == Wrote then Recorded(at.phase.sig) else Done(Submitted))
    case Send(_, answer) =>
      at.(phase := if answer == Accepted then Sent(at.phase.sig) else Done(Submitted),
          fate := if answer == RaisedLost then NotSent else InFlight,
          broadcast := true)
    case Resave(_, ok) => at.(phase := if ok then Resaved(at.phase.sig) else Done(Submitted))
    case Confirm(_, answer) =>
      at.(phase := match answer
                   case ReportsSuccess => Landing(at.phase.sig)
                   case ReportsError => Done(Failed(OnChainError))
                   case _ => Done(Submitted))
    case Reconcile(_, ok) => at.(phase := Done(if ok then Confirmed else Submitted))
    case Settle(_) => at.(hold := Settled(at.phase.outcome))
    case Crash(_) => at.(phase := Crashed)
    case Chain(_, lands) => at.(fate := if lands then Landed else Errored)
    case _ => at
  }

  /** The key store after a step; only three steps touch it. */
  function SlotsAfter(s: State, st: Step): Slots
    requires Enabled(s, st)
  {
    match st
    case Claim(a) => Claimed(s.slots, s.now, s.attempts[a].key)
    case Abandon(a) => s.slots - {s.attempts[a].key}
    case Record(a, answer) =>
      if answer == RaisedBeforeWrite then s.slots
      else Finished(s.slots, s.attempts[a].key, s.attempts[a].phase.sig)
    case Resave(a, ok) =>
      if ok then Finished(s.slots, s.attempts[a].key, s.attempts[a].phase.sig) else s.slots
    case _ => s.slots
  }

  function Apply(s: State, st: Step): State
    requires Enabled(s, st)
  {
    if st.Tick? then s.(now := s.now + st.seconds)
    else if st.Begin? then s.(attempts := s.attempts[st.a := Attempt(st.key, Start, OnHold, false, NotSent)])
    else
      State(s.now, SlotsAfter(s, st), s.attempts[st.a := Moved(s, s.attempts[st.a], st)],
            if st.Send? then s.log + [st.a] else s.log)
  }

  const INITIAL := State(0, map[], map[], [])

  predicate Valid(s: State, steps: seq<Step>)
    decreases |steps|
  {
    steps == [] || (Enabled(s, steps[0]) && Valid(Apply(s, steps[0]), steps[1..]))
  }

  function Exec(s: State, steps: seq<Step>): State
    requires Valid(s, steps)
    decreases |steps|
  {
    if steps == [] then s else Exec(Apply(s, steps[0]), steps[1..])
  }

  // ---------------------------------------------------------------- one broadcast per key

  predicate Owns(at: Attempt) {
    at.phase.Claiming? || at.phase.Built? || at.phase.Dropping? || at.phase.Ready?
  }

  predicate InTime(s: State, at: Attempt)
    requires Owns(at)
  {
    s.now < at.phase.at + ORDER_TTL
  }

  /** The proviso: an attempt that writes or deletes its key still holds the claim it made. */
  predicate Timely(s: State, st: Step)
    requires Enabled(s, st)
  {
    st.Abandon? || st.Record? ==> InTime(s, s.attempts[st.a])
  }

  predicate TimelyRun(s: State, steps: seq<Step>)
    requires Valid(s, steps)
    decreases |steps|
  {
    steps == [] || (Timely(s, steps[0]) && TimelyRun(Apply(s, steps[0]), steps[1..]))
  }

  predicate Permanent(s: State, k: Key) { k in s.slots && s.slots[k].expiry == None }

  /** The signature was recorded: the key can never be claimed again. */
  predicate Locked(at: Attempt) {
    at.broadcast || at.phase.Recorded? || at.phase.Sent? || at.phase.Resaved? || at.phase.Landing?
  }

  predicate Current(s: State, at: Attempt) { Owns(at) && InTime(s, at) }

  predicate HoldsKey(s: State, at: Attempt) {
    Current(s, at) ==> at.key in s.slots && s.slots[at.key] == Slot(Pending, Some(at.phase.at + ORDER_TTL))
  }

  /** Two attempts on one key: at most one current owner, at most one locked. */
  predicate Apart(s: State, at: Attempt, bt: Attempt) {
    at.key == bt.key ==> !(Current(s, at) && Current(s, bt)) && !(Locked(at) && Locked(bt))
  }

  predicate SentOnce(at: Attempt) {
    at.broadcast ==> !Owns(at) && !at.phase.Start? && !at.phase.Recorded?
  }

  ghost predicate OneOwner(s: State) {
    && (forall a :: a in s.attempts ==>
         HoldsKey(s, s.attempts[a]) && SentOnce(s.attempts[a])
         && (Locked(s.attempts[a]) ==> Permanent(s, s.attempts[a].key)))
    && (forall a, b :: a in s.attempts && b in s.attempts && a != b ==> Apart(s, s.attempts[a], s.attempts[b]))
  }

  ghost predicate LogOk(s: State) {
    && (forall i :: 0 <= i < |s.log| ==> s.log[i] in s.attempts && s.attempts[s.log[i]].broadcast)
    && (forall i, j :: 0 <= i < j < |s.log| ==> s.log[i] != s.log[j])
  }

  /** One attempt, itself moving or standing by, after any step. */
  lemma StepKeepsOne(s: State, st: Step, b: AttemptId)
    requires OneOwner(s) && Enabled(s, st) && Timely(s, st) && b in Apply(s, st).attempts
    ensures var s' := Apply(s, st);
            HoldsKey(s', s'.attempts[b]) && SentOnce(s'.attempts[b])
            && (Locked(s'.attempts[b]) ==> Permanent(s', s'.attempts[b].key))
  {
    if b in s.attempts && !st.Tick? && !st.Begin? && b != st.a {
      assert Apart(s, s.attempts[b], s.attempts[st.a]);
    }
  }

  /** The attempt that moves stays apart from every other. */
  lemma StepKeepsApart(s: State, st: Step, b: AttemptId)
    requires OneOwner(s) && Enabled(s, st) && Timely(s, st) && !st.Tick? && b in s.attempts && b != st.a
    ensures Apart(Apply(s, st), Apply(s, st).attempts[st.a], s.attempts[b])
  {
    if !st.Begin? { assert Apart(s, s.attempts[st.a], s.attempts[b]); }
  }

  lemma StepKeepsOwner(s: State, st: Step)
    requires OneOwner(s) && Enabled(s, st) && Timely(s, st)
    ensures OneOwner(Apply(s, st))
  {
    var s' := Apply(s, st);
    forall a | a in s'.attempts
      ensures HoldsKey(s', s'.attempts[a]) && SentOnce(s'.attempts[a])
              && (Locked(s'.attempts[a]) ==> Permanent(s', s'.attempts[a].key))
    {
      StepKeepsOne(s, st, a);
    }
    forall a, b | a in s'.attempts && b in s'.attempts && a != b
      ensures Apart(s', s'.attempts[a], s'.attempts[b])
    {
      if st.Tick? || (a != st.a && b != st.a) {
        assert Apart(s, s.attempts[a], s.attempts[b]);
      } else {
        StepKeepsApart(s, st, if a == st.a then b else a);
      }
    }
  }

  lemma StepKeepsLog(s: State, st: Step)
    requires OneOwner(s) && LogOk(s) && Enabled(s, st)
    ensures LogOk(Apply(s, st))
  {
    if st.Send? { assert SentOnce(s.attempts[st.a]); }
  }

  lemma {:induction false} RunKeepsOneOwner(s: State, steps: seq<Step>)
    requires OneOwner(s) && LogOk(s) && Valid(s, steps) && TimelyRun(s, steps)
    ensures OneOwner(Exec(s, steps)) && LogOk(Exec(s, steps))
    decreases |steps|
  {
    if steps != [] {
      StepKeepsOwner(s, steps[0]);
      StepKeepsLog(s, steps[0]);
      RunKeepsOneOwner(Apply(s, steps[0]), steps[1..]);
    }
  }

  /** No two broadcasts share a key. */
  ghost predicate OncePerKey(s: State) {
    forall i, j :: 0 <= i < j < |s.log| ==>
      s.log[i] in s.attempts && s.log[j] in s.attempts && s.attempts[s.log[i]].key != s.attempts[s.log[j]].key
  }

  lemma OwnersSendOnce(s: State)
    requires OneOwner(s) && LogOk(s)
    ensures OncePerKey(s)
  {
    forall i, j | 0 <= i < j < |s.log|
      ensures s.log[i] in s.attempts && s.log[j] in s.attempts
              && s.attempts[s.log[i]].key != s.attempts[s.log[j]].key
    {
      assert Apart(s, s.attempts[s.log[i]], s.attempts[s.log[j]]);
    }
  }

  /** At most one send per idempotency key, over every interleaving of attempts, crashes and retries in
      which a claim is recorded or dropped before it expires. */
  lemma OneBroadcastPerKey(steps: seq<Step>)
    requires Valid(INITIAL, steps) && TimelyRun(INITIAL, steps)
    ensures OncePerKey(Exec(INITIAL, steps))
  {
    RunKeepsOneOwner(INITIAL, steps);
    OwnersSendOnce(Exec(INITIAL, steps));
  }

  // ---------------------------------------------------------------- holds

  /** What the phase of an attempt says about its transaction and its reservation. */
  predicate PhaseTells(at: Attempt) {
    && (!at.broadcast ==> at.fate == NotSent)
    && (match at.phase
        case Dropping(_, why) => why != OnChainError && !at.broadcast && at.hold == OnHold
        case Sent(_) => at.broadcast && at.fate != NotSent && at.hold == OnHold
        case Resaved(_) => at.broadcast && at.fate != NotSent && at.hold == OnHold
        case Landing(_) => at.fate == Landed && at.hold == OnHold
        case Done(Confirmed) => at.fate == Landed && at.hold != GivenBack
        case Done(Submitted) => at.hold == OnHold
        case Done(Failed(OnChainError)) => at.fate == Errored && at.hold != Booked
        case Done(Failed(_)) => !at.broadcast && at.hold != Booked
        case Crashed => at.hold == OnHold
        case _ => !at.broadcast && at.hold == OnHold)
  }

  ghost predicate PhasesTell(s: State) {
    forall a :: a in s.attempts ==> PhaseTells(s.attempts[a])
  }

  lemma StepKeepsPhases(s: State, st: Step)
    requires PhasesTell(s) && Enabled(s, st)
    ensures PhasesTell(Apply(s, st))
  {
    var s' := Apply(s, st);
    forall a | a in s'.attempts ensures PhaseTells(s'.attempts[a]) {
      if a in s.attempts { assert PhaseTells(s.attempts[a]); }
    }
  }

  lemma {:induction false} RunKeepsPhases(s: State, steps: seq<Step>)
    requires PhasesTell(s) && Valid(s, steps)
    ensures PhasesTell(Exec(s, steps))
    decreases |steps|
  {
    if steps != [] {
      StepKeepsPhases(s, steps[0]);
      RunKeepsPhases(Apply(s, steps[0]), steps[1..]);
    }
  }

  /** A reservation is released only when its transaction was never broadcast or came back with
      an on-chain error, committed only when it landed, and kept in every ambiguous case. No
      assumption about time is needed. */
  lemma ReleasedNeverLands(steps: seq<Step>, a: AttemptId)
    requires Valid(INITIAL, steps) && a in Exec(INITIAL, steps).attempts
    ensures var at := Exec(INITIAL, steps).attempts[a];
            && (at.hold == GivenBack ==> !at.broadcast || at.fate == Errored)
            && (at.hold == GivenBack ==> at.fate != InFlight && at.fate != Landed)
            && (at.hold == Booked ==> at.fate == Landed)
            && (at.phase == Done(Submitted) || at.phase == Crashed ==> at.hold == OnHold)
  {
    RunKeepsPhases(INITIAL, steps);
  }

  /** And it stays so: no continuation of the run lands a released transaction. */
  lemma {:induction false} ReleasedForGood(s: State, steps: seq<Step>, a: AttemptId)
    requires PhasesTell(s) && Valid(s, steps)
    requires a in s.attempts && s.attempts[a].hold == GivenBack
    ensures a in Exec(s, steps).attempts && Exec(s, steps).attempts[a] == s.attempts[a]
    decreases |steps|
  {
    if steps != [] {
      assert PhaseTells(s.attempts[a]);
      StepKeepsPhases(s, steps[0]);
      ReleasedForGood(Apply(s, steps[0]), steps[1..], a);
    }
  }

  // ---------------------------------------------------------------- the exact proviso

  /** A record comes within r seconds of its attempt's claim, a drop within d. */
  predicate Within(s: State, st: Step, r: nat, d: nat)
    requires Enabled(s, st)
  {
    && (st.Record? ==> s.now <= s.attempts[st.a].phase.at + r)
    && (st.Abandon? ==> s.now <= s.attempts[st.a].phase.at + d)
  }

  predicate WithinRun(s: State, steps: seq<Step>, r: nat, d: nat)
    requires Valid(s, steps)
    decreases |steps|
  {
    steps == [] || (Within(s, steps[0], r, d) && WithinRun(Apply(s, steps[0]), steps[1..], r, d))
  }

  lemma {:induction false} WithinIsTimely(s: State, steps: seq<Step>, r: nat, d: nat)
    requires Valid(s, steps) && WithinRun(s, steps, r, d) && r < ORDER_TTL && d < ORDER_TTL
    ensures TimelyRun(s, steps)
    decreases |steps|
  {
    if steps != [] { WithinIsTimely(Apply(s, steps[0]), steps[1..], r, d); }
  }

  lemma {:induction false} Snoc(s: State, steps: seq<Step>, st: Step)
    requires Valid(s, steps) && Enabled(Exec(s, steps), st)
    ensures Valid(s, steps + [st]) && Exec(s, steps + [st]) == Apply(Exec(s, steps), st)
    decreases |steps|
  {
    if steps == [] {
      assert steps + [st] == [st];
    } else {
      Snoc(Apply(s, steps[0]), steps[1..], st);
      assert (steps + [st])[1..] == steps[1..] + [st];
    }
  }

  lemma {:induction false} SnocWithin(s: State, steps: seq<Step>, st: Step, r: nat, d: nat)
    requires Valid(s, steps) && Enabled(Exec(s, steps), st)
    requires WithinRun(s, steps, r, d) && Within(Exec(s, steps), st, r, d)
    ensures Valid(s, steps + [st]) && WithinRun(s, steps + [st], r, d)
    decreases |steps|
  {
    if steps == [] {
      assert steps + [st] == [st];
    } else {
      SnocWithin(Apply(s, steps[0]), steps[1..], st, r, d);
      assert (steps + [st])[1..] == steps[1..] + [st];
    }
  }

  lemma {:induction false} Join(s: State, xs: seq<Step>, ys: seq<Step>)
    requires Valid(s, xs) && Valid(Exec(s, xs), ys)
    ensures Valid(s, xs + ys) && Exec(s, xs + ys) == Exec(Exec(s, xs), ys)
    decreases |xs|
  {
    if xs == [] {
      assert xs + ys == ys;
    } else {
      Join(Apply(s, xs[0]), xs[1..], ys);
      assert (xs + ys)[1..] == xs[1..] + ys;
    }
  }

  /** A run from the initial state that ends in `end`, with every record and drop within its bound. */
  ghost predicate Reaches(steps: seq<Step>, end: State, r: nat, d: nat) {
    Valid(INITIAL, steps) && WithinRun(INITIAL, steps, r, d) && Exec(INITIAL, steps) == end
  }

  lemma Then(steps: seq<Step>, cur: State, st: Step, r: nat, d: nat) returns (longer: seq<Step>, next: State)
    requires Reaches(steps, cur, r, d) && Enabled(cur, st) && Within(cur, st, r, d)
    ensures longer == steps + [st] && next == Apply(cur, st) && Reaches(longer, next, r, d)
  {
    Snoc(INITIAL, steps, st);
    SnocWithin(INITIAL, steps, st, r, d);
    longer, next := steps + [st], Apply(cur, st);
  }

  function Waiting(k: Key, phase: Phase): Attempt { Attempt(k, phase, OnHold, false, NotSent) }

  function Broadcast(k: Key, sig: Sig): Attempt { Attempt(k, Phase.Sent(sig), OnHold, true, InFlight) }

  function Claims(k: Key, at: nat): Slots { map[k := Slot(Pending, Some(at + ORDER_TTL))] }

  // A record that comes too late: two attempts on one key, the first stalled past ORDER_TTL between signing
  // and recording.

  function StalledRun(k: Key): seq<Step> {
    [Begin(0, k), Claim(0), Prepare(0, true), Sign(0, Some(7)), Tick(ORDER_TTL),
     Begin(1, k), Claim(1), Prepare(1, true), Sign(1, Some(8)), Record(1, Wrote), Send(1, Accepted),
     Record(0, Wrote), Send(0, Accepted)]
  }

  function Stalled(k: Key): State {
    State(ORDER_TTL, Claims(k, 0), map[0 := Waiting(k, Ready(0, 7))], [])
  }

  function Overtaken(k: Key): State {
    State(ORDER_TTL, Claims(k, ORDER_TTL),
          map[0 := Waiting(k, Ready(0, 7)), 1 := Waiting(k, Ready(ORDER_TTL, 8))], [])
  }

  function Claimant(k: Key): State { State(0, Claims(k, 0), map[0 := Waiting(k, Claiming(0))], []) }

  lemma ReachClaimant(k: Key)
    ensures Reaches([Begin(0, k), Claim(0)], Claimant(k), 0, 0)
  {
    var r, s := Then([], INITIAL, Begin(0, k), 0, 0);
    r, s := Then(r, s, Claim(0), 0, 0);
    assert s.attempts == Claimant(k).attempts && s.slots == Claimant(k).slots;
  }

  lemma ReachStalled(k: Key)
    ensures Reaches(StalledRun(k)[..5], Stalled(k), ORDER_TTL, 0)
  {
    ReachClaimant(k);
    WithinLoosens(INITIAL, [Begin(0, k), Claim(0)], 0, 0, ORDER_TTL, 0);
    var r, s := Then([Begin(0, k), Claim(0)], Claimant(k), Prepare(0, true), ORDER_TTL, 0);
    r, s := Then(r, s, Sign(0, Some(7)), ORDER_TTL, 0);
    r, s := Then(r, s, Tick(ORDER_TTL), ORDER_TTL, 0);
    assert r == StalledRun(k)[..5];
    assert s.attempts == Stalled(k).attempts && s.slots == Stalled(k).slots;
  }

  lemma ReachOvertaken(k: Key)
    ensures Reaches(StalledRun(k)[..9], Overtaken(k), ORDER_TTL, 0)
  {
    ReachStalled(k);
    var r, s := Then(StalledRun(k)[..5], Stalled(k), Begin(1, k), ORDER_TTL, 0);
    r, s := Then(r, s, Claim(1), ORDER_TTL, 0);
    r, s := Then(r, s, Prepare(1, true), ORDER_TTL, 0);
    r, s := Then(r, s, Sign(1, Some(8)), ORDER_TTL, 0);
    assert r == StalledRun(k)[..9];
    assert s.attempts == Overtaken(k).attempts && s.slots == Overtaken(k).slots;
  }

  /** One record ORDER_TTL seconds after its claim, and the key is broadcast twice. */
  lemma StallBroadcastsTwice(k: Key)
    ensures Valid(INITIAL, StalledRun(k)) && WithinRun(INITIAL, StalledRun(k), ORDER_TTL, 0)
    ensures var end := Exec(INITIAL, StalledRun(k)); end.log == [1, 0] && !OncePerKey(end)
  {
    ReachOvertaken(k);
    var r, s := Then(StalledRun(k)[..9], Overtaken(k), Record(1, Wrote), ORDER_TTL, 0);
    r, s := Then(r, s, Send(1, Accepted), ORDER_TTL, 0);
    r, s := Then(r, s, Record(0, Wrote), ORDER_TTL, 0);
    r, s := Then(r, s, Send(0, Accepted), ORDER_TTL, 0);
    assert r == StalledRun(k);
    assert s.log[0] == 1 && s.log[1] == 0;
  }

  // A drop that comes too late: the first attempt is stalled before it deletes its key, and by then deletes
  // the signature of the second.

  function LateDropRun(k: Key): seq<Step> {
    [Begin(0, k), Claim(0), Prepare(0, false), Tick(ORDER_TTL),
     Begin(1, k), Claim(1), Prepare(1, true), Sign(1, Some(8)), Record(1, Wrote), Send(1, Accepted), Abandon(0),
     Begin(2, k), Claim(2), Prepare(2, true), Sign(2, Some(9)), Record(2, Wrote), Send(2, Accepted)]
  }

  function Undropped(k: Key): State {
    State(ORDER_TTL, Claims(k, 0), map[0 := Waiting(k, Dropping(0, NotPrepared))], [])
  }

  function Replaced(k: Key): State {
    State(ORDER_TTL, Claims(k, ORDER_TTL),
          map[0 := Waiting(k, Dropping(0, NotPrepared)), 1 := Waiting(k, Ready(ORDER_TTL, 8))], [])
  }

  function Forgotten(k: Key): State {
    State(ORDER_TTL, map[], map[0 := Waiting(k, Done(Failed(NotPrepared))), 1 := Broadcast(k, 8)], [1])
  }

  lemma ReachUndropped(k: Key)
    ensures Reaches(LateDropRun(k)[..4], Undropped(k), 0, ORDER_TTL)
  {
    ReachClaimant(k);
    WithinLoosens(INITIAL, [Begin(0, k), Claim(0)], 0, 0, 0, ORDER_TTL);
    var r, s := Then([Begin(0, k), Claim(0)], Claimant(k), Prepare(0, false), 0, ORDER_TTL);
    r, s := Then(r, s, Tick(ORDER_TTL), 0, ORDER_TTL);
    assert r == LateDropRun(k)[..4];
    assert s.attempts == Undropped(k).attempts && s.slots == Undropped(k).slots;
  }

  function Reclaimed(k: Key): State {
    State(ORDER_TTL, Claims(k, ORDER_TTL),
          map[0 := Waiting(k, Dropping(0, NotPrepared)), 1 := Waiting(k, Claiming(ORDER_TTL))], [])
  }

  lemma ReachReclaimed(k: Key)
    ensures Reaches(LateDropRun(k)[..6], Reclaimed(k), 0, ORDER_TTL)
  {
    ReachUndropped(k);
    var r, s := Then(LateDropRun(k)[..4], Undropped(k), Begin(1, k), 0, ORDER_TTL);
    r, s := Then(r, s, Claim(1), 0, ORDER_TTL);
    assert r == LateDropRun(k)[..6];
    assert s.attempts == Reclaimed(k).attempts && s.slots == Reclaimed(k).slots;
  }

  lemma ReachReplaced(k: Key)
    ensures Reaches(LateDropRun(k)[..8], Replaced(k), 0, ORDER_TTL)
  {
    ReachReclaimed(k);
    var r, s := Then(LateDropRun(k)[..6], Reclaimed(k), Prepare(1, true), 0, ORDER_TTL);
    r, s := Then(r, s, Sign(1, Some(8)), 0, ORDER_TTL);
    assert r == LateDropRun(k)[..8];
    assert s.attempts == Replaced(k).attempts && s.slots == Replaced(k).slots;
  }

  lemma ReachForgotten(k: Key)
    ensures Reaches(LateDropRun(k)[..11], Forgotten(k), 0, ORDER_TTL)
  {
    ReachReplaced(k);
    var r, s := Then(LateDropRun(k)[..8], Replaced(k), Record(1, Wrote), 0, ORDER_TTL);
    r, s := Then(r, s, Send(1, Accepted), 0, ORDER_TTL);
    r, s := Then(r, s, Abandon(0), 0, ORDER_TTL);
    assert r == LateDropRun(k)[..11];
    assert s.attempts == Forgotten(k).attempts && s.slots == Forgotten(k).slots;
  }

  /** The third attempt has claimed and signed as if there had been no second. */
  function Repeated(k: Key): State {
    State(ORDER_TTL, Claims(k, ORDER_TTL),
          map[0 := Waiting(k, Done(Failed(NotPrepared))), 1 := Broadcast(k, 8),
              2 := Waiting(k, Ready(ORDER_TTL, 9))], [1])
  }

  lemma ReachRepeated(k: Key)
    ensures Reaches(LateDropRun(k)[..15], Repeated(k), 0, ORDER_TTL)
  {
    ReachForgotten(k);
    var r, s := Then(LateDropRun(k)[..11], Forgotten(k), Begin(2, k), 0, ORDER_TTL);
    r, s := Then(r, s, Claim(2), 0, ORDER_TTL);
    r, s := Then(r, s, Prepare(2, true), 0, ORDER_TTL);
    r, s := Then(r, s, Sign(2, Some(9)), 0, ORDER_TTL);
    assert r == LateDropRun(k)[..15];
    assert s.attempts == Repeated(k).attempts && s.slots == Repeated(k).slots;
  }

  /** Every record on time, one drop ORDER_TTL seconds after its claim, and the key is broadcast twice. */
  lemma LateDropBroadcastsTwice(k: Key)
    ensures Valid(INITIAL, LateDropRun(k)) && WithinRun(INITIAL, LateDropRun(k), 0, ORDER_TTL)
    ensures var end := Exec(INITIAL, LateDropRun(k)); end.log == [1, 2] && !OncePerKey(end)
  {
    ReachRepeated(k);
    var r, s := Then(LateDropRun(k)[..15], Repeated(k), Record(2, Wrote), 0, ORDER_TTL);
    r, s := Then(r, s, Send(2, Accepted), 0, ORDER_TTL);
    assert r == LateDropRun(k);
    assert s.log[0] == 1 && s.log[1] == 2;
  }

  lemma {:induction false} WithinLoosens(s: State, steps: seq<Step>, r: nat, d: nat, r': nat, d': nat)
    requires Valid(s, steps) && WithinRun(s, steps, r, d) && r <= r' && d <= d'
    ensures WithinRun(s, steps, r', d')
    decreases |steps|
  {
    if steps != [] { WithinLoosens(Apply(s, steps[0]), steps[1..], r, d, r', d'); }
  }

  /** Every run sends each key at most once. */
  ghost predicate AlwaysOnce(r: nat, d: nat) {
    forall steps :: Valid(INITIAL, steps) && WithinRun(INITIAL, steps, r, d) ==> OncePerKey(Exec(INITIAL, steps))
  }

  /** Let records come within r seconds of their claim and drops within d. Then no key is ever broadcast
      twice, whatever interleaves, if and only if both bounds are below ORDER_TTL. */
  lemma OneBroadcastExactlyWhen(r: nat, d: nat)
    ensures AlwaysOnce(r, d) <==> r < ORDER_TTL && d < ORDER_TTL
  {
    if r < ORDER_TTL && d < ORDER_TTL {
      forall steps | Valid(INITIAL, steps) && WithinRun(INITIAL, steps, r, d)
        ensures OncePerKey(Exec(INITIAL, steps))
      {
        WithinIsTimely(INITIAL, steps, r, d);
        OneBroadcastPerKey(steps);
      }
    } else if r >= ORDER_TTL {
      StallBroadcastsTwice("");
      WithinLoosens(INITIAL, StalledRun(""), ORDER_TTL, 0, r, d);
    } else {
      LateDropBroadcastsTwice("");
      WithinLoosens(INITIAL, LateDropRun(""), 0, ORDER_TTL, r, d);
    }
  }
}
