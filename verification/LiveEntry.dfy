/** One live entry from claim to settlement, in the order the code awaits: LiveExecutor.execute
    (src/asm/execution/live.py) and DecisionService._execute_entry
    (src/asm/services/decision_service.py). Each method also returns, as ghosts, the steps of the
    transition system it performed, so what OrderProtocol proves of every run covers it. */
module LiveEntry {
  import opened Numeric
  import opened Ledger
  import opened OrderProtocol

  /** What the outside world answers, one field for each awaited call. */
  datatype Answers = Answers(
    prepared: bool, signed: Option<Sig>, recorded: RecordAnswer, sent: SendAnswer, resaved: bool,
    confirmed: ConfirmAnswer, matched: bool, filledAmount: int, filledUsd: real)

  /** The answers after which the signed transaction goes out. */
  predicate Sends(x: Answers) { x.prepared && x.signed.Some? && x.recorded == Wrote }

  /** The answers after which the chain is asked what became of it. */
  predicate Asks(x: Answers) { Sends(x) && x.sent == Accepted && x.resaved }

  predicate Fills(x: Answers) { x.confirmed == ReportsSuccess && x.matched && x.filledAmount > 0 }

  /** The key of an order whose claim succeeded: gone if nothing was signed, the claim alone if the record never
      took effect, and otherwise the signature for good. */
  function KeyAfter(slots: Slots, now: nat, k: Key, x: Answers): Slots {
    if !x.prepared || x.signed.None? then slots - {k}
    else if x.recorded == RaisedBeforeWrite then slots[k := Slot(Pending, Some(now + ORDER_TTL))]
    else slots[k := Slot(Signed(x.signed.value), None)]
  }

  /** How an order whose claim succeeded ends. */
  function StatusOf(x: Answers): Outcome {
    if !x.prepared then Failed(NotPrepared)
    else if x.signed.None? then Failed(SignerRefused)
    else if Asks(x) && x.confirmed == ReportsError then Failed(OnChainError)
    else if Asks(x) && Fills(x) then Confirmed
    else Submitted
  }

  /** What each status says about the answers, and about whether the key was `free`. */
  predicate Told(free: bool, x: Answers, status: Outcome) {
    && (status == Failed(Duplicate) <==> !free)
    && (status == Failed(NotPrepared) <==> free && !x.prepared)
    && (status == Failed(SignerRefused) <==> free && x.prepared && x.signed.None?)
    && (status == Failed(OnChainError)
        <==> free && x.prepared && x.signed.Some? && x.recorded == Wrote && x.sent == Accepted && x.resaved
             && x.confirmed == ReportsError)
    && (status == Confirmed
        <==> free && x.prepared && x.signed.Some? && x.recorded == Wrote && x.sent == Accepted && x.resaved
             && x.confirmed == ReportsSuccess && x.matched && x.filledAmount > 0)
    && (status == Submitted
        <==> free && x.prepared && x.signed.Some?
             && !(x.recorded == Wrote && x.sent == Accepted && x.resaved
                  && (x.confirmed == ReportsError
                      || (x.confirmed == ReportsSuccess && x.matched && x.filledAmount > 0))))
  }

  lemma TellsTheOutcome(x: Answers)
    ensures Told(true, x, StatusOf(x)) && Told(false, x, Failed(Duplicate))
  {
  }

  lemma KeyOfClaim(slots: Slots, now: nat, k: Key, x: Answers)
    requires !Live(slots, now, k)
    ensures var claimed := Claimed(slots, now, k);
            KeyAfter(slots, now, k, x)
            == if !x.prepared || x.signed.None? then claimed - {k}
               else if x.recorded == RaisedBeforeWrite then claimed
               else claimed[k := Slot(Signed(x.signed.value), None)]
  {
  }

  /** Extends a run known to lead from `from` to `cur`. */
  lemma Extend(from: State, steps: seq<Step>, cur: State, st: Step)
    requires Valid(from, steps) && Exec(from, steps) == cur && Enabled(cur, st)
    ensures Valid(from, steps + [st]) && Exec(from, steps + [st]) == Apply(cur, st)
  {
    Snoc(from, steps, st);
  }

  /** A machine state that agrees with the key store, and the attempt still to start. */
  ghost predicate AtStart(s: State, d: Dedupe, a: AttemptId, k: Key)
    reads d
  {
    s.slots == d.slots && s.now == d.now
    && a in s.attempts && s.attempts[a] == Attempt(k, Start, OnHold, false, NotSent)
  }

  class LiveExecutor {
    const dedupe: Dedupe

    constructor (d: Dedupe)
      ensures dedupe == d
    {
      dedupe := d;
    }

    method Execute(k: Key, answers: Answers, ghost s: State, ghost a: AttemptId)
      returns (status: Outcome, ghost steps: seq<Step>, ghost end: State)
      requires AtStart(s, dedupe, a, k)
      modifies dedupe`slots
      ensures Valid(s, steps) && Exec(s, steps) == end
      ensures end.slots == dedupe.slots && end.now == s.now
      ensures end.attempts.Keys == s.attempts.Keys
      ensures forall b :: b in s.attempts && b != a ==> end.attempts[b] == s.attempts[b]
      ensures end.attempts[a].phase == Done(status) && end.attempts[a].hold == OnHold
      ensures Told(!old(Live(dedupe.slots, dedupe.now, k)), answers, status)
      ensures end.attempts[a].broadcast <==> !old(Live(dedupe.slots, dedupe.now, k)) && Sends(answers)
      ensures end.log == if end.attempts[a].broadcast then s.log + [a] else s.log
      ensures dedupe.slots == if old(Live(dedupe.slots, dedupe.now, k)) then old(dedupe.slots)
                              else KeyAfter(old(dedupe.slots), dedupe.now, k, answers)
    {
      steps, end := [Claim(a)], Apply(s, Claim(a));
      Extend(s, [], s, Claim(a));
      var claimed := dedupe.ClaimOrder(k);
      TellsTheOutcome(answers);
      if !claimed { return Failed(Duplicate), steps, end; }
      KeyOfClaim(s.slots, s.now, k, answers);
      ghost var more: seq<Step>;
      status, more, end := SignAndSend(k, answers, end, a);
      Join(s, steps, more);
      steps := steps + more;
    }

    /** The key is claimed: build, sign, and broadcast, or drop the order. */
    method SignAndSend(k: Key, answers: Answers, ghost s: State, ghost a: AttemptId)
      returns (status: Outcome, ghost steps: seq<Step>, ghost end: State)
      requires s.slots == dedupe.slots && s.now == dedupe.now && Live(s.slots, s.now, k)
      requires a in s.attempts && s.attempts[a].phase.Claiming? && s.attempts[a].key == k
      requires s.attempts[a].hold == OnHold && !s.attempts[a].broadcast
      modifies dedupe`slots
      ensures Valid(s, steps) && Exec(s, steps) == end
      ensures end.slots == dedupe.slots && end.now == s.now
      ensures end.attempts.Keys == s.attempts.Keys
      ensures forall b :: b in s.attempts && b != a ==> end.attempts[b] == s.attempts[b]
      ensures end.attempts[a].phase == Done(status) && end.attempts[a].hold == OnHold
      ensures status == StatusOf(answers)
      ensures end.attempts[a].broadcast <==> Sends(answers)
      ensures end.log == if Sends(answers) then s.log + [a] else s.log
      ensures dedupe.slots == if !answers.prepared || answers.signed.None? then s.slots - {k}
                              else if answers.recorded == RaisedBeforeWrite then s.slots
                              else s.slots[k := Slot(Signed(answers.signed.value), None)]
    {
      steps, end := [Prepare(a, answers.prepared)], Apply(s, Prepare(a, answers.prepared));
      Extend(s, [], s, Prepare(a, answers.prepared));
      if !answers.prepared {
        status, steps, end := Drop(k, NotPrepared, s, steps, end, a);
        return;
      }
      Extend(s, steps, end, Sign(a, answers.signed));
      steps, end := steps + [Sign(a, answers.signed)], Apply(end, Sign(a, answers.signed));
      if answers.signed == None {
        status, steps, end := Drop(k, SignerRefused, s, steps, end, a);
        return;
      }
      ghost var more: seq<Step>;
      status, more, end := Broadcast(k, answers, end, a);
      Join(s, steps, more);
      steps := steps + more;
    }

    /** Nothing was signed: the key is given back. */
    method Drop(k: Key, why: Why, ghost from: State, ghost before: seq<Step>, ghost s: State, ghost a: AttemptId)
      returns (status: Outcome, ghost steps: seq<Step>, ghost end: State)
      requires Valid(from, before) && Exec(from, before) == s && s.slots == dedupe.slots
      requires a in s.attempts && s.attempts[a].phase.Dropping? && s.attempts[a].key == k
      requires s.attempts[a].phase.why == why
      modifies dedupe`slots
      ensures steps == before + [Abandon(a)] && Valid(from, steps) && Exec(from, steps) == end
      ensures dedupe.slots == s.slots - {k}
      ensures end == State(s.now, dedupe.slots, s.attempts[a := s.attempts[a].(phase := Done(status))], s.log)
      ensures status == Failed(why)
    {
      Extend(from, before, s, Abandon(a));
      steps, end := before + [Abandon(a)], Apply(s, Abandon(a));
      dedupe.AbandonOrder(k);
      status := Failed(why);
    }

    /** From the signed transaction on, nothing deletes the key any more. */
    method Broadcast(k: Key, answers: Answers, ghost s: State, ghost a: AttemptId)
      returns (status: Outcome, ghost steps: seq<Step>, ghost end: State)
      requires s.slots == dedupe.slots && s.now == dedupe.now && answers.signed.Some?
      requires a in s.attempts && s.attempts[a].phase.Ready? && s.attempts[a].phase.sig == answers.signed.value
      requires s.attempts[a].key == k && s.attempts[a].hold == OnHold && Live(s.slots, s.now, k)
      requires !s.attempts[a].broadcast
      modifies dedupe`slots
      ensures Valid(s, steps) && Exec(s, steps) == end
      ensures end.slots == dedupe.slots && end.now == s.now
      ensures end.attempts.Keys == s.attempts.Keys
      ensures forall b :: b in s.attempts && b != a ==> end.attempts[b] == s.attempts[b]
      ensures end.attempts[a].phase == Done(status) && end.attempts[a].hold == OnHold
      ensures var asks := answers.recorded == Wrote && answers.sent == Accepted && answers.resaved;
              status == if asks && answers.confirmed == ReportsError then Failed(OnChainError)
                        else if asks && Fills(answers) then Confirmed else Submitted
      ensures end.attempts[a].broadcast <==> answers.recorded == Wrote
      ensures end.log == if answers.recorded == Wrote then s.log + [a] else s.log
      ensures Live(dedupe.slots, dedupe.now, k)
      ensures dedupe.slots == if answers.recorded == RaisedBeforeWrite then s.slots
                              else s.slots[k := Slot(Signed(answers.signed.value), None)]
    {
      steps, end := [], s;
      var sig := answers.signed.value;
      Extend(s, steps, end, Record(a, answers.recorded));
      steps, end := steps + [Record(a, answers.recorded)], Apply(end, Record(a, answers.recorded));
      if answers.recorded == RaisedBeforeWrite { return Submitted, steps, end; }
      dedupe.FinishOrder(k, sig);
      if answers.recorded == RaisedAfterWrite { return Submitted, steps, end; }

      Extend(s, steps, end, Send(a, answers.sent));
      steps, end := steps + [Send(a, answers.sent)], Apply(end, Send(a, answers.sent));
      if answers.sent != Accepted { return Submitted, steps, end; }

      Extend(s, steps, end, Resave(a, answers.resaved));
      steps, end := steps + [Resave(a, answers.resaved)], Apply(end, Resave(a, answers.resaved));
      if !answers.resaved { return Submitted, steps, end; }
      dedupe.FinishOrder(k, sig);

      ghost var more: seq<Step>;
      status, more, end := Await(answers, end, a);
      Join(s, steps, more);
      steps := steps + more;
    }

    /** Confirmation and reconciliation: they read the chain and touch no key. */
    method Await(answers: Answers, ghost s: State, ghost a: AttemptId)
      returns (status: Outcome, ghost steps: seq<Step>, ghost end: State)
      requires a in s.attempts && s.attempts[a].phase.Resaved? && s.attempts[a].fate == InFlight
      requires s.attempts[a].hold == OnHold
      ensures Valid(s, steps) && Exec(s, steps) == end
      ensures end.slots == s.slots && end.now == s.now && end.attempts.Keys == s.attempts.Keys
      ensures end.log == s.log && end.attempts[a].broadcast == s.attempts[a].broadcast
      ensures forall b :: b in s.attempts && b != a ==> end.attempts[b] == s.attempts[b]
      ensures end.attempts[a].phase == Done(status) && end.attempts[a].hold == OnHold
      ensures status == Failed(OnChainError) <==> answers.confirmed == ReportsError
      ensures status == Confirmed
         <==> answers.confirmed == ReportsSuccess && answers.matched && answers.filledAmount > 0
      ensures status == Failed(OnChainError) || status == Confirmed || status == Submitted
    {
      steps, end := [], s;
      if answers.confirmed == ReportsError || answers.confirmed == ReportsSuccess {
        ghost var lands := answers.confirmed == ReportsSuccess;
        Extend(s, steps, end, Chain(a, lands));
        steps, end := steps + [Chain(a, lands)], Apply(end, Chain(a, lands));
      }
      Extend(s, steps, end, Confirm(a, answers.confirmed));
      steps, end := steps + [Confirm(a, answers.confirmed)], Apply(end, Confirm(a, answers.confirmed));
      if answers.confirmed == ReportsError { return Failed(OnChainError), steps, end; }
      if answers.confirmed != ReportsSuccess { return Submitted, steps, end; }
      var matched := answers.matched && answers.filledAmount > 0;
      Extend(s, steps, end, Reconcile(a, matched));
      steps, end := steps + [Reconcile(a, matched)], Apply(end, Reconcile(a, matched));
      status := if matched then Confirmed else Submitted;
    }
  }

  /** _execute_entry: commit the actual fill, keep an ambiguous hold, otherwise release it. The
      ledger ends where the machine's settlement of this attempt says. */
  method ExecuteEntry(executor: LiveExecutor, ledger: RiskLedger, res: ResId, k: Key,
                      answers: Answers, ghost s: State, ghost a: AttemptId)
    returns (status: Outcome, ghost steps: seq<Step>, ghost end: State)
    requires AtStart(s, executor.dedupe, a, k)
    modifies executor.dedupe`slots, ledger
    ensures Valid(s, steps) && Exec(s, steps) == end && a in end.attempts
    ensures end.attempts[a].phase == Done(status) && end.slots == executor.dedupe.slots
    ensures var free := !old(Live(executor.dedupe.slots, executor.dedupe.now, k));
            && end.attempts[a].hold == (if free && Asks(answers) && Fills(answers) then Booked
                                        else if !free || !answers.prepared || answers.signed.None? then GivenBack
                                        else if Asks(answers) && answers.confirmed == ReportsError then GivenBack
                                        else OnHold)
            && (end.attempts[a].broadcast <==> free && Sends(answers))
    ensures match end.attempts[a].hold
            case Booked => ledger.State() == AfterCommit(old(ledger.State()), res, answers.filledUsd)
            case GivenBack => ledger.State() == AfterRelease(old(ledger.State()), res)
            case OnHold => ledger.State() == old(ledger.State())
    ensures end.attempts[a].hold == OnHold <==> status == Submitted
    ensures old(HeldIn(ledger.State(), res)) ==>
              (HeldIn(ledger.State(), res) <==> end.attempts[a].hold == OnHold)
  {
    status, steps, end := executor.Execute(k, answers, s, a);
    Extend(s, steps, end, Settle(a));
    steps, end := steps + [Settle(a)], Apply(end, Settle(a));
    if status == Confirmed && answers.filledAmount > 0 {
      var _ := ledger.Commit(res, answers.filledUsd);
    } else if status == Submitted {
      // the outcome is unknown: the capital stays reserved
    } else {
      var _ := ledger.Release(res);
    }
  }
}
