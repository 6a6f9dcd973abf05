/** The emergency controls (SystemControl, src/asm/state/ledger.py). Two keys are written and read
    separately, so control commands of different processes interleave between the reads and
    writes; the RESERVE script is the only step that looks at both keys at once. */
module SystemControl {
  import opened Numeric
  import opened Domain
  import opened Ledger

  datatype SystemState = Stopped | Running | SoftPaused | HardPaused | Killed

  const RUNNING := "running"

  function Name(s: SystemState): string {
    match s
    case Stopped => "stopped"
    case Running => RUNNING
    case SoftPaused => "soft_paused"
    case HardPaused => "hard_paused"
    case Killed => "killed"
  }

  /** What a stored state string means; absent or empty is stopped, nonsense is a hard pause. */
  function Parse(v: Option<string>): SystemState {
    if v == None || v == Some("") || v == Some("stopped") then Stopped
    else if v == Some(RUNNING) then Running
    else if v == Some("soft_paused") then SoftPaused
    else if v == Some("killed") then Killed
    else HardPaused
  }

  function Get(c: Control): SystemState { if c.kill then Killed else Parse(c.state) }

  lemma NamesDiffer()
    ensures Name(Stopped) != RUNNING && Name(SoftPaused) != RUNNING
    ensures Name(HardPaused) != RUNNING && Name(Killed) != RUNNING
  {
    assert RUNNING[0] == 'r' && Name(Stopped)[0] == Name(SoftPaused)[0] == 's';
    assert Name(HardPaused)[0] == 'h' && Name(Killed)[0] == 'k';
  }

  lemma ParseName(s: SystemState)
    ensures Parse(Some(Name(s))) == s
  {
    NamesDiffer();
    assert |Name(Stopped)| == 7 && |Name(SoftPaused)| == 11 && |Name(HardPaused)| == 11 && |Name(Killed)| == 6;
    assert Name(SoftPaused)[0] == 's' && Name(HardPaused)[0] == 'h';
  }

  /** The spending gate and the Python reader agree: an entry passes the control check exactly
      when get() reads RUNNING, so absent, stopped and unknown states never grant. */
  lemma GateAgreesWithGet(c: Control)
    ensures ControlRefusal(c) == None <==> Get(c) == Running
  {
    NamesDiffer();
  }

  /** A state string that is none of the known ones is a hard pause, and an absent or empty one is stopped. */
  lemma UnknownIsPaused(v: string)
    ensures (forall s :: v != Name(s)) && v != "" ==> Parse(Some(v)) == HardPaused
    ensures Parse(None) == Parse(Some("")) == Stopped
  {
    if (forall s :: v != Name(s)) && v != "" {
      assert v != Name(Stopped) && v != Name(Running) && v != Name(SoftPaused) && v != Name(Killed);
    }
  }

  class Controls {
    var keys: Control

    constructor ()
      ensures keys == Control(false, None)
    {
      keys := Control(false, None);
    }

    method Set(s: SystemState)
      modifies this
      ensures keys == old(keys).(state := Some(Name(s)))
      ensures !keys.kill ==> Get(keys) == s
    {
      keys := keys.(state := Some(Name(s)));
      ParseName(s);
    }

    /** Refuses while the latch is set; otherwise the system runs. */
    method Start() returns (started: bool)
      modifies this
      ensures started == old(Get(keys) != Killed)
      ensures started ==> Get(keys) == Running
      ensures !started ==> keys == old(keys)
    {
      var now := Get(keys);
      if now == Killed { return false; }
      Set(Running);
      return true;
    }

    method Stop()
      modifies this
      ensures keys.kill == old(keys.kill) && (!keys.kill ==> Get(keys) == Stopped)
    {
      Set(Stopped);
    }

    method Kill()
      modifies this
      ensures keys == Control(true, Some(Name(Killed)))
    {
      keys := keys.(kill := true);
      Set(Killed);
    }

    /** Clearing never resumes: it leaves the system hard-paused. */
    method ClearKill()
      modifies this
      ensures Get(keys) == HardPaused && ControlRefusal(keys) != None
    {
      keys := Control(false, Some(Name(HardPaused)));
      ParseName(HardPaused);
      GateAgreesWithGet(keys);
    }
  }

  // ---------------------------------------------------------------- interleavings

  type Proc = nat

  /** How far a process is with get(): the latch was seen, or not and the state is still to be
      read, or the state was read. */
  datatype Read = SawLatch | Unlatched | Got(state: SystemState)

  datatype World = World(control: Control, seen: map<Proc, Read>)

  /** The separate atomic accesses the control methods are made of, by any process. */
  datatype Event =
    | WriteKill                      // kill(), first write
    | WriteState(value: string)      // set(), stop(), and kill()'s second write
    | Clear                          // clear_kill(), one transaction
    | ReadKill(p: Proc)              // get(), first read
    | ReadState(p: Proc)             // get(), second read
    | StartWrite(p: Proc)            // start(), after its get()

  predicate Enabled(w: World, e: Event) {
    match e
    case ReadState(p) => p in w.seen && w.seen[p] == Unlatched
    case StartWrite(p) => p in w.seen && w.seen[p].Got? && w.seen[p].state != Killed
    case _ => true
  }

  function Happen(w: World, e: Event): World {
    match e
    case WriteKill => w.(control := w.control.(kill := true))
    case WriteState(v) => w.(control := w.control.(state := Some(v)))
    case Clear => w.(control := Control(false, Some(Name(HardPaused))))
    case ReadKill(p) => w.(seen := w.seen[p := if w.control.kill then SawLatch else Unlatched])
    case ReadState(p) => w.(seen := w.seen[p := Got(Parse(w.control.state))])
    case StartWrite(p) => w.(control := w.control.(state := Some(RUNNING)))
  }

  predicate Trace(w: World, events: seq<Event>)
    decreases |events|
  {
    events == [] || (Enabled(w, events[0]) && Trace(Happen(w, events[0]), events[1..]))
  }

  function After(w: World, events: seq<Event>): World
    decreases |events|
  {
    if events == [] then w else After(Happen(w, events[0]), events[1..])
  }

  lemma {:induction false} LatchStays(w: World, events: seq<Event>, p: Proc)
    requires w.control.kill && Trace(w, events) && Clear !in events
    ensures After(w, events).control.kill
    ensures ReadKill(p) in events || (p in w.seen && w.seen[p] == SawLatch) ==>
              p in After(w, events).seen && After(w, events).seen[p] == SawLatch
    ensures p in w.seen && w.seen[p] == SawLatch ==> StartWrite(p) !in events
    decreases |events|
  {
    if events != [] {
      LatchStays(Happen(w, events[0]), events[1..], p);
    }
  }

  /** From kill's first write until a clear_kill step, whatever other control writes interleave:
      no reservation is granted, and every get() begun in that time reads KILLED. */
  lemma KillLatchHolds(w: World, events: seq<Event>, p: Proc,
                       s: Ledger, lim: Limits, mint: Mint, wallet: Wallet, size: real)
    requires Trace(Happen(w, WriteKill), events) && Clear !in events
    ensures var w' := After(Happen(w, WriteKill), events);
            && Refusal(s, w'.control, lim, mint, wallet, size) == Some(KillSwitchActive)
            && Get(w'.control) == Killed
            && (ReadKill(p) in events ==> p in w'.seen && w'.seen[p] == SawLatch)
  {
    LatchStays(Happen(w, WriteKill), events, p);
  }

  predicate Resumes(e: Event) { e.StartWrite? || e == WriteState(RUNNING) }

  lemma {:induction false} NotRunningStays(w: World, events: seq<Event>)
    requires w.control.state != Some(RUNNING) && Trace(w, events)
    requires forall i :: 0 <= i < |events| ==> !Resumes(events[i])
    ensures After(w, events).control.state != Some(RUNNING)
    decreases |events|
  {
    NamesDiffer();
    if events != [] {
      assert !Resumes(events[0]);
      NotRunningStays(Happen(w, events[0]), events[1..]);
    }
  }

  /** After clear_kill nothing is granted before the state is set to RUNNING again. */
  lemma ClearedIsNotResumed(w: World, events: seq<Event>,
                            s: Ledger, lim: Limits, mint: Mint, wallet: Wallet, size: real)
    requires Trace(Happen(w, Clear), events)
    requires forall i :: 0 <= i < |events| ==> !Resumes(events[i])
    ensures Refusal(s, After(Happen(w, Clear), events).control, lim, mint, wallet, size) != None
  {
    var w' := After(Happen(w, Clear), events);
    NotRunningFromClear(w, events);
    GateAgreesWithGet(w'.control);
    ControlRefuses(s, w'.control, lim, mint, wallet, size);
  }

  lemma NotRunningFromClear(w: World, events: seq<Event>)
    requires Trace(Happen(w, Clear), events)
    requires forall i :: 0 <= i < |events| ==> !Resumes(events[i])
    ensures After(Happen(w, Clear), events).control.state != Some(RUNNING)
  {
    NamesDiffer();
    NotRunningStays(Happen(w, Clear), events);
  }

  lemma ControlRefuses(s: Ledger, ctl: Control, lim: Limits, mint: Mint, wallet: Wallet, size: real)
    requires ControlRefusal(ctl) != None
    ensures Refusal(s, ctl, lim, mint, wallet, size) == ControlRefusal(ctl)
  {
  }
}
