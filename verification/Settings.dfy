/**
 * settingsService: refreshers and readers sharing a lock, a replaceable `ready` channel and a one-shot
 * `attempted` channel. Each critical section is one step; steps of all parties interleave freely.
 */
module SettingsService {
  import opened Model

  datatype Settings = Settings(payload: string)

  datatype Cause = Cause(message: string)

  const UNSET := Settings("")

  // ----- the shared state and its critical sections -----

  /** Channels are numbered in creation order; channels[c] says whether c is closed. */
  datatype State = State(
    resolved: Settings,
    channels: seq<bool>,
    ready: nat,
    attempted: nat,
    lastErr: Option<Cause>)
  {
    predicate Valid() { ready < |channels| && attempted < |channels| && ready != attempted }

    predicate Ready()
      requires Valid()
    {
      channels[ready]
    }

    predicate Attempted()
      requires Valid()
    {
      channels[attempted]
    }
  }

  const INITIAL := State(UNSET, [false, false], 0, 1, None)

  function AfterStore(st: State, v: Settings): State
    requires st.Valid()
  {
    st.(resolved := v, lastErr := None, channels := st.channels[st.ready := true])
  }

  /** The previous value is dropped: a closed ready channel is replaced by a fresh open one. */
  function AfterUnresolved(st: State, cause: Cause): State
    requires st.Valid()
  {
    if st.Ready() then st.(lastErr := Some(cause), channels := st.channels + [false], ready := |st.channels|)
    else st.(lastErr := Some(cause))
  }

  /** What one resolution commits. */
  datatype Write = Stored(value: Settings) | Unresolved(cause: Cause)

  function AfterWrite(st: State, w: Write): State
    requires st.Valid()
  {
    match w case Stored(v) => AfterStore(st, v) case Unresolved(cause) => AfterUnresolved(st, cause)
  }

  function AfterAttempt(st: State): State
    requires st.Valid()
  {
    st.(channels := st.channels[st.attempted := true])
  }

  /** The channel a critical section closes, if it closes one. */
  function StoreCloses(st: State): Option<nat>
    requires st.Valid()
  {
    if st.Ready() then None else Some(st.ready)
  }

  function FinishCloses(st: State): Option<nat>
    requires st.Valid()
  {
    if st.Attempted() then None else Some(st.attempted)
  }

  // ----- the service object -----

  class Channel {
    var closed: bool

    constructor ()
      ensures !closed
    {
      closed := false;
    }

    /** Closing a closed channel panics in Go, so it is ruled out here. */
    method Close()
      requires !closed
      modifies this
      ensures closed
    {
      closed := true;
    }
  }

  class Service {
    var resolved: Settings
    var ready: Channel
    var attempted: Channel
    var lastErr: Option<Cause>
    ghost var made: seq<Channel>
    ghost var readyAt: nat
    ghost var attemptedAt: nat

    ghost predicate Valid()
      reads this
    {
      && readyAt < |made| && attemptedAt < |made| && readyAt != attemptedAt
      && made[readyAt] == ready && made[attemptedAt] == attempted
      && forall i, j :: 0 <= i < j < |made| ==> made[i] != made[j]
    }

    ghost function Value(): (st: State)
      requires Valid()
      reads this, made
      ensures st.Valid()
    {
      State(resolved, seq(|made|, i requires 0 <= i < |made| reads this, made => made[i].closed), readyAt,
        attemptedAt, lastErr)
    }

    constructor ()
      ensures Valid() && fresh(made) && Value() == INITIAL
    {
      var r := new Channel();
      var a := new Channel();
      resolved, ready, attempted, lastErr := UNSET, r, a, None;
      made, readyAt, attemptedAt := [r, a], 0, 1;
    }

    /** snapshot: the value if ready, else why it is not. */
    method Snapshot() returns (value: Settings, ok: bool, err: Option<Cause>)
      requires Valid()
      ensures ok == Value().Ready()
      ensures ok ==> value == Value().resolved && err == None
      ensures !ok ==> value == UNSET && err == Value().lastErr
    {
      if ready.closed { return resolved, true, None; }
      return UNSET, false, lastErr;
    }

    method Store(v: Settings)
      requires Valid()
      modifies this, made
      ensures Valid() && made == old(made) && Value() == AfterStore(old(Value()), v)
    {
      resolved := v;
      lastErr := None;
      if !ready.closed { ready.Close(); }
    }

    method MarkUnresolved(cause: Cause)
      requires Valid()
      modifies this
      ensures Valid() && old(made) <= made && fresh(made[|old(made)|..])
      ensures Value() == AfterUnresolved(old(Value()), cause)
    {
      lastErr := Some(cause);
      if ready.closed {
        ready := new Channel();
        made, readyAt := made + [ready], |made|;
      }
    }

    method FinishAttempt()
      requires Valid()
      modifies made
      ensures Valid() && Value() == AfterAttempt(old(Value()))
    {
      if !attempted.closed { attempted.Close(); }
    }

    /** refresh, with no other party stepping in between. */
    method Refresh(outcome: Write)
      requires Valid()
      modifies this, made
      ensures Valid() && old(made) <= made && fresh(made[|old(made)|..])
      ensures Value() == AfterAttempt(AfterWrite(old(Value()), outcome)) && Value().Attempted()
      ensures Value().Ready() <==> outcome.Stored?
    {
      match outcome {
        case Stored(v) => Store(v);
        case Unresolved(cause) => MarkUnresolved(cause);
      }
      assert made == old(made) + made[|old(made)|..];
      FinishAttempt();
    }
  }

  // ----- the parties -----

  datatype Refresher = Fetched(outcome: Write) | Committed(outcome: Write) | Finished(outcome: Write)

  datatype Panic = Unavailable(cause: Option<Cause>, at: nat) | TimedOut | Cancelled

  /** Where a reader is inside get; `at` is the number of writes committed when it took its value. */
  datatype Reader =
    | Entered
    | Missed
    | Captured(ready: nat, attempted: nat)
    | Waiting(ready: nat, attempted: nat)
    | Checking
    | Returned(value: Settings, at: nat)
    | Panicked(panic: Panic)

  datatype World = World(
    svc: State,
    refreshers: map<nat, Refresher>,
    readers: map<nat, Reader>,
    log: seq<Write>,
    closes: seq<nat>)

  const START := World(INITIAL, map[], map[], [], [])

  datatype Step =
    | Fetch(id: nat, outcome: Write)
    | Commit(id: nat)
    | Finish(id: nat)
    | Enter(id: nat)
    | FirstSnapshot(id: nat)
    | Capture(id: nat)
    | TestAttempted(id: nat)
    | Wake(id: nat)
    | GiveUp(id: nat, panic: Panic)
    | LastSnapshot(id: nat)

  function Noting(closes: seq<nat>, c: Option<nat>): seq<nat> { if c.Some? then closes + [c.value] else closes }

  /** get's view of a snapshot: the value, or the panic of resolvedOrPanic. */
  function SnapshotOr(w: World, otherwise: Reader): Reader
    requires w.svc.Valid()
  {
    if w.svc.Ready() then Returned(w.svc.resolved, |w.log|) else otherwise
  }

  predicate Enabled(w: World, s: Step) {
    match s
    case Fetch(id, _) => id !in w.refreshers
    case Commit(id) => id in w.refreshers && w.refreshers[id].Fetched?
    case Finish(id) => id in w.refreshers && w.refreshers[id].Committed?
    case Enter(id) => id !in w.readers
    case FirstSnapshot(id) => id in w.readers && w.readers[id].Entered?
    case Capture(id) => id in w.readers && w.readers[id].Missed?
    case TestAttempted(id) => id in w.readers && w.readers[id].Captured? && w.readers[id].attempted < |w.svc.channels|
    case Wake(id) =>
      && id in w.readers && w.readers[id].Waiting?
      && w.readers[id].ready < |w.svc.channels| && w.readers[id].attempted < |w.svc.channels|
      && (w.svc.channels[w.readers[id].ready] || w.svc.channels[w.readers[id].attempted])
    case GiveUp(id, panic) => id in w.readers && w.readers[id].Waiting? && !panic.Unavailable?
    case LastSnapshot(id) => id in w.readers && w.readers[id].Checking?
  }

  function Apply(w: World, s: Step): World
    requires w.svc.Valid() && Enabled(w, s)
  {
    match s
    case Fetch(id, outcome) => w.(refreshers := w.refreshers[id := Fetched(outcome)])
    case Commit(id) =>
      var o := w.refreshers[id].outcome;
      w.(refreshers := w.refreshers[id := Committed(o)], log := w.log + [o], svc := AfterWrite(w.svc, o),
         closes := if o.Stored? then Noting(w.closes, StoreCloses(w.svc)) else w.closes)
    case Finish(id) =>
      w.(refreshers := w.refreshers[id := Finished(w.refreshers[id].outcome)],
         svc := AfterAttempt(w.svc), closes := Noting(w.closes, FinishCloses(w.svc)))
    case Enter(id) => w.(readers := w.readers[id := Entered])
    case FirstSnapshot(id) => w.(readers := w.readers[id := SnapshotOr(w, Missed)])
    case Capture(id) => w.(readers := w.readers[id := Captured(w.svc.ready, w.svc.attempted)])
    case TestAttempted(id) =>
      var r := w.readers[id];
      w.(readers := w.readers[id := if w.svc.channels[r.attempted] then Checking else Waiting(r.ready, r.attempted)])
    case Wake(id) => w.(readers := w.readers[id := Checking])
    case GiveUp(id, panic) => w.(readers := w.readers[id := Panicked(panic)])
    case LastSnapshot(id) =>
      w.(readers := w.readers[id := SnapshotOr(w, Panicked(Unavailable(w.svc.lastErr, |w.log|)))])
  }

  // ----- the invariant -----

  predicate LastIsStore(log: seq<Write>) { log != [] && log[|log| - 1].Stored? }

  ghost predicate ServiceInv(w: World) {
    var st := w.svc;
    && st.Valid()
    && (st.Ready() <==> LastIsStore(w.log))
    && (LastIsStore(w.log) ==> st.resolved == w.log[|w.log| - 1].value && st.lastErr == None)
    && (w.log != [] && !LastIsStore(w.log) ==> st.lastErr == Some(w.log[|w.log| - 1].cause))
    && (w.log == [] ==> forall c :: 0 <= c < |st.channels| ==> !st.channels[c])
    && (forall c :: 0 <= c < |st.channels| && c != st.ready && c != st.attempted ==> st.channels[c])
    && (forall i, j :: 0 <= i < j < |w.closes| ==> w.closes[i] != w.closes[j])
    && (forall c :: c in w.closes <==> 0 <= c < |st.channels| && st.channels[c])
  }

  ghost predicate RefresherInv(w: World, r: Refresher)
    requires w.svc.Valid()
  {
    && (!r.Fetched? ==> w.log != [])
    && (r.Finished? ==> w.svc.Attempted())
  }

  /** The panic carries the error of the last write committed by the time it was raised. */
  ghost predicate NamesCause(log: seq<Write>, panic: Panic)
    requires panic.Unavailable?
  {
    0 < panic.at <= |log| && panic.cause.Some? && log[panic.at - 1] == Unresolved(panic.cause.value)
  }

  ghost predicate ReaderInv(w: World, r: Reader)
    requires w.svc.Valid()
  {
    match r
    case Entered => true
    case Missed => true
    case Captured(ready, attempted) => ready < |w.svc.channels| && attempted == w.svc.attempted && ready != attempted
    case Waiting(ready, attempted) => ready < |w.svc.channels| && attempted == w.svc.attempted && ready != attempted
    case Checking => w.log != []
    case Returned(value, at) => 0 < at <= |w.log| && w.log[at - 1] == Stored(value)
    case Panicked(panic) => panic.Unavailable? ==> NamesCause(w.log, panic)
  }

  ghost predicate Inv(w: World) {
    && ServiceInv(w)
    && (forall id :: id in w.refreshers ==> RefresherInv(w, w.refreshers[id]))
    && forall id :: id in w.readers ==> ReaderInv(w, w.readers[id])
  }

  lemma ServiceInvKept(w: World, s: Step)
    requires Inv(w) && Enabled(w, s)
    ensures ServiceInv(Apply(w, s))
  {
    var w' := Apply(w, s);
    match s
    case Commit(id) =>
      match w.refreshers[id].outcome {
        case Stored(v) =>
        case Unresolved(cause) =>
      }
    case Finish(id) => assert RefresherInv(w, w.refreshers[id]);
    case _ =>
  }

  /** Later steps only extend the log, keep closed channels closed and never rename `attempted`. */
  lemma StepMonotone(w: World, s: Step)
    requires w.svc.Valid() && Enabled(w, s)
    ensures var w' := Apply(w, s);
      && w'.svc.Valid() && w.log <= w'.log && |w.svc.channels| <= |w'.svc.channels| &&
        w'.svc.attempted == w.svc.attempted
      && forall c :: 0 <= c < |w.svc.channels| && w.svc.channels[c] ==> w'.svc.channels[c]
  {
  }

  lemma ReaderInvKept(w: World, s: Step, id: nat)
    requires Inv(w) && Enabled(w, s) && id in Apply(w, s).readers && Apply(w, s).svc.Valid()
    ensures ReaderInv(Apply(w, s), Apply(w, s).readers[id])
  {
    StepMonotone(w, s);
    if id in w.readers { assert ReaderInv(w, w.readers[id]); }
  }

  lemma RefresherInvKept(w: World, s: Step, id: nat)
    requires Inv(w) && Enabled(w, s) && id in Apply(w, s).refreshers && Apply(w, s).svc.Valid()
    ensures RefresherInv(Apply(w, s), Apply(w, s).refreshers[id])
  {
    StepMonotone(w, s);
    if id in w.refreshers { assert RefresherInv(w, w.refreshers[id]); }
  }

  lemma InvKept(w: World, s: Step)
    requires Inv(w) && Enabled(w, s)
    ensures Inv(Apply(w, s))
  {
    ServiceInvKept(w, s);
    var w' := Apply(w, s);
    forall id | id in w'.refreshers ensures RefresherInv(w', w'.refreshers[id]) { RefresherInvKept(w, s, id); }
    forall id | id in w'.readers ensures ReaderInv(w', w'.readers[id]) { ReaderInvKept(w, s, id); }
  }

  // ----- runs -----

  /** The world after a sequence of steps, None as soon as a step is not enabled. */
  ghost function Run(steps: seq<Step>): Option<World> {
    if steps == [] then Some(START) else
      match Run(steps[..|steps| - 1])
      case None => None
      case Some(w) => if w.svc.Valid() && Enabled(w, steps[|steps| - 1])
        then Some(Apply(w, steps[|steps| - 1])) else None
  }

  lemma {:induction false} RunInv(steps: seq<Step>)
    requires Run(steps).Some?
    ensures Inv(Run(steps).value)
  {
    if steps != [] {
      RunInv(steps[..|steps| - 1]);
      InvKept(Run(steps[..|steps| - 1]).value, steps[|steps| - 1]);
    }
  }

  // ----- what every interleaving guarantees -----

  /**
   * In every interleaving `ready` is closed exactly when the last committed write was a store, and any value a
   * reader returned is the one the last write committed by then had stored: nothing is served after
   * markUnresolved until another store.
   */
  lemma ServedValueIsLastStore(steps: seq<Step>)
    requires Run(steps).Some?
    ensures var w := Run(steps).value;
      && w.svc.Valid() && (w.svc.Ready() <==> LastIsStore(w.log))
      && (LastIsStore(w.log) ==> w.svc.resolved == w.log[|w.log| - 1].value)
      && forall id :: id in w.readers && w.readers[id].Returned? ==>
           var r := w.readers[id];
           0 < r.at <= |w.log| && w.log[r.at - 1] == Stored(r.value)
  {
    RunInv(steps);
    var w := Run(steps).value;
    forall id | id in w.readers && w.readers[id].Returned?
      ensures var r := w.readers[id]; 0 < r.at <= |w.log| && w.log[r.at - 1] == Stored(r.value)
    {
      assert ReaderInv(w, w.readers[id]);
    }
  }

  /** No channel is ever closed twice, and every close is of the channel it was recorded for. */
  lemma ClosedAtMostOnce(steps: seq<Step>)
    requires Run(steps).Some?
    ensures var w := Run(steps).value;
      && (forall i, j :: 0 <= i < j < |w.closes| ==> w.closes[i] != w.closes[j])
      && forall c :: c in w.closes <==> 0 <= c < |w.svc.channels| && w.svc.channels[c]
  {
    RunInv(steps);
  }

  /** Along a run closed channels stay closed, so `attempted` never reopens, and it is never replaced. */
  lemma {:induction false} ClosedForever(steps: seq<Step>, more: seq<Step>)
    requires Run(steps + more).Some?
    ensures Run(steps).Some?
    ensures var w, w' := Run(steps).value, Run(steps + more).value;
      && w'.svc.attempted == w.svc.attempted && |w.svc.channels| <= |w'.svc.channels| && w.log <= w'.log
      && forall c :: 0 <= c < |w.svc.channels| && w.svc.channels[c] ==> w'.svc.channels[c]
  {
    if more == [] {
      assert steps + more == steps;
    } else {
      var init := more[..|more| - 1];
      assert (steps + more)[..|steps + more| - 1] == steps + init;
      ClosedForever(steps, init);
      StepMonotone(Run(steps + init).value, more[|more| - 1]);
    }
  }

  /** A waiter can always move on once its channel was replaced, or once any refresh has finished. */
  lemma NoStrandedWaiter(steps: seq<Step>, id: nat)
    requires Run(steps).Some? && id in Run(steps).value.readers && Run(steps).value.readers[id].Waiting?
    ensures var w := Run(steps).value;
      && w.svc.Valid()
      && (w.readers[id].ready != w.svc.ready ==> Enabled(w, Wake(id)))
      && (w.svc.Attempted() ==> Enabled(w, Wake(id)))
      && ((exists r :: r in w.refreshers && w.refreshers[r].Finished?) ==> Enabled(w, Wake(id)))
      && (LastIsStore(w.log) ==> Enabled(w, Wake(id)))
  {
    RunInv(steps);
    var w := Run(steps).value;
    assert ReaderInv(w, w.readers[id]);
    if r :| r in w.refreshers && w.refreshers[r].Finished? { assert RefresherInv(w, w.refreshers[r]); }
  }

  /** After a refresh has finished a reader that tests `attempted` never starts to wait. */
  lemma NoNewWaiter(steps: seq<Step>, id: nat)
    requires Run(steps).Some? && Enabled(Run(steps).value, TestAttempted(id))
    requires exists r :: r in Run(steps).value.refreshers && Run(steps).value.refreshers[r].Finished?
    ensures Run(steps).value.svc.Valid() && Apply(Run(steps).value, TestAttempted(id)).readers[id] == Checking
  {
    RunInv(steps);
    var w := Run(steps).value;
    assert ReaderInv(w, w.readers[id]);
    var r :| r in w.refreshers && w.refreshers[r].Finished?;
    assert RefresherInv(w, w.refreshers[r]);
  }

  /** Every panic of resolvedOrPanic names the error of the last write committed by then. */
  lemma PanicsNameTheirCause(steps: seq<Step>, id: nat)
    requires Run(steps).Some? && id in Run(steps).value.readers && Run(steps).value.readers[id].Panicked?
    ensures var p := Run(steps).value.readers[id].panic; p.Unavailable? ==> NamesCause(Run(steps).value.log, p)
  {
    RunInv(steps);
    assert ReaderInv(Run(steps).value, Run(steps).value.readers[id]);
  }
}
