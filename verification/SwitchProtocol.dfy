/** The switch protocol of controller/router.py as a labelled transition system.

    Any number of requests and admin switches race for `switch_lock`. Each step resolves
    one await and runs the local code up to the next one; every await can also fail or be
    cancelled. `hist` records what an outside observer sees: lifecycle calls, probe answers,
    failed transitions, reservations and upstream streams. `up` is the set of backends that
    are really awake; the bookkeeping never reads it. */
module SwitchProtocol {
  import opened Wrappers
  import opened Lifecycle

  type Rid = nat

  datatype Config = Config(names: seq<Alias>, startup: Option<Alias>, up: set<Alias>)

  datatype Kind = Admin | Json | Stream

  /** A sleep (`asleep`) or wake transition: marked, its POST in flight, or being verified. */
  datatype Progress = Marked | InFlight | Verifying

  /** Where the holder of `switch_lock` is. */
  datatype Phase =
    | Probing(startup: bool, todo: seq<Alias>, seen: seq<Alias>)
    | Deciding
    | Draining(prev: Alias)
    | Transition(asleep: bool, alias: Alias, progress: Progress)
    | Entering(cancelled: bool)
    | Undoing

  datatype Lock = Free | Held(owner: Rid, phase: Phase)

  /** Where a request is; `Locked` defers to the phase of the lock. */
  datatype Stage =
    | Waiting
    | Locked
    | Proxying
    | JsonCleanup(cancelled: bool)
    | OuterCleanup
    | StreamSetup
    | Responding
    | StreamCleanup
    | Done

  /** The reservation and its cached exit task. */
  datatype Tracker = NoTracker | Owned | Exiting | Exited

  /** The cached close task of a stream: not started, closing the upstream, waiting for the
      reservation's exit task, finished. */
  datatype Closer = CloseIdle | Closing | CloseTracker | CloseFinished

  datatype Req = Req(kind: Kind, target: Alias, stage: Stage, tracker: Tracker,
                     closer: Closer, entered: bool, failed: bool)

  datatype Event =
    | Acquired(r: Rid)
    | Issued(asleep: bool, m: Alias)
    | Observed(m: Alias, asleep: bool)
    | Failed(m: Alias)
    | Ready(r: Rid, m: Alias)
    | Reserved(r: Rid, m: Alias)
    | Released(r: Rid, m: Alias)
    | Opened(r: Rid)
    | Closed(r: Rid)

  datatype S = S(book: Book, reconciled: bool, lock: Lock, reqs: map<Rid, Req>,
                 act: Counts, hist: seq<Event>, up: set<Alias>)

  datatype Action =
    | Arrive(kind: Kind, target: Alias)
    | Acquire
    | Cancel               // cancellation delivered at the current await
    | Fail                 // the current await raises, or the deadline has passed
    | Answer(asleep: bool) // a probe answers `is_sleeping`
    | Settle               // the probing loop is over
    | Choose               // the policy decides
    | Drained              // the other reservations are gone
    | Issue                // the lifecycle POST is sent
    | TakeEffect           // the backend changes while the POST is in flight
    | Return               // the POST succeeded
    | Enter                // the reservation's enter task finishes
    | Reply(ok: bool)      // the JSON proxy call returns or raises
    | StreamUp(built: bool)// upstream entered; the response is built or building it raises
    | IteratorEnds         // the body iterator's `finally`
    | ResponseEnds         // the response object's `finally`
    | CloseUpstream(ok: bool) // close task: exiting the upstream context returns or raises
    | TrackerExits         // exit task: the reservation is given back
    | CloserEnds           // close task: done
    | Resume               // the awaited cleanup task is done

  function Init(c: Config): S
    requires c.startup.Some? ==> c.startup.value in c.names
  {
    S(FromModels(c.names, c.startup).value, false, Free, map[], map[], [], c.up)
  }

  // ---------------------------------------------------------------------------
  // Local code

  function SetReq(s: S, r: Rid, q: Req): S {
    s.(reqs := s.reqs[r := q])
  }

  function Log(s: S, e: Event): S {
    s.(hist := s.hist + [e])
  }

  function Go(s: S, r: Rid, phase: Phase): S {
    s.(lock := Held(r, phase))
  }

  /** The lock is released and the request is over. */
  function Finish(s: S, r: Rid, failed: bool): S
    requires r in s.reqs
  {
    SetReq(s.(lock := Free), r, s.reqs[r].(stage := Done, failed := failed))
  }

  function FirstPhase(c: Config, s: S): Phase {
    if !s.reconciled then Probing(true, c.names, [])
    else Probing(false, UnsafeOf(c.names, s.book.states), [])
  }

  /** `ensure_model_ready_locked` returns: an admin switch is over, a proxied request
      starts its reservation without releasing the lock. */
  function AfterReady(s: S, r: Rid): S
    requires r in s.reqs
  {
    var s1 := Log(s, Ready(r, s.reqs[r].target));
    if s.reqs[r].kind.Admin? then Finish(s1, r, false) else Go(s1, r, Entering(false))
  }

  /** `CancellationResistantCleanup.__call__` on the reservation: the first caller creates
      the exit task, later callers find it. */
  function CallTracker(q: Req): Req {
    if q.tracker.Owned? then q.(tracker := Exiting) else q
  }

  /** The same on the stream's teardown; an upstream that was never entered is not exited. */
  function CallCloser(q: Req): Req {
    if !q.closer.CloseIdle? then q
    else if q.entered then q.(closer := Closing)
    else CallTracker(q.(closer := CloseTracker))
  }

  /** Entering the upstream: the response is built, or building it raises. */
  function StreamUpReq(q: Req, built: bool): Req {
    var q1 := q.(entered := true);
    if built then q1.(stage := Responding) else CallCloser(q1).(stage := StreamCleanup, failed := true)
  }

  /** Exiting the upstream: the reservation is given back even if that raises. */
  function ClosedReq(q: Req, ok: bool): Req {
    CallTracker(q.(closer := CloseTracker, failed := q.failed || !ok))
  }

  /** A reconciled alias is recorded as it has just answered. */
  function Answered(b: Book, m: Alias, asleep: bool): Book {
    if asleep then MarkedSleeping(b, m) else MarkedAwake(b, m)
  }

  /** Every exception inside a transition marks the alias and releases the lock. */
  function FailTransition(s: S, r: Rid, m: Alias): S
    requires r in s.reqs
  {
    Finish(Log(s.(book := MarkedError(s.book, m)), Failed(m)), r, true)
  }

  // ---------------------------------------------------------------------------
  // Steps of the lock holder

  function DoAcquire(c: Config, s: S, r: Rid): Option<S>
    requires r in s.reqs
  {
    if !s.reqs[r].stage.Waiting? || !s.lock.Free? then None
    else
      var s1 := Log(SetReq(s, r, s.reqs[r].(stage := Locked)), Acquired(r));
      Some(Go(s1, r, FirstPhase(c, s)))
  }

  function DoAnswer(s: S, r: Rid, asleep: bool): Option<S>
    requires r in s.reqs && s.lock.Held?
  {
    match s.lock.phase
    case Probing(startup, todo, seen) =>
      if todo == [] then None
      else
        var m := todo[0];
        var s1 := Log(s.(book := Answered(s.book, m, asleep)), Observed(m, asleep));
        Some(Go(s1, r, Probing(startup, todo[1..], if asleep then seen else seen + [m])))
    case Transition(goal, m, Verifying) =>
      var s1 := Log(s, Observed(m, asleep));
      if asleep != goal then Some(s1)
      else if goal then
        var t := s.reqs[r].target;
        var book := MarkedWaking(Answered(s.book, m, true), t);
        Some(Go(s1.(book := book), r, Transition(false, t, Marked)))
      else Some(AfterReady(s1.(book := Answered(s.book, m, false)), r))
    case _ => None
  }

  function DoSettle(c: Config, s: S, r: Rid): Option<S>
    requires r in s.reqs && s.lock.Held?
  {
    match s.lock.phase
    case Probing(startup, todo, seen) =>
      if todo != [] then None
      else if |seen| > 1 then Some(Finish(s.(book := MarkedErrors(s.book, seen)), r, true))
      else if startup then
        Some(Go(s.(reconciled := true), r, Probing(false, UnsafeOf(c.names, s.book.states), [])))
      else Some(Go(s, r, Deciding))
    case _ => None
  }

  function DoChoose(s: S, r: Rid): Option<S>
    requires r in s.reqs && s.lock.Held?
  {
    if !s.lock.phase.Deciding? then None
    else
      match Decide(s.book.active, s.reqs[r].target, s.book.states)
      case None => Some(Finish(s, r, true))
      case Some(d) =>
        if d.sleep == [] && d.wake == None then Some(AfterReady(s, r))
        else if d.sleep != [] then Some(Go(s, r, Draining(d.sleep[0])))
        else
          var t := d.wake.value;
          Some(Go(s.(book := MarkedWaking(s.book, t)), r, Transition(false, t, Marked)))
  }

  function DoDrained(s: S, r: Rid): Option<S>
    requires r in s.reqs && s.lock.Held?
  {
    match s.lock.phase
    case Draining(p) =>
      if !OthersDrained(s.act, s.reqs[r].target) then None
      else Some(Go(s.(book := MarkedSleepingInProgress(s.book, p)), r, Transition(true, p, Marked)))
    case _ => None
  }

  function DoIssue(s: S, r: Rid): Option<S>
    requires r in s.reqs && s.lock.Held?
  {
    match s.lock.phase
    case Transition(goal, m, Marked) =>
      Some(Go(Log(s, Issued(goal, m)), r, Transition(goal, m, InFlight)))
    case _ => None
  }

  /** A lifecycle call has its effect, if any, while it is in flight. */
  function DoTakeEffect(s: S, r: Rid): Option<S>
    requires r in s.reqs && s.lock.Held?
  {
    match s.lock.phase
    case Transition(goal, m, InFlight) => Some(s.(up := if goal then s.up - {m} else s.up + {m}))
    case _ => None
  }

  function DoReturn(s: S, r: Rid): Option<S>
    requires r in s.reqs && s.lock.Held?
  {
    match s.lock.phase
    case Transition(goal, m, InFlight) => Some(Go(s, r, Transition(goal, m, Verifying)))
    case _ => None
  }

  /** A failure of the current await, the passed deadline, or a cancellation. */
  function DoAbort(s: S, r: Rid, cancel: bool): Option<S>
    requires r in s.reqs && s.lock.Held?
  {
    match s.lock.phase
    case Probing(_, todo, _) => if todo == [] then None else Some(Finish(s, r, true))
    case Draining(_) => Some(Finish(s, r, true))
    case Transition(_, m, progress) =>
      // Between the mark and the call there is no await, only the deadline check.
      if cancel && progress.Marked? then None else Some(FailTransition(s, r, m))
    case Entering(_) =>
      // A cancellation waits for the enter task; an enter that raises owns nothing.
      if cancel then Some(Go(s, r, Entering(true))) else Some(Finish(s, r, true))
    case Undoing => if cancel then Some(s) else None
    case Deciding => None
  }

  function DoEnter(s: S, r: Rid): Option<S>
    requires r in s.reqs && s.lock.Held?
  {
    match s.lock.phase
    case Entering(cancelled) =>
      var q := s.reqs[r];
      var s1 := Log(s.(act := WithEnter(s.act, q.target)), Reserved(r, q.target));
      var q1 := q.(tracker := Owned);
      if cancelled then Some(Go(SetReq(s1, r, CallTracker(q1)), r, Undoing))
      else
        var stage := if q.kind.Stream? then StreamSetup else Proxying;
        Some(SetReq(s1.(lock := Free), r, q1.(stage := stage)))
    case _ => None
  }

  function DoUndone(s: S, r: Rid): Option<S>
    requires r in s.reqs && s.lock.Held?
  {
    if !s.lock.phase.Undoing? || !s.reqs[r].tracker.Exited? then None
    else Some(SetReq(s.(lock := Free), r, s.reqs[r].(stage := OuterCleanup, failed := true)))
  }

  function NextHolder(c: Config, s: S, r: Rid, a: Action): Option<S>
    requires r in s.reqs && s.lock.Held?
  {
    match a
    case Cancel => DoAbort(s, r, true)
    case Fail => DoAbort(s, r, false)
    case Answer(b) => DoAnswer(s, r, b)
    case Settle => DoSettle(c, s, r)
    case Choose => DoChoose(s, r)
    case Drained => DoDrained(s, r)
    case Issue => DoIssue(s, r)
    case TakeEffect => DoTakeEffect(s, r)
    case Return => DoReturn(s, r)
    case Enter => DoEnter(s, r)
    case Resume => DoUndone(s, r)
    case TrackerExits => DoTrackerExits(s, r)
    case _ => None
  }

  // ---------------------------------------------------------------------------
  // Steps outside the lock

  /** The exit task of the reservation: its one atomic section. */
  function DoTrackerExits(s: S, r: Rid): Option<S>
    requires r in s.reqs
  {
    var q := s.reqs[r];
    if !q.tracker.Exiting? || WithExit(s.act, q.target).None? then None
    else
      var s1 := Log(s.(act := WithExit(s.act, q.target).value), Released(r, q.target));
      Some(SetReq(s1, r, q.(tracker := Exited)))
  }

  /** Changes of one request alone: its flow and its cached cleanup tasks. */
  function NextReq(q: Req, a: Action): Option<Req> {
    match (a, q.stage)
    case (Cancel, Waiting) => Some(q.(stage := Done, failed := true))
    // JSON proxying: the inner and the outer `finally` share one cleanup.
    case (Reply(ok), Proxying) => Some(CallTracker(q).(stage := JsonCleanup(false), failed := !ok))
    case (Cancel, Proxying) => Some(CallTracker(q).(stage := JsonCleanup(false), failed := true))
    case (Cancel, JsonCleanup(_)) => Some(q.(stage := JsonCleanup(true), failed := true))
    case (Resume, JsonCleanup(cancelled)) =>
      if !q.tracker.Exited? then None
      else Some(q.(stage := if cancelled then OuterCleanup else Done))
    case (Resume, OuterCleanup) =>
      // Calling the cleanup again; it is over when the cached task is.
      var q1 := CallTracker(q);
      if q1.tracker.Exited? then Some(q1.(stage := Done)) else Some(q1)
    // Streaming: setup, iterator and response share one teardown.
    case (Fail, StreamSetup) => Some(CallCloser(q).(stage := StreamCleanup, failed := true))
    case (Cancel, StreamSetup) => Some(CallCloser(q).(stage := StreamCleanup, failed := true))
    case (IteratorEnds, Responding) => Some(CallCloser(q))
    case (IteratorEnds, StreamCleanup) => Some(CallCloser(q))
    case (IteratorEnds, Done) => if q.entered then Some(CallCloser(q)) else None
    case (ResponseEnds, Responding) => Some(CallCloser(q).(stage := StreamCleanup))
    case (Cancel, Responding) => Some(CallCloser(q).(stage := StreamCleanup, failed := true))
    case (Cancel, StreamCleanup) => Some(q.(failed := true))
    case (CloserEnds, _) =>
      if q.closer.CloseTracker? && q.tracker.Exited? then Some(q.(closer := CloseFinished)) else None
    case (Resume, StreamCleanup) =>
      if q.closer.CloseFinished? then Some(q.(stage := Done)) else None
    case _ => None
  }

  function NextOutside(s: S, r: Rid, a: Action): Option<S>
    requires r in s.reqs
  {
    var q := s.reqs[r];
    match a
    case StreamUp(built) =>
      if !q.stage.StreamSetup? then None
      else Some(SetReq(Log(s, Opened(r)), r, StreamUpReq(q, built)))
    case CloseUpstream(ok) =>
      if !q.closer.Closing? then None
      else Some(SetReq(Log(s, Closed(r)), r, ClosedReq(q, ok)))
    case TrackerExits => DoTrackerExits(s, r)
    case _ =>
      match NextReq(q, a)
      case None => None
      case Some(q1) => Some(SetReq(s, r, q1))
  }

  // ---------------------------------------------------------------------------
  // Runs

  function DoArrive(c: Config, s: S, r: Rid, kind: Kind, target: Alias): Option<S> {
    if r in s.reqs then None
    else
      // `require_model`: an unknown alias is answered with 404 and takes no lock.
      var known := target in c.names;
      Some(SetReq(s, r, Req(kind, target, if known then Waiting else Done,
                            NoTracker, CloseIdle, false, !known)))
  }

  function Next(c: Config, s: S, r: Rid, a: Action): Option<S> {
    if a.Arrive? then DoArrive(c, s, r, a.kind, a.target)
    else if r !in s.reqs then None
    else if a.Acquire? then DoAcquire(c, s, r)
    else if s.lock.Held? && s.lock.owner == r then NextHolder(c, s, r, a)
    else NextOutside(s, r, a)
  }

  /** The state after a schedule of steps, if every step of it is enabled. */
  function Run(c: Config, s: S, sched: seq<(Rid, Action)>): Option<S> {
    if sched == [] then Some(s)
    else
      var n := |sched| - 1;
      match Run(c, s, sched[..n])
      case None => None
      case Some(p) => Next(c, p, sched[n].0, sched[n].1)
  }
}
