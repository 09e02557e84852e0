/** The joint inductive invariant of the switch protocol: bookkeeping, reservations,
    ownership of cleanups, and what the history has shown. */
module SwitchInvariant {
  import opened Wrappers
  import opened Lifecycle
  import opened SwitchProtocol
  import opened SwitchHistory

  ghost predicate Distinct(names: seq<Alias>) {
    names == [] || (names[0] !in names[1..] && Distinct(names[1..]))
  }

  ghost predicate ValidConfig(c: Config) {
    && Distinct(c.names)
    && (c.startup.Some? ==> c.startup.value in c.names)
    && (forall x <- c.up :: x in c.names)
  }

  // ---------------------------------------------------------------------------
  // Bookkeeping

  ghost predicate BookInv(c: Config, b: Book) {
    && (forall x :: x in b.states <==> x in c.names)
    && (b.active.Some? ==> b.active.value in b.states)
  }

  ghost predicate AllAsleepBut(b: Book, m: Alias) {
    forall x <- b.states :: x != m ==> b.states[x].Sleeping?
  }

  /** What every release of the lock leaves behind: at most one alias is not asleep, and an
      alias is active exactly when it is awake. */
  ghost predicate Settled(b: Book) {
    && (forall x, y :: x in b.states && y in b.states && x != y ==>
          b.states[x].Sleeping? || b.states[y].Sleeping?)
    && (forall x <- b.states :: b.states[x].Awake? <==> b.active == Some(x))
    && (forall x <- b.states :: b.states[x].Sleeping? || b.states[x].Awake? || b.states[x].Error?)
  }

  ghost predicate Certain(b: Book) {
    Settled(b) && forall x <- b.states :: !b.states[x].Error?
  }

  /** The startup loop: `todo` is a tail of the aliases, `seen` the awake ones before it. */
  ghost predicate StartupLoop(c: Config, b: Book, todo: seq<Alias>, seen: seq<Alias>) {
    && |todo| <= |c.names| && todo == c.names[|c.names| - |todo|..]
    && (forall x <- c.names :: x !in todo ==> (x in b.states && (b.states[x].Sleeping? || b.states[x].Awake?)))
    && (forall x <- c.names :: x !in todo ==> (x in seen <==> (x in b.states && b.states[x].Awake?)))
    && (forall x <- seen :: x in c.names && x !in todo)
    && (forall i, j :: 0 <= i < j < |seen| ==> seen[i] != seen[j])
    && (if seen == [] then b.active.Some? ==> b.active.value in todo
        else b.active == Some(seen[|seen| - 1]))
  }

  ghost predicate PhaseInv(c: Config, b: Book, reconciled: bool, act: Counts, target: Alias, phase: Phase) {
    && target in b.states
    && match phase
       case Probing(true, todo, seen) => !reconciled && StartupLoop(c, b, todo, seen)
       case Probing(false, todo, seen) =>
         && reconciled && Settled(b) && |todo| + |seen| <= 1
         && (if todo == [] then Certain(b) else todo[0] in b.states && b.states[todo[0]].Error?)
       case Deciding => reconciled && Certain(b)
       case Draining(p) => reconciled && Certain(b) && b.active == Some(p) && p != target
       case Transition(true, p, _) =>
         && reconciled && act == map[] && p != target && p in b.states
         && AllAsleepBut(b, p) && b.states[p].SleepingInProgress? && b.active == Some(p)
       case Transition(false, t, _) =>
         && reconciled && act == map[] && t == target
         && AllAsleepBut(b, t) && b.states[t].Waking? && b.active == None
       case Entering(_) => reconciled && Certain(b) && b.active == Some(target)
       case Undoing => reconciled && Certain(b) && b.active == Some(target)
  }

  ghost predicate LifecycleInv(c: Config, s: S) {
    && BookInv(c, s.book)
    && (!s.reconciled ==> s.act == map[])
    && (forall m <- s.act :: s.book.active == Some(m))
    && (match s.lock
        case Free => s.reconciled ==> Settled(s.book)
        case Held(r, phase) =>
          && r in s.reqs && s.reqs[r].stage.Locked?
          && PhaseInv(c, s.book, s.reconciled, s.act, s.reqs[r].target, phase)
          && (phase.Entering? ==> !s.reqs[r].kind.Admin?))
    && (forall r <- s.reqs :: s.reqs[r].stage.Locked? ==> s.lock.Held? && s.lock.owner == r)
    && (forall r <- s.reqs :: s.reqs[r].stage.Waiting? ==> s.reqs[r].target in c.names)
  }

  // ---------------------------------------------------------------------------
  // Observations

  /** The aliases this controller has not observed yet. */
  function Pending(c: Config, s: S): seq<Alias> {
    if s.reconciled then []
    else if s.lock.Held? && s.lock.phase.Probing? && s.lock.phase.startup then s.lock.phase.todo
    else c.names
  }

  /** A recorded sleep or wake is what the alias itself answered last. */
  ghost predicate StatesSeen(b: Book, h: History, pending: seq<Alias>) {
    && (forall x <- b.states :: x !in pending && b.states[x].Sleeping? ==> SeenAsleep(h, x))
    && (forall x <- b.states :: x !in pending && b.states[x].Awake? ==> SeenAwake(h, x))
  }

  ghost predicate DoubtRecorded(b: Book, h: History) {
    forall x :: Broken(h, x) ==> x in b.states && b.states[x].Error?
  }

  ghost predicate CallsOk(h: History, lock: Lock) {
    lock.Held? ==>
      match lock.phase
      case Transition(true, _, Marked) => CallsHeld(h, true) == 0 && CallsHeld(h, false) == 0
      case Transition(true, _, _) => CallsHeld(h, true) == 1 && CallsHeld(h, false) == 0
      case Transition(false, _, Marked) => CallsHeld(h, true) <= 1 && CallsHeld(h, false) == 0
      case Transition(false, _, _) => CallsHeld(h, true) <= 1 && CallsHeld(h, false) == 1
      case Entering(_) => true
      case Undoing => true
      case _ => CallsHeld(h, true) == 0 && CallsHeld(h, false) == 0
  }

  ghost predicate MarkOk(h: History, lock: Lock) {
    lock.Held? && lock.phase.Transition? && lock.phase.progress.Marked? ==>
      Latest(h, lock.phase.alias) == Some(Observed(lock.phase.alias, !lock.phase.asleep))
  }

  ghost predicate ObservationInv(c: Config, s: S) {
    && StatesSeen(s.book, s.hist, Pending(c, s))
    && DoubtRecorded(s.book, s.hist)
    && MarkOk(s.hist, s.lock)
    && CallsOk(s.hist, s.lock)
  }

  // ---------------------------------------------------------------------------
  // Reservations and cleanups

  predicate Holds(q: Req) {
    q.tracker.Owned? || q.tracker.Exiting?
  }

  /** The requests between entering and exiting a reservation of `m`. */
  ghost function Holders(reqs: map<Rid, Req>, m: Alias): set<Rid> {
    set r | r in reqs && Holds(reqs[r]) && reqs[r].target == m
  }

  ghost predicate CountInv(s: S) {
    && (forall m <- s.act :: s.act[m] > 0)
    && (forall m :: CountOf(s.act, m) == |Holders(s.reqs, m)|)
    && (forall m :: Outstanding(s.hist, m) == CountOf(s.act, m))
  }

  predicate CloserOk(q: Req) {
    match q.closer
    case CloseIdle => q.tracker.Owned?
    case Closing => q.tracker.Owned? && q.entered
    case CloseTracker => q.tracker.Exiting? || q.tracker.Exited?
    case CloseFinished => q.tracker.Exited?
  }

  predicate Plain(q: Req) {
    q.closer.CloseIdle? && !q.entered
  }

  /** Who owns the reservation and its cleanups at each stage. */
  predicate ReqInv(q: Req, undoing: bool) {
    match q.stage
    case Waiting => q.tracker.NoTracker? && Plain(q)
    case Locked =>
      && (if undoing then q.tracker.Exiting? || q.tracker.Exited? else q.tracker.NoTracker?)
      && Plain(q) && (undoing ==> !q.kind.Admin?)
    case Proxying => q.tracker.Owned? && Plain(q) && q.kind.Json?
    case JsonCleanup(_) => (q.tracker.Exiting? || q.tracker.Exited?) && Plain(q) && q.kind.Json?
    case OuterCleanup => q.tracker.Exited? && Plain(q)
    case StreamSetup => q.tracker.Owned? && Plain(q) && q.kind.Stream?
    case Responding => CloserOk(q) && q.entered && q.kind.Stream?
    case StreamCleanup => CloserOk(q) && !q.closer.CloseIdle? && q.kind.Stream?
    case Done =>
      if q.tracker.NoTracker? then Plain(q)
      else q.tracker.Exited? && (Plain(q) || (q.closer.CloseFinished? && q.kind.Stream?))
  }

  predicate Undoes(s: S, r: Rid) {
    s.lock.Held? && s.lock.owner == r && s.lock.phase.Undoing?
  }

  function Tally(b: bool): nat { if b then 1 else 0 }

  ghost predicate TallyInv(h: History, r: Rid, q: Req) {
    && (forall m :: multiset(h)[Reserved(r, m)] == Tally(m == q.target && !q.tracker.NoTracker?))
    && (forall m :: multiset(h)[Released(r, m)] == Tally(m == q.target && q.tracker.Exited?))
    && multiset(h)[Opened(r)] == Tally(q.entered)
    && multiset(h)[Closed(r)] == Tally(q.entered && (q.closer.CloseTracker? || q.closer.CloseFinished?))
  }

  ghost predicate Unheard(h: History, r: Rid) {
    && (forall m :: multiset(h)[Reserved(r, m)] == 0)
    && (forall m :: multiset(h)[Released(r, m)] == 0)
    && multiset(h)[Opened(r)] == 0
    && multiset(h)[Closed(r)] == 0
  }

  ghost predicate OwnershipInv(s: S) {
    && (forall r <- s.reqs :: ReqInv(s.reqs[r], Undoes(s, r)))
    && (forall r <- s.reqs :: TallyInv(s.hist, r, s.reqs[r]))
    && (forall r :: r !in s.reqs ==> Unheard(s.hist, r))
  }

  ghost predicate Inv(c: Config, s: S) {
    && LifecycleInv(c, s)
    && ObservationInv(c, s)
    && CountInv(s)
    && OwnershipInv(s)
    && HistoryOk(c, s.hist)
  }

  lemma InitInv(c: Config)
    requires ValidConfig(c)
    ensures Inv(c, Init(c))
  {
    forall m ensures Holders(map[], m) == {} {}
  }
}
