/** Safety of the switch protocol over whole runs: any number of requests, any schedule,
    failures and cancellations included. */
module SwitchTheorems {
  import opened Wrappers
  import opened Lifecycle
  import opened SwitchProtocol
  import opened SwitchHistory
  import opened SwitchInvariant
  import opened SwitchSteps

  /** `s` is what some schedule of steps leads to. */
  ghost predicate Reached(c: Config, sched: seq<(Rid, Action)>, s: S) {
    ValidConfig(c) && Run(c, Init(c), sched) == Some(s)
  }

  lemma ReachedInv(c: Config, sched: seq<(Rid, Action)>, s: S)
    requires Reached(c, sched, s)
    ensures Inv(c, s)
  {
    RunKeeps(c, sched);
  }

  // ---------------------------------------------------------------------------
  // Lifecycle calls

  /** `e` is the most recent event about `x` in `h`. */
  ghost predicate LastWord(h: History, x: Alias, e: Event) {
    exists k :: 0 <= k < |h| && h[k] == e && forall j :: k < j < |h| ==> !About(h[j], x)
  }

  lemma {:induction false} LatestIsLastWord(h: History, x: Alias)
    requires Latest(h, x).Some?
    ensures LastWord(h, x, Latest(h, x).value)
  {
    var n := |h| - 1;
    if !About(h[n], x) {
      LatestIsLastWord(h[..n], x);
      var k :| 0 <= k < n && h[..n][k] == Latest(h, x).value && forall j :: k < j < n ==> !About(h[..n][j], x);
      assert h[k] == Latest(h, x).value;
      forall j | k < j < |h| ensures !About(h[j], x) {
        if j < n {
          assert h[j] == h[..n][j];
        }
      }
    }
  }

  /** When a sleep or wake of `m` is issued, the last thing known about every other alias is
      its own answer that it sleeps, and `m` itself last answered the opposite of the goal. */
  lemma LifecycleCallsAreObserved(c: Config, sched: seq<(Rid, Action)>, s: S, i: nat, asleep: bool, m: Alias)
    requires Reached(c, sched, s) && i < |s.hist| && s.hist[i] == Issued(asleep, m)
    ensures m in c.names
    ensures forall x <- c.names :: x != m ==> LastWord(s.hist[..i], x, Observed(x, true))
    ensures LastWord(s.hist[..i], m, Observed(m, !asleep))
  {
    ReachedInv(c, sched, s);
    assert EntryOk(c, s.hist[..i], s.hist[i]);
    forall x <- c.names | x != m ensures LastWord(s.hist[..i], x, Observed(x, true)) {
      LatestIsLastWord(s.hist[..i], x);
    }
    LatestIsLastWord(s.hist[..i], m);
  }

  /** When a sleep or wake is issued, every reservation ever entered has been exited and
      every upstream stream ever opened has been closed, on all aliases. */
  lemma LifecycleCallsFindNobody(c: Config, sched: seq<(Rid, Action)>, s: S, i: nat)
    requires Reached(c, sched, s) && i < |s.hist| && s.hist[i].Issued?
    ensures NobodyInside(s.hist[..i])
  {
    ReachedInv(c, sched, s);
    assert EntryOk(c, s.hist[..i], s.hist[i]);
  }

  lemma {:induction false} BrokenUntilObserved(h: History, i: nat, m: Alias)
    requires i < |h| && h[i] == Event.Failed(m)
    requires forall k :: i < k < |h| ==> !(h[k].Observed? && h[k].m == m)
    ensures Broken(h, m)
  {
    var n := |h| - 1;
    if i < n {
      assert forall k :: i < k < n ==> h[..n][k] == h[k];
      BrokenUntilObserved(h[..n], i, m);
    }
  }

  /** Fail closed: after a failed sleep or wake of `m` there is no lifecycle call, no
      successful switch and no reservation, on any alias, before `m` has answered a probe. */
  lemma FailClosed(c: Config, sched: seq<(Rid, Action)>, s: S, i: nat, j: nat, m: Alias)
    requires Reached(c, sched, s) && i < j < |s.hist|
    requires s.hist[i] == Event.Failed(m)
    requires s.hist[j].Issued? || s.hist[j].Ready? || s.hist[j].Reserved?
    ensures exists k, asleep :: i < k < j && s.hist[k] == Observed(m, asleep)
  {
    ReachedInv(c, sched, s);
    var past := s.hist[..j];
    assert EntryOk(c, past, s.hist[j]);
    if forall k :: i < k < j ==> !(past[k].Observed? && past[k].m == m) {
      BrokenUntilObserved(past, i, m);
      assert false;
    }
    var k :| i < k < j && past[k].Observed? && past[k].m == m;
    assert s.hist[k] == Observed(m, past[k].asleep);
  }

  /** The contract of a successful switch, by what was observed: the target awake, every
      other alias asleep, after at most one sleep and one wake under this lock. */
  lemma SwitchContract(c: Config, sched: seq<(Rid, Action)>, s: S, i: nat, r: Rid, m: Alias)
    requires Reached(c, sched, s) && i < |s.hist|
    requires s.hist[i] == Ready(r, m) || s.hist[i] == Reserved(r, m)
    ensures forall x <- c.names :: x != m ==> LastWord(s.hist[..i], x, Observed(x, true))
    ensures LastWord(s.hist[..i], m, Observed(m, false))
    ensures s.hist[i].Ready? ==> CallsHeld(s.hist[..i], true) <= 1 && CallsHeld(s.hist[..i], false) <= 1
  {
    ReachedInv(c, sched, s);
    assert EntryOk(c, s.hist[..i], s.hist[i]);
    forall x <- c.names | x != m ensures LastWord(s.hist[..i], x, Observed(x, true)) {
      LatestIsLastWord(s.hist[..i], x);
    }
    LatestIsLastWord(s.hist[..i], m);
  }

  // ---------------------------------------------------------------------------
  // The bookkeeping

  /** Once started, every release of the lock leaves all aliases but at most one asleep, and
      an alias is active exactly when it is awake. */
  lemma SettledWhenUnlocked(c: Config, sched: seq<(Rid, Action)>, s: S)
    requires Reached(c, sched, s) && s.reconciled && s.lock.Free?
    ensures forall x <- c.names :: x in s.book.states
    ensures forall x, y :: x in c.names && y in c.names && x != y ==>
              s.book.states[x] == Sleeping || s.book.states[y] == Sleeping
    ensures forall x <- c.names :: s.book.active == Some(x) <==> s.book.states[x] == Awake
    ensures forall x <- c.names :: s.book.states[x] in {Sleeping, Awake, Error}
  {
    ReachedInv(c, sched, s);
  }

  /** Hence the second reconciliation, which probes the unsafe aliases only, never finds two
      of them awake: its raise is unreachable. */
  lemma SecondGuardNeverRaises(c: Config, sched: seq<(Rid, Action)>, s: S)
    requires Reached(c, sched, s) && s.lock.Held? && s.lock.phase.Probing? && !s.lock.phase.startup
    ensures |s.lock.phase.todo| + |s.lock.phase.seen| <= 1
  {
    ReachedInv(c, sched, s);
  }

  /** Reserved means awake: an alias with a reservation is awake and active, and no
      lifecycle transition is under way. */
  lemma ReservedMeansAwake(c: Config, sched: seq<(Rid, Action)>, s: S, m: Alias)
    requires Reached(c, sched, s) && m in s.act
    ensures s.act[m] > 0
    ensures m in s.book.states && s.book.states[m] == Awake && s.book.active == Some(m)
    ensures s.lock.Held? ==> !s.lock.phase.Transition?
    ensures forall x <- s.act :: x == m
  {
    ReachedInv(c, sched, s);
  }

  // ---------------------------------------------------------------------------
  // Reservations

  /** The requests that have entered and not exited a reservation of `m`, by the history. */
  ghost function Inside(s: S, m: Alias): set<Rid> {
    set r | r in s.reqs && Reserved(r, m) in s.hist && Released(r, m) !in s.hist
  }

  lemma HoldersAreInside(s: S, m: Alias)
    requires OwnershipInv(s)
    ensures Holders(s.reqs, m) == Inside(s, m)
  {
    forall r <- s.reqs ensures r in Holders(s.reqs, m) <==> r in Inside(s, m) {
      assert TallyInv(s.hist, r, s.reqs[r]);
      assert Reserved(r, m) in s.hist <==> Reserved(r, m) in multiset(s.hist);
      assert Released(r, m) in s.hist <==> Released(r, m) in multiset(s.hist);
    }
  }

  /** `_active_requests` counts exactly the requests inside, and keeps no zero entries. */
  lemma CountsAreExact(c: Config, sched: seq<(Rid, Action)>, s: S)
    requires Reached(c, sched, s)
    ensures forall m :: CountOf(s.act, m) == |Inside(s, m)| == Outstanding(s.hist, m)
    ensures forall m <- s.act :: s.act[m] > 0
  {
    ReachedInv(c, sched, s);
    hide Reached, LifecycleInv, ObservationInv, OwnershipInv, HistoryOk, Holders, Inside;
    forall m ensures CountOf(s.act, m) == |Inside(s, m)| == Outstanding(s.hist, m) {
      HoldersAreInside(s, m);
      assert CountOf(s.act, m) == |Holders(s.reqs, m)|;
    }
  }

  /** No request ever enters or exits twice, and a request that is over has exited what it
      entered: its reservation and its upstream stream. */
  lemma ExactlyOnce(c: Config, sched: seq<(Rid, Action)>, s: S, r: Rid, m: Alias)
    requires Reached(c, sched, s)
    ensures multiset(s.hist)[Released(r, m)] <= multiset(s.hist)[Reserved(r, m)] <= 1
    ensures multiset(s.hist)[Closed(r)] <= multiset(s.hist)[Opened(r)] <= 1
    ensures r in s.reqs && s.reqs[r].stage.Done? ==>
              && multiset(s.hist)[Released(r, m)] == multiset(s.hist)[Reserved(r, m)]
              && multiset(s.hist)[Closed(r)] == multiset(s.hist)[Opened(r)]
  {
    ReachedInv(c, sched, s);
    if r in s.reqs {
      assert TallyInv(s.hist, r, s.reqs[r]) && ReqInv(s.reqs[r], Undoes(s, r));
    } else {
      assert Unheard(s.hist, r);
    }
  }

  /** A reservation is given back only after the upstream stream it protects is closed. */
  lemma ReservationOutlivesStream(c: Config, sched: seq<(Rid, Action)>, s: S, i: nat, r: Rid, m: Alias)
    requires Reached(c, sched, s) && i < |s.hist| && s.hist[i] == Released(r, m)
    ensures Reserved(r, m) in s.hist[..i]
    ensures Opened(r) in s.hist[..i] ==> Closed(r) in s.hist[..i]
  {
    ReachedInv(c, sched, s);
    assert EntryOk(c, s.hist[..i], s.hist[i]);
    assert Reserved(r, m) in multiset(s.hist[..i]);
    if Opened(r) in s.hist[..i] {
      assert Opened(r) in multiset(s.hist[..i]);
      assert Closed(r) in multiset(s.hist[..i]);
    }
  }

  lemma ExitCounted(c: Config, s: S, r: Rid)
    requires Inv(c, s) && r in s.reqs && s.reqs[r].tracker.Exiting?
    ensures Next(c, s, r, TrackerExits).Some?
  {
    ExitFindsCount(s, r);
    hide LifecycleInv, ObservationInv, OwnershipInv, CountInv, HistoryOk;
  }

  /** Giving a reservation back never misses its count (the `KeyError` of the exit). */
  lemma ExitNeverFails(c: Config, sched: seq<(Rid, Action)>, s: S, r: Rid)
    requires Reached(c, sched, s) && r in s.reqs && s.reqs[r].tracker.Exiting?
    ensures Next(c, s, r, TrackerExits).Some?
  {
    ReachedInv(c, sched, s);
    hide Reached, Inv;
    ExitCounted(c, s, r);
  }

  // ---------------------------------------------------------------------------
  // The steps themselves: what they record, and where they can be interrupted

  /** What a step adds to the history. */
  ghost predicate Records(s: S, s': S, r: Rid, a: Action)
    requires r in s.reqs
  {
    var holder, t := s.lock.Held? && s.lock.owner == r, s.reqs[r].target;
    && s.hist <= s'.hist
    && (a.Issue? ==> holder && s.lock.phase.Transition?
                     && s'.hist == s.hist + [Issued(s.lock.phase.asleep, s.lock.phase.alias)])
    && (a.Answer? && holder && s.lock.phase.Probing? ==>
          s.lock.phase.todo != [] && s'.hist == s.hist + [Observed(s.lock.phase.todo[0], a.asleep)])
    && (a.Answer? && holder && s.lock.phase.Transition? ==>
          s.hist + [Observed(s.lock.phase.alias, a.asleep)] <= s'.hist)
    && ((a.Fail? || a.Cancel?) && holder && s.lock.phase.Transition? ==>
          s'.hist == s.hist + [Event.Failed(s.lock.phase.alias)])
    && (a.Enter? ==> s'.hist == s.hist + [Reserved(r, t)])
    && (a.TrackerExits? ==> s'.hist == s.hist + [Released(r, t)])
    && (a.StreamUp? ==> s'.hist == s.hist + [Opened(r)])
    && (a.CloseUpstream? ==> s'.hist == s.hist + [Closed(r)])
  }

  lemma HolderRecords(c: Config, s: S, r: Rid, a: Action)
    requires r in s.reqs && s.lock.Held? && s.lock.owner == r && NextHolder(c, s, r, a).Some?
    ensures Records(s, NextHolder(c, s, r, a).value, r, a)
  {
  }

  lemma OutsideRecords(s: S, r: Rid, a: Action)
    requires r in s.reqs && !(s.lock.Held? && s.lock.owner == r) && NextOutside(s, r, a).Some?
    ensures Records(s, NextOutside(s, r, a).value, r, a)
  {
  }

  /** Every lifecycle call, answer, failed transition, reservation and stream is recorded when it
      happens, by every step of every request. */
  lemma EventsAreRecorded(c: Config, s: S, r: Rid, a: Action)
    requires r in s.reqs && Next(c, s, r, a).Some?
    ensures Records(s, Next(c, s, r, a).value, r, a)
  {
    hide NextHolder, NextOutside;
    if !a.Arrive? && !a.Acquire? {
      if s.lock.Held? && s.lock.owner == r {
        HolderRecords(c, s, r, a);
      } else {
        OutsideRecords(s, r, a);
      }
    }
  }

  /** `r` is suspended: waiting for the lock, a probe, the drain, a call, its reservation, the
      upstream or a cleanup task. */
  predicate Awaiting(s: S, r: Rid)
    requires r in s.reqs
  {
    match s.reqs[r].stage
    case Locked =>
      s.lock.Held? && s.lock.owner == r &&
      (match s.lock.phase
       case Probing(_, todo, _) => todo != []
       case Deciding => false
       case Draining(_) => true
       case Transition(_, _, progress) => !progress.Marked?
       case Entering(_) => true
       case Undoing => true)
    case OuterCleanup => false
    case Done => false
    case _ => true
  }

  lemma LockedIsHolding(c: Config, s: S, r: Rid)
    requires LifecycleInv(c, s) && r in s.reqs
    ensures s.reqs[r].stage.Locked? <==> s.lock.Held? && s.lock.owner == r
  {
  }

  /** The request is cancelled, or gives back the reservation it was entering. */
  predicate CancelKept(s: S, r: Rid) {
    && r in s.reqs
    && (s.reqs[r].failed
        || (s.lock.Held? && s.lock.owner == r && (s.lock.phase == Entering(true) || s.lock.phase.Undoing?)))
  }

  lemma HolderCancelled(s: S, r: Rid)
    requires r in s.reqs && s.lock.Held? && s.lock.owner == r && s.reqs[r].stage.Locked? && Awaiting(s, r)
    ensures DoAbort(s, r, true).Some? && CancelKept(DoAbort(s, r, true).value, r)
  {
  }

  lemma OutsideCancelled(s: S, r: Rid)
    requires r in s.reqs && !s.reqs[r].stage.Locked? && Awaiting(s, r)
    ensures NextReq(s.reqs[r], Cancel).Some? && NextReq(s.reqs[r], Cancel).value.failed
  {
  }

  /** A cancellation can reach a request at every await, and is not forgotten. */
  lemma EveryAwaitCanBeCancelled(c: Config, sched: seq<(Rid, Action)>, s: S, r: Rid)
    requires Reached(c, sched, s) && r in s.reqs && Awaiting(s, r)
    ensures Next(c, s, r, Cancel).Some? && CancelKept(Next(c, s, r, Cancel).value, r)
  {
    hide Awaiting, DoAbort, NextReq, Inv, LifecycleInv;
    ReachedLifecycle(c, sched, s);
    LockedIsHolding(c, s, r);
    if s.reqs[r].stage.Locked? {
      HolderCancelled(s, r);
    } else {
      OutsideCancelled(s, r);
    }
  }

  lemma ReachedLifecycle(c: Config, sched: seq<(Rid, Action)>, s: S)
    requires Reached(c, sched, s)
    ensures LifecycleInv(c, s)
  {
    ReachedInv(c, sched, s);
  }

  /** Every await of the lock holder can fail, unless a cancellation is already being honoured;
      it then gives up the lock. */
  lemma HolderAwaitCanFail(c: Config, s: S, r: Rid)
    requires r in s.reqs && s.reqs[r].stage.Locked? && Awaiting(s, r)
    requires !s.lock.phase.Undoing?
    ensures var s' := Next(c, s, r, Fail);
      s'.Some? && s'.value.lock.Free? && r in s'.value.reqs && s'.value.reqs[r].stage.Done? && s'.value.reqs[r].failed
  {
    hide NextOutside;
  }

  ghost predicate Fails(s: S, s': Option<S>, r: Rid) {
    s'.Some? && r in s'.value.reqs && s'.value.reqs[r].failed && s'.value.lock == s.lock
  }

  /** Outside the lock, a proxy call, the setup of a stream, building its response and closing
      its upstream can each fail. */
  lemma OutsideAwaitCanFail(s: S, r: Rid)
    requires r in s.reqs
    ensures s.reqs[r].stage.Proxying? ==> Fails(s, NextOutside(s, r, Reply(false)), r)
    ensures s.reqs[r].stage.StreamSetup? ==>
              Fails(s, NextOutside(s, r, Fail), r) && Fails(s, NextOutside(s, r, StreamUp(false)), r)
    ensures s.reqs[r].closer.Closing? ==> Fails(s, NextOutside(s, r, CloseUpstream(false)), r)
  {
  }

  /** `a` starts the teardown of a stream, or finds it started and leaves it alone. */
  predicate TearsDown(q: Req, a: Action) {
    && NextReq(q, a).Some?
    && var q' := NextReq(q, a).value;
    && !q'.closer.CloseIdle?
    && (!q.closer.CloseIdle? ==> q'.closer == q.closer && q'.tracker == q.tracker)
  }

  /** The end of the body, the end of the response and a cancellation share one teardown; a body
      that ends late, even after the response is over, finds it. */
  lemma TeardownIsShared(c: Config, sched: seq<(Rid, Action)>, s: S, r: Rid)
    requires Reached(c, sched, s) && r in s.reqs && s.reqs[r].entered
    ensures s.reqs[r].stage.Responding? ==>
      TearsDown(s.reqs[r], IteratorEnds) && TearsDown(s.reqs[r], ResponseEnds) && TearsDown(s.reqs[r], Cancel)
    ensures s.reqs[r].stage.StreamCleanup? || s.reqs[r].stage.Done? ==>
      TearsDown(s.reqs[r], IteratorEnds) && !s.reqs[r].closer.CloseIdle?
  {
    hide Reached, LifecycleInv, ObservationInv, CountInv, HistoryOk, TallyInv, TearsDown, Undoes;
    ReachedInv(c, sched, s);
    TeardownOf(s.reqs[r], Undoes(s, r));
  }

  lemma TeardownOf(q: Req, undoing: bool)
    requires ReqInv(q, undoing) && q.entered
    ensures q.stage.Responding? ==> TearsDown(q, IteratorEnds) && TearsDown(q, ResponseEnds) && TearsDown(q, Cancel)
    ensures q.stage.StreamCleanup? || q.stage.Done? ==> TearsDown(q, IteratorEnds) && !q.closer.CloseIdle?
  {
  }
}
