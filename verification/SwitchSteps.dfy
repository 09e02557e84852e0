/** Every step of the protocol keeps the joint invariant. */
module SwitchSteps {
  import opened Wrappers
  import opened Lifecycle
  import opened SwitchProtocol
  import opened SwitchHistory
  import opened SwitchInvariant

  // ---------------------------------------------------------------------------
  // Frames

  predicate IsReservationEvent(e: Event) {
    e.Reserved? || e.Released? || e.Opened? || e.Closed?
  }

  /** `s'` logs `es` and differs from `s` in nothing the reservations depend on, except that
      request `r` may have moved between stages that own nothing. */
  ghost predicate SameOwnership(s: S, s': S, r: Rid, es: History) {
    && r in s.reqs && r in s'.reqs
    && s'.act == s.act
    && s'.reqs == s.reqs[r := s'.reqs[r]]
    && s'.reqs[r] == s.reqs[r].(stage := s'.reqs[r].stage, failed := s'.reqs[r].failed)
    && s'.hist == s.hist + es
    && (forall e <- es :: !IsReservationEvent(e))
  }

  lemma HoldersKept(reqs: map<Rid, Req>, r: Rid, q: Req)
    requires r in reqs ==> Holds(q) == Holds(reqs[r]) && q.target == reqs[r].target
    requires r !in reqs ==> !Holds(q)
    ensures forall m :: Holders(reqs[r := q], m) == Holders(reqs, m)
  {
    forall m ensures Holders(reqs[r := q], m) == Holders(reqs, m) {
      assert forall x :: x in Holders(reqs[r := q], m) <==> x in Holders(reqs, m);
    }
  }

  /** Events that are not about reservations leave every tally alone. */
  lemma QuietEvents(h: History, es: History)
    requires forall e <- es :: !IsReservationEvent(e)
    ensures forall r, q :: TallyInv(h, r, q) ==> TallyInv(h + es, r, q)
    ensures forall r :: Unheard(h, r) ==> Unheard(h + es, r)
  {
    assert multiset(h + es) == multiset(h) + multiset(es);
    assert forall f :: IsReservationEvent(f) ==> multiset(es)[f] == 0;
  }

  lemma {:induction false} QuietOutstanding(h: History, es: History)
    requires forall e <- es :: !IsReservationEvent(e)
    ensures forall x :: Outstanding(h + es, x) == Outstanding(h, x)
  {
    if es == [] {
      assert h + es == h;
    } else {
      var n := |es| - 1;
      QuietOutstanding(h, es[..n]);
      assert es[n] in es;
      Snoc(h + es[..n], es[n]);
      assert h + es == h + es[..n] + [es[n]];
    }
  }

  lemma KeepsReservations(s: S, s': S, r: Rid, es: History)
    requires CountInv(s) && OwnershipInv(s)
    requires SameOwnership(s, s', r, es)
    requires ReqInv(s'.reqs[r], Undoes(s', r))
    requires forall x <- s.reqs :: x != r ==> Undoes(s', x) == Undoes(s, x)
    ensures CountInv(s') && OwnershipInv(s')
  {
    HoldersKept(s.reqs, r, s'.reqs[r]);
    QuietEvents(s.hist, es);
    QuietOutstanding(s.hist, es);
    assert TallyInv(s.hist, r, s.reqs[r]);
    assert TallyInv(s.hist, r, s'.reqs[r]);
  }

  /** The holder goes from one phase to another, neither of them undoing a reservation. */
  lemma GoReservations(s: S, s': S, r: Rid, es: History)
    requires CountInv(s) && OwnershipInv(s) && r in s.reqs
    requires s.lock.Held? && s.lock.owner == r && !s.lock.phase.Undoing?
    requires s'.lock.Held? && s'.lock.owner == r && !s'.lock.phase.Undoing?
    requires s'.act == s.act && s'.reqs == s.reqs && s'.hist == s.hist + es
    requires forall e <- es :: !IsReservationEvent(e)
    ensures CountInv(s') && OwnershipInv(s')
  {
    KeepsReservations(s, s', r, es);
  }

  /** The holder gives up the lock without having reserved anything. */
  lemma FinishReservations(s: S, s1: S, r: Rid, failed: bool, es: History)
    requires CountInv(s) && OwnershipInv(s) && r in s.reqs && s.reqs[r].stage.Locked?
    requires s.lock.Held? && s.lock.owner == r && !s.lock.phase.Undoing?
    requires s1.act == s.act && s1.reqs == s.reqs && s1.hist == s.hist + es
    requires forall e <- es :: !IsReservationEvent(e)
    ensures CountInv(Finish(s1, r, failed)) && OwnershipInv(Finish(s1, r, failed))
  {
    KeepsReservations(s, Finish(s1, r, failed), r, es);
  }

  lemma AfterReadyReservations(s: S, s1: S, r: Rid, es: History)
    requires CountInv(s) && OwnershipInv(s) && r in s.reqs && s.reqs[r].stage.Locked?
    requires s.lock.Held? && s.lock.owner == r && !s.lock.phase.Undoing?
    requires s1.act == s.act && s1.reqs == s.reqs && s1.hist == s.hist + es
    requires forall e <- es :: !IsReservationEvent(e)
    ensures CountInv(AfterReady(s1, r)) && OwnershipInv(AfterReady(s1, r))
  {
    var e := Ready(r, s.reqs[r].target);
    var s2 := Log(s1, e);
    assert s2.hist == s.hist + (es + [e]);
    if s.reqs[r].kind.Admin? {
      FinishReservations(s, s2, r, false, es + [e]);
    } else {
      GoReservations(s, Go(s2, r, Entering(false)), r, es + [e]);
    }
  }

  lemma UnsafeOfContents(names: seq<Alias>, states: map<Alias, ModelState>)
    ensures forall x :: x in UnsafeOf(names, states) <==> x in names && x in states && IsUnsafe(states[x])
  {
  }

  lemma UnsafeOfCertain(names: seq<Alias>, states: map<Alias, ModelState>)
    requires forall x <- names :: x in states ==> !IsUnsafe(states[x])
    ensures UnsafeOf(names, states) == []
  {
  }

  /** A settled book has at most one alias to reconcile. */
  lemma {:induction false} UnsafeOfSettled(names: seq<Alias>, b: Book)
    requires Distinct(names) && Settled(b)
    ensures |UnsafeOf(names, b.states)| <= 1
  {
    if names != [] {
      UnsafeOfSettled(names[1..], b);
      UnsafeOfContents(names[1..], b.states);
      var rest := UnsafeOf(names[1..], b.states);
      if rest != [] {
        assert rest[0] in rest && rest[0] in names[1..];
      }
    }
  }

  lemma {:induction false} MarkedErrorsBook(c: Config, b: Book, ms: seq<Alias>)
    requires BookInv(c, b)
    ensures BookInv(c, MarkedErrors(b, ms))
    ensures forall x <- b.states :: x in ms ==> MarkedErrors(b, ms).states[x].Error?
    ensures forall x <- b.states :: x !in ms ==> MarkedErrors(b, ms).states[x] == b.states[x]
    decreases |ms|
  {
    if ms != [] {
      MarkedErrorsBook(c, MarkedError(b, ms[0]), ms[1..]);
      forall x <- b.states | x in ms && x !in ms[1..]
        ensures x == ms[0]
      {
      }
    }
  }

  // ---------------------------------------------------------------------------
  // The lock holder

  lemma AcquireLifecycle(c: Config, s: S, r: Rid)
    requires ValidConfig(c) && LifecycleInv(c, s) && r in s.reqs && DoAcquire(c, s, r).Some?
    ensures LifecycleInv(c, DoAcquire(c, s, r).value)
  {
    if s.reconciled {
      UnsafeOfSettled(c.names, s.book);
      UnsafeOfContents(c.names, s.book.states);
      var todo := UnsafeOf(c.names, s.book.states);
      if todo != [] {
        assert todo[0] in todo;
      }
    }
  }

  lemma AcquireObservation(c: Config, s: S, r: Rid)
    requires LifecycleInv(c, s) && ObservationInv(c, s) && r in s.reqs && DoAcquire(c, s, r).Some?
    ensures ObservationInv(c, DoAcquire(c, s, r).value)
  {
    hide LifecycleInv, UnsafeOf, Latest, Broken, CallsHeld, Outstanding;
    Snoc(s.hist, Acquired(r));
  }

  lemma AcquireReservations(c: Config, s: S, r: Rid)
    requires LifecycleInv(c, s) && CountInv(s) && OwnershipInv(s)
    requires r in s.reqs && DoAcquire(c, s, r).Some?
    ensures CountInv(DoAcquire(c, s, r).value) && OwnershipInv(DoAcquire(c, s, r).value)
  {
    KeepsReservations(s, DoAcquire(c, s, r).value, r, [Acquired(r)]);
  }

  lemma AcquireKeeps(c: Config, s: S, r: Rid)
    requires ValidConfig(c) && Inv(c, s) && r in s.reqs && DoAcquire(c, s, r).Some?
    ensures Inv(c, DoAcquire(c, s, r).value)
  {
    AcquireLifecycle(c, s, r);
    AcquireObservation(c, s, r);
    AcquireReservations(c, s, r);
    HistoryGrows(c, s.hist, Acquired(r));
  }

  // A probe answers, in a reconciliation loop or while a transition is verified.

  lemma {:induction false} TailStep(names: seq<Alias>, todo: seq<Alias>)
    requires Distinct(names)
    requires todo != [] && |todo| <= |names| && todo == names[|names| - |todo|..]
    ensures todo[1..] == names[|names| - |todo[1..]|..]
    ensures forall x :: x in todo <==> x == todo[0] || x in todo[1..]
    ensures todo[0] in names && todo[0] !in todo[1..]
  {
    if |todo| < |names| {
      assert names[1..][|names[1..]| - |todo|..] == todo;
      TailStep(names[1..], todo);
    }
  }

  lemma StartupAsleep(c: Config, b: Book, todo: seq<Alias>, rest: seq<Alias>, m: Alias, seen: seq<Alias>)
    requires BookInv(c, b) && StartupLoop(c, b, todo, seen)
    requires |rest| <= |c.names| && rest == c.names[|c.names| - |rest|..]
    requires forall x :: x in todo <==> x == m || x in rest
    requires m in c.names && m !in rest
    ensures BookInv(c, MarkedSleeping(b, m)) && StartupLoop(c, MarkedSleeping(b, m), rest, seen)
  {
  }

  lemma StartupAwake(c: Config, b: Book, todo: seq<Alias>, rest: seq<Alias>, m: Alias, seen: seq<Alias>, seen': seq<Alias>)
    requires BookInv(c, b) && StartupLoop(c, b, todo, seen)
    requires |rest| <= |c.names| && rest == c.names[|c.names| - |rest|..]
    requires forall x :: x in todo <==> x == m || x in rest
    requires m in c.names && m !in rest
    requires seen' == seen + [m]
    ensures BookInv(c, MarkedAwake(b, m)) && StartupLoop(c, MarkedAwake(b, m), rest, seen')
  {
  }

  lemma StartupAnswer(c: Config, b: Book, todo: seq<Alias>, seen: seq<Alias>, asleep: bool)
    requires ValidConfig(c) && BookInv(c, b) && StartupLoop(c, b, todo, seen) && todo != []
    ensures var m := todo[0];
      var b' := if asleep then MarkedSleeping(b, m) else MarkedAwake(b, m);
      BookInv(c, b') && StartupLoop(c, b', todo[1..], if asleep then seen else seen + [m])
  {
    TailStep(c.names, todo);
    if asleep {
      StartupAsleep(c, b, todo, todo[1..], todo[0], seen);
    } else {
      StartupAwake(c, b, todo, todo[1..], todo[0], seen, seen + [todo[0]]);
    }
  }

  /** The holder whose request, phase and target a step is about. */
  ghost predicate Holding(c: Config, s: S, r: Rid) {
    ValidConfig(c) && LifecycleInv(c, s) && r in s.reqs && s.lock.Held? && s.lock.owner == r
  }

  /** The holder moves on: new bookkeeping, new phase, same requests. */
  lemma GoLifecycle(c: Config, s: S, s': S, r: Rid)
    requires Holding(c, s, r)
    requires s'.reqs == s.reqs && s'.act == s.act && s'.lock.Held? && s'.lock.owner == r
    requires BookInv(c, s'.book) && (!s'.reconciled ==> s'.act == map[])
    requires forall m <- s'.act :: s'.book.active == Some(m)
    requires PhaseInv(c, s'.book, s'.reconciled, s'.act, s'.reqs[r].target, s'.lock.phase)
    requires s'.lock.phase.Entering? ==> !s'.reqs[r].kind.Admin?
    ensures LifecycleInv(c, s')
  {
  }

  /** The holder is done: the lock is free and the bookkeeping settled. */
  lemma FinishLifecycle(c: Config, s: S, s1: S, r: Rid, failed: bool)
    requires Holding(c, s, r)
    requires s1.reqs == s.reqs && s1.act == s.act
    requires BookInv(c, s1.book) && (!s1.reconciled ==> s1.act == map[])
    requires forall m <- s1.act :: s1.book.active == Some(m)
    requires s1.reconciled ==> Settled(s1.book)
    ensures LifecycleInv(c, Finish(s1, r, failed))
  {
  }

  lemma AfterReadyLifecycle(c: Config, s: S, s1: S, r: Rid)
    requires Holding(c, s, r)
    requires s1.reqs == s.reqs && s1.act == s.act && s1.reconciled
    requires BookInv(c, s1.book) && Certain(s1.book) && s1.book.active == Some(s.reqs[r].target)
    requires forall m <- s1.act :: s1.book.active == Some(m)
    ensures LifecycleInv(c, AfterReady(s1, r))
  {
    var s2 := Log(s1, Ready(r, s.reqs[r].target));
    if s.reqs[r].kind.Admin? {
      FinishLifecycle(c, s, s2, r, false);
    } else {
      GoLifecycle(c, s, Go(s2, r, Entering(false)), r);
    }
  }

  lemma ProbeLifecycle(c: Config, s: S, r: Rid, asleep: bool)
    requires Holding(c, s, r) && s.lock.phase.Probing? && DoAnswer(s, r, asleep).Some?
    ensures LifecycleInv(c, DoAnswer(s, r, asleep).value)
  {
    var Probing(startup, todo, seen) := s.lock.phase;
    if startup {
      StartupAnswer(c, s.book, todo, seen, asleep);
    }
    GoLifecycle(c, s, DoAnswer(s, r, asleep).value, r);
  }

  lemma VerifyLifecycle(c: Config, s: S, r: Rid, asleep: bool)
    requires Holding(c, s, r) && s.lock.phase.Transition? && DoAnswer(s, r, asleep).Some?
    ensures LifecycleInv(c, DoAnswer(s, r, asleep).value)
  {
    var Transition(goal, m, _) := s.lock.phase;
    if asleep != goal || goal {
      GoLifecycle(c, s, DoAnswer(s, r, asleep).value, r);
    } else {
      AfterReadyLifecycle(c, s, Log(s.(book := MarkedAwake(s.book, m)), Observed(m, asleep)), r);
    }
  }

  /** Marking an alias as it has just answered keeps the book true to the history. */
  lemma AnswerSeen(b: Book, h: History, m: Alias, asleep: bool, pending: seq<Alias>, pending': seq<Alias>)
    requires StatesSeen(b, h, pending) && DoubtRecorded(b, h) && m in b.states
    requires forall x :: x in pending ==> x == m || x in pending'
    ensures StatesSeen(Answered(b, m, asleep), h + [Observed(m, asleep)], pending')
    ensures DoubtRecorded(Answered(b, m, asleep), h + [Observed(m, asleep)])
  {
    Snoc(h, Observed(m, asleep));
  }

  lemma ProbeObservation(c: Config, s: S, r: Rid, asleep: bool)
    requires Holding(c, s, r) && ObservationInv(c, s)
    requires s.lock.phase.Probing? && DoAnswer(s, r, asleep).Some?
    ensures ObservationInv(c, DoAnswer(s, r, asleep).value)
  {
    var s' := DoAnswer(s, r, asleep).value;
    var m := s.lock.phase.todo[0];
    assert m in s.book.states;
    AnswerSeen(s.book, s.hist, m, asleep, Pending(c, s), Pending(c, s'));
    Snoc(s.hist, Observed(m, asleep));
  }

  /** An answer about an alias in transition, or an event about no alias, is no news. */
  lemma NoNews(b: Book, h: History, e: Event, pending: seq<Alias>)
    requires StatesSeen(b, h, pending) && DoubtRecorded(b, h)
    requires forall x <- b.states :: About(e, x) ==> !b.states[x].Sleeping? && !b.states[x].Awake?
    requires e.Failed? ==> e.m in b.states && b.states[e.m].Error?
    ensures StatesSeen(b, h + [e], pending) && DoubtRecorded(b, h + [e])
  {
    Snoc(h, e);
  }

  lemma VerifyObservation(c: Config, s: S, r: Rid, asleep: bool)
    requires Holding(c, s, r) && ObservationInv(c, s)
    requires s.lock.phase.Transition? && DoAnswer(s, r, asleep).Some?
    ensures ObservationInv(c, DoAnswer(s, r, asleep).value)
  {
    var Transition(goal, m, _) := s.lock.phase;
    var e := Observed(m, asleep);
    Snoc(s.hist, e);
    if asleep != goal {
      NoNews(s.book, s.hist, e, []);
    } else if goal {
      SleepVerified(c, s, r);
    } else {
      AnswerSeen(s.book, s.hist, m, false, [], []);
      NoNews(Answered(s.book, m, false), s.hist + [e], Ready(r, s.reqs[r].target), []);
    }
  }

  lemma SleepVerified(c: Config, s: S, r: Rid)
    requires Holding(c, s, r) && ObservationInv(c, s)
    requires s.lock.phase.Transition? && s.lock.phase.asleep && DoAnswer(s, r, true).Some?
    ensures ObservationInv(c, DoAnswer(s, r, true).value)
  {
    var m := s.lock.phase.alias;
    Snoc(s.hist, Observed(m, true));
    AnswerSeen(s.book, s.hist, m, true, [], []);
    assert SeenAsleep(s.hist, s.reqs[r].target);
  }

  /** With all settled and one alias awake, a switch may report ready. */
  lemma ReadyEntry(c: Config, s: S, h: History, r: Rid)
    requires BookInv(c, s.book) && Certain(s.book) && s.reconciled && h == s.hist
    requires ObservationInv(c, s)
    requires r in s.reqs && s.book.active == Some(s.reqs[r].target)
    requires CallsHeld(h, true) <= 1 && CallsHeld(h, false) <= 1
    ensures EntryOk(c, h, Ready(r, s.reqs[r].target))
  {
    var t := s.reqs[r].target;
    assert s.book.states[t].Awake?;
    forall x <- c.names | x != t ensures SeenAsleep(h, x) {
      assert s.book.states[x].Sleeping?;
    }
  }

  lemma AnswerHistory(c: Config, s: S, r: Rid, asleep: bool)
    requires Holding(c, s, r) && ObservationInv(c, s) && HistoryOk(c, s.hist) && DoAnswer(s, r, asleep).Some?
    ensures HistoryOk(c, DoAnswer(s, r, asleep).value.hist)
  {
    match s.lock.phase
    case Probing(_, todo, _) =>
      HistoryGrows(c, s.hist, Observed(todo[0], asleep));
    case Transition(goal, m, _) =>
      var e := Observed(m, asleep);
      HistoryGrows(c, s.hist, e);
      if asleep == goal && !goal {
        Snoc(s.hist, e);
        forall x <- c.names | x != m ensures SeenAsleep(s.hist + [e], x) {
          assert s.book.states[x].Sleeping?;
        }
        assert NothingBroken(s.hist + [e]);
        HistoryGrows(c, s.hist + [e], Ready(r, s.reqs[r].target));
      }
    case _ =>
  }

  lemma ProbeReservations(c: Config, s: S, r: Rid, asleep: bool)
    requires Holding(c, s, r) && CountInv(s) && OwnershipInv(s) && DoAnswer(s, r, asleep).Some?
    requires s.lock.phase.Probing?
    ensures CountInv(DoAnswer(s, r, asleep).value) && OwnershipInv(DoAnswer(s, r, asleep).value)
  {
    hide CountInv, OwnershipInv, BookInv;
    GoReservations(s, DoAnswer(s, r, asleep).value, r, [Observed(s.lock.phase.todo[0], asleep)]);
  }

  lemma VerifyReservations(c: Config, s: S, r: Rid, asleep: bool)
    requires Holding(c, s, r) && CountInv(s) && OwnershipInv(s) && DoAnswer(s, r, asleep).Some?
    requires s.lock.phase.Transition?
    ensures CountInv(DoAnswer(s, r, asleep).value) && OwnershipInv(DoAnswer(s, r, asleep).value)
  {
    hide CountInv, OwnershipInv, BookInv;
    var goal, m := s.lock.phase.asleep, s.lock.phase.alias;
    var e := Observed(m, asleep);
    if asleep == goal && !goal {
      AfterReadyReservations(s, Log(s.(book := MarkedAwake(s.book, m)), e), r, [e]);
    } else {
      GoReservations(s, DoAnswer(s, r, asleep).value, r, [e]);
    }
  }

  lemma AnswerReservations(c: Config, s: S, r: Rid, asleep: bool)
    requires Holding(c, s, r) && CountInv(s) && OwnershipInv(s) && DoAnswer(s, r, asleep).Some?
    ensures CountInv(DoAnswer(s, r, asleep).value) && OwnershipInv(DoAnswer(s, r, asleep).value)
  {
    hide CountInv, OwnershipInv, BookInv;
    if s.lock.phase.Probing? {
      ProbeReservations(c, s, r, asleep);
    } else {
      VerifyReservations(c, s, r, asleep);
    }
  }

  lemma AnswerKeeps(c: Config, s: S, r: Rid, asleep: bool)
    requires Holding(c, s, r) && Inv(c, s) && DoAnswer(s, r, asleep).Some?
    ensures Inv(c, DoAnswer(s, r, asleep).value)
  {
    if s.lock.phase.Probing? {
      ProbeLifecycle(c, s, r, asleep);
      ProbeObservation(c, s, r, asleep);
    } else {
      VerifyLifecycle(c, s, r, asleep);
      VerifyObservation(c, s, r, asleep);
    }
    AnswerReservations(c, s, r, asleep);
    AnswerHistory(c, s, r, asleep);
  }

  // The reconciliation loop is over.

  lemma SettleLifecycle(c: Config, s: S, r: Rid)
    requires Holding(c, s, r) && DoSettle(c, s, r).Some?
    ensures LifecycleInv(c, DoSettle(c, s, r).value)
  {
    var Probing(startup, todo, seen) := s.lock.phase;
    if |seen| > 1 {
      MarkedErrorsBook(c, s.book, seen);
      MarkedErrorsActive(s.book, seen);
      FinishLifecycle(c, s, s.(book := MarkedErrors(s.book, seen)), r, true);
    } else {
      if startup {
        forall x, y | x in s.book.states && y in s.book.states && x in seen && y in seen
          ensures x == y
        {
        }
        UnsafeOfCertain(c.names, s.book.states);
      }
      GoLifecycle(c, s, DoSettle(c, s, r).value, r);
    }
  }

  lemma {:induction false} MarkedErrorsActive(b: Book, ms: seq<Alias>)
    ensures var b' := MarkedErrors(b, ms); b'.active == b.active || b'.active == None
    decreases |ms|
  {
    if ms != [] {
      MarkedErrorsActive(MarkedError(b, ms[0]), ms[1..]);
    }
  }

  lemma SettleObservation(c: Config, s: S, r: Rid)
    requires Holding(c, s, r) && ObservationInv(c, s) && DoSettle(c, s, r).Some?
    ensures ObservationInv(c, DoSettle(c, s, r).value)
  {
    MarkedErrorsBook(c, s.book, s.lock.phase.seen);
  }

  lemma SettleReservations(c: Config, s: S, r: Rid)
    requires Holding(c, s, r) && CountInv(s) && OwnershipInv(s) && DoSettle(c, s, r).Some?
    ensures CountInv(DoSettle(c, s, r).value) && OwnershipInv(DoSettle(c, s, r).value)
  {
    var seen := s.lock.phase.seen;
    if |seen| > 1 {
      FinishReservations(s, s.(book := MarkedErrors(s.book, seen)), r, true, []);
    } else {
      GoReservations(s, DoSettle(c, s, r).value, r, []);
    }
  }

  lemma SettleKeeps(c: Config, s: S, r: Rid)
    requires Holding(c, s, r) && Inv(c, s) && DoSettle(c, s, r).Some?
    ensures Inv(c, DoSettle(c, s, r).value)
  {
    SettleLifecycle(c, s, r);
    SettleObservation(c, s, r);
    SettleReservations(c, s, r);
  }

  // The policy decides.

  lemma ChooseLifecycle(c: Config, s: S, r: Rid)
    requires Holding(c, s, r) && DoChoose(s, r).Some?
    ensures LifecycleInv(c, DoChoose(s, r).value)
  {
    var d := Decide(s.book.active, s.reqs[r].target, s.book.states).value;
    if d.sleep == [] && d.wake == None {
      AfterReadyLifecycle(c, s, s, r);
    } else {
      GoLifecycle(c, s, DoChoose(s, r).value, r);
    }
  }

  lemma ChooseObservation(c: Config, s: S, r: Rid)
    requires Holding(c, s, r) && ObservationInv(c, s) && DoChoose(s, r).Some?
    ensures ObservationInv(c, DoChoose(s, r).value)
  {
    var t := s.reqs[r].target;
    var d := Decide(s.book.active, t, s.book.states).value;
    if d.sleep == [] && d.wake == None {
      NoNews(s.book, s.hist, Ready(r, t), []);
    } else if d.sleep == [] {
      assert SeenAsleep(s.hist, t);
    }
  }

  lemma ChooseHistory(c: Config, s: S, r: Rid)
    requires Holding(c, s, r) && ObservationInv(c, s) && HistoryOk(c, s.hist) && DoChoose(s, r).Some?
    ensures HistoryOk(c, DoChoose(s, r).value.hist)
  {
    var d := Decide(s.book.active, s.reqs[r].target, s.book.states).value;
    if d.sleep == [] && d.wake == None {
      ReadyEntry(c, s, s.hist, r);
      HistoryGrows(c, s.hist, Ready(r, s.reqs[r].target));
    }
  }

  lemma ChooseReservations(c: Config, s: S, r: Rid)
    requires Holding(c, s, r) && CountInv(s) && OwnershipInv(s) && DoChoose(s, r).Some?
    ensures CountInv(DoChoose(s, r).value) && OwnershipInv(DoChoose(s, r).value)
  {
    var d := Decide(s.book.active, s.reqs[r].target, s.book.states).value;
    if d.sleep == [] && d.wake == None {
      AfterReadyReservations(s, s, r, []);
    } else {
      GoReservations(s, DoChoose(s, r).value, r, []);
    }
  }

  lemma ChooseKeeps(c: Config, s: S, r: Rid)
    requires Holding(c, s, r) && Inv(c, s) && DoChoose(s, r).Some?
    ensures Inv(c, DoChoose(s, r).value)
  {
    ChooseLifecycle(c, s, r);
    ChooseObservation(c, s, r);
    ChooseHistory(c, s, r);
    ChooseReservations(c, s, r);
  }

  // The transition: draining, marking, calling, verifying.

  lemma DrainedLifecycle(c: Config, s: S, r: Rid)
    requires Holding(c, s, r) && CountInv(s) && DoDrained(s, r).Some?
    ensures LifecycleInv(c, DoDrained(s, r).value) && s.act == map[]
  {
    assert forall m :: m !in s.act;
    GoLifecycle(c, s, DoDrained(s, r).value, r);
  }

  lemma DrainedObservation(c: Config, s: S, r: Rid)
    requires Holding(c, s, r) && ObservationInv(c, s) && DoDrained(s, r).Some?
    ensures ObservationInv(c, DoDrained(s, r).value)
  {
    assert SeenAwake(s.hist, s.lock.phase.prev);
  }

  lemma DrainedKeeps(c: Config, s: S, r: Rid)
    requires Holding(c, s, r) && Inv(c, s) && DoDrained(s, r).Some?
    ensures Inv(c, DoDrained(s, r).value)
  {
    DrainedLifecycle(c, s, r);
    DrainedObservation(c, s, r);
    GoReservations(s, DoDrained(s, r).value, r, []);
  }

  /** With no count left nobody is inside, by the history of every single request. */
  lemma NobodyCounted(s: S)
    requires CountInv(s) && OwnershipInv(s) && s.act == map[]
    ensures NobodyInside(s.hist)
  {
    forall r <- s.reqs ensures !Holds(s.reqs[r]) {
      var m := s.reqs[r].target;
      assert CountOf(s.act, m) == |Holders(s.reqs, m)|;
      assert Holders(s.reqs, m) == {};
      assert r !in Holders(s.reqs, m);
    }
    forall r, m ensures multiset(s.hist)[Reserved(r, m)] == multiset(s.hist)[Released(r, m)] {
      if r in s.reqs { assert TallyInv(s.hist, r, s.reqs[r]); } else { assert Unheard(s.hist, r); }
    }
    forall r ensures multiset(s.hist)[Opened(r)] == multiset(s.hist)[Closed(r)] {
      if r in s.reqs {
        assert TallyInv(s.hist, r, s.reqs[r]) && ReqInv(s.reqs[r], Undoes(s, r));
      } else {
        assert Unheard(s.hist, r);
      }
    }
  }

  lemma IssueEntry(c: Config, s: S, r: Rid)
    requires Holding(c, s, r) && ObservationInv(c, s) && CountInv(s) && OwnershipInv(s)
    requires DoIssue(s, r).Some?
    ensures EntryOk(c, s.hist, Issued(s.lock.phase.asleep, s.lock.phase.alias))
  {
    var m := s.lock.phase.alias;
    forall x <- c.names | x != m ensures SeenAsleep(s.hist, x) {
      assert s.book.states[x].Sleeping?;
    }
    assert forall x <- s.book.states :: !s.book.states[x].Error?;
    NobodyCounted(s);
  }

  lemma IssueObservation(c: Config, s: S, r: Rid)
    requires Holding(c, s, r) && ObservationInv(c, s) && DoIssue(s, r).Some?
    ensures ObservationInv(c, DoIssue(s, r).value)
  {
    var e := Issued(s.lock.phase.asleep, s.lock.phase.alias);
    NoNews(s.book, s.hist, e, []);
    Snoc(s.hist, e);
  }

  lemma IssueKeeps(c: Config, s: S, r: Rid)
    requires Holding(c, s, r) && Inv(c, s) && DoIssue(s, r).Some?
    ensures Inv(c, DoIssue(s, r).value)
  {
    var e := Issued(s.lock.phase.asleep, s.lock.phase.alias);
    GoLifecycle(c, s, DoIssue(s, r).value, r);
    IssueObservation(c, s, r);
    IssueEntry(c, s, r);
    HistoryGrows(c, s.hist, e);
    GoReservations(s, DoIssue(s, r).value, r, [e]);
  }

  lemma TakeEffectKeeps(c: Config, s: S, r: Rid)
    requires Holding(c, s, r) && Inv(c, s) && DoTakeEffect(s, r).Some?
    ensures Inv(c, DoTakeEffect(s, r).value)
  {
    GoReservations(s, DoTakeEffect(s, r).value, r, []);
  }

  lemma ReturnKeeps(c: Config, s: S, r: Rid)
    requires Holding(c, s, r) && Inv(c, s) && DoReturn(s, r).Some?
    ensures Inv(c, DoReturn(s, r).value)
  {
    GoLifecycle(c, s, DoReturn(s, r).value, r);
    GoReservations(s, DoReturn(s, r).value, r, []);
  }

  // Failures, deadlines and cancellations.

  lemma FailTransitionLifecycle(c: Config, s: S, r: Rid)
    requires Holding(c, s, r) && s.lock.phase.Transition?
    ensures LifecycleInv(c, FailTransition(s, r, s.lock.phase.alias))
  {
    var m := s.lock.phase.alias;
    FinishLifecycle(c, s, Log(s.(book := MarkedError(s.book, m)), Event.Failed(m)), r, true);
  }

  lemma FailTransitionReservations(c: Config, s: S, r: Rid)
    requires Holding(c, s, r) && CountInv(s) && OwnershipInv(s) && s.lock.phase.Transition?
    ensures var s' := FailTransition(s, r, s.lock.phase.alias); CountInv(s') && OwnershipInv(s')
  {
    var m := s.lock.phase.alias;
    var e := Event.Failed(m);
    FinishReservations(s, Log(s.(book := MarkedError(s.book, m)), e), r, true, [e]);
  }

  lemma FailTransitionKeeps(c: Config, s: S, r: Rid)
    requires Holding(c, s, r) && Inv(c, s) && s.lock.phase.Transition?
    ensures Inv(c, FailTransition(s, r, s.lock.phase.alias))
  {
    FailTransitionLifecycle(c, s, r);
    FailTransitionObservation(c, s, r);
    FailTransitionReservations(c, s, r);
    HistoryGrows(c, s.hist, Event.Failed(s.lock.phase.alias));
  }

  lemma FailTransitionObservation(c: Config, s: S, r: Rid)
    requires Holding(c, s, r) && ObservationInv(c, s) && s.lock.phase.Transition?
    ensures ObservationInv(c, FailTransition(s, r, s.lock.phase.alias))
  {
    var m := s.lock.phase.alias;
    Snoc(s.hist, Event.Failed(m));
  }

  lemma GiveUpKeeps(c: Config, s: S, r: Rid)
    requires Holding(c, s, r) && Inv(c, s)
    requires s.lock.phase.Probing? || s.lock.phase.Draining? || s.lock.phase.Entering?
    ensures Inv(c, Finish(s, r, true))
  {
    FinishLifecycle(c, s, s, r, true);
    FinishReservations(s, s, r, true, []);
  }

  lemma CancelEnterKeeps(c: Config, s: S, r: Rid)
    requires Holding(c, s, r) && Inv(c, s) && s.lock.phase.Entering?
    ensures Inv(c, Go(s, r, Entering(true)))
  {
    GoLifecycle(c, s, Go(s, r, Entering(true)), r);
    GoReservations(s, Go(s, r, Entering(true)), r, []);
  }

  lemma AbortKeeps(c: Config, s: S, r: Rid, cancel: bool)
    requires Holding(c, s, r) && Inv(c, s) && DoAbort(s, r, cancel).Some?
    ensures Inv(c, DoAbort(s, r, cancel).value)
  {
    if s.lock.phase.Transition? {
      FailTransitionKeeps(c, s, r);
    } else if s.lock.phase.Undoing? {
      assert DoAbort(s, r, cancel).value == s;
    } else if s.lock.phase.Entering? && cancel {
      CancelEnterKeeps(c, s, r);
    } else {
      GiveUpKeeps(c, s, r);
    }
  }

  // ---------------------------------------------------------------------------
  // Reservations

  /** `e` is a reservation event of request `r`. */
  predicate EventOf(e: Event, r: Rid) {
    match e
    case Reserved(x, _) => x == r
    case Released(x, _) => x == r
    case Opened(x) => x == r
    case Closed(x) => x == r
    case _ => false
  }

  /** Only request `r` changes; it logs only events of its own. */
  lemma OwnershipStep(s: S, s': S, r: Rid, es: History)
    requires OwnershipInv(s)
    requires r in s'.reqs && s'.reqs == s.reqs[r := s'.reqs[r]]
    requires s'.hist == s.hist + es && forall e <- es :: EventOf(e, r)
    requires ReqInv(s'.reqs[r], Undoes(s', r)) && TallyInv(s'.hist, r, s'.reqs[r])
    requires forall x <- s.reqs :: x != r ==> Undoes(s', x) == Undoes(s, x)
    ensures OwnershipInv(s')
  {
    assert multiset(s'.hist) == multiset(s.hist) + multiset(es);
    assert forall f :: !EventOf(f, r) ==> multiset(es)[f] == 0;
    forall x <- s'.reqs | x != r ensures TallyInv(s'.hist, x, s'.reqs[x]) {
      assert TallyInv(s.hist, x, s.reqs[x]);
    }
    forall x | x !in s'.reqs ensures Unheard(s'.hist, x) {
      assert Unheard(s.hist, x);
    }
  }

  /** Reservation events tell nothing about the backends. */
  lemma QuietObservation(c: Config, s: S, s': S, e: Event)
    requires ObservationInv(c, s)
    requires IsReservationEvent(e) && s'.hist == s.hist + [e]
    requires s'.book == s.book && s'.reconciled == s.reconciled
    requires s'.lock == s.lock || (s.lock.Held? && s.lock.phase.Entering?
                                   && (s'.lock.Free? || s'.lock.phase.Undoing?))
    ensures ObservationInv(c, s')
  {
    NoNews(s.book, s.hist, e, Pending(c, s));
    Snoc(s.hist, e);
  }

  /** A step of one request outside the lock leaves the lifecycle alone. */
  lemma OutsideLifecycle(c: Config, s: S, s': S, r: Rid)
    requires LifecycleInv(c, s)
    requires s'.book == s.book && s'.reconciled == s.reconciled && s'.lock == s.lock
    requires r in s'.reqs && s'.reqs == s.reqs[r := s'.reqs[r]]
    requires s'.act.Keys <= s.act.Keys
    requires if s.lock.Held? && s.lock.owner == r
             then r in s.reqs && s'.reqs[r] == s.reqs[r].(tracker := s'.reqs[r].tracker)
             else !s'.reqs[r].stage.Locked? && (s'.reqs[r].stage.Waiting? ==> s'.reqs[r].target in c.names)
    ensures LifecycleInv(c, s')
  {
    assert s.act == map[] ==> s'.act == map[];
  }

  lemma HoldersLeave(reqs: map<Rid, Req>, r: Rid, q: Req)
    requires r in reqs && Holds(reqs[r]) && !Holds(q) && q.target == reqs[r].target
    ensures forall m | m != q.target :: Holders(reqs[r := q], m) == Holders(reqs, m)
    ensures |Holders(reqs[r := q], q.target)| == |Holders(reqs, q.target)| - 1
  {
    forall m | m != q.target ensures Holders(reqs[r := q], m) == Holders(reqs, m) {
      assert forall x :: x in Holders(reqs[r := q], m) <==> x in Holders(reqs, m);
    }
    assert Holders(reqs[r := q], q.target) == Holders(reqs, q.target) - {r};
  }

  lemma HoldersJoin(reqs: map<Rid, Req>, r: Rid, q: Req)
    requires r in reqs && !Holds(reqs[r]) && Holds(q) && q.target == reqs[r].target
    ensures forall m | m != q.target :: Holders(reqs[r := q], m) == Holders(reqs, m)
    ensures |Holders(reqs[r := q], q.target)| == |Holders(reqs, q.target)| + 1
  {
    forall m | m != q.target ensures Holders(reqs[r := q], m) == Holders(reqs, m) {
      assert forall x :: x in Holders(reqs[r := q], m) <==> x in Holders(reqs, m);
    }
    assert Holders(reqs[r := q], q.target) == Holders(reqs, q.target) + {r};
  }

  /** The count changes with the one holder that joins or leaves. */
  lemma CountStep(s: S, s': S, r: Rid, q': Req, e: Event, m: Alias)
    requires CountInv(s) && r in s.reqs && s'.reqs == s.reqs[r := q']
    requires q'.target == s.reqs[r].target == m
    requires s'.hist == s.hist + [e]
    requires
      || (e == Reserved(r, m) && !Holds(s.reqs[r]) && Holds(q') && s'.act == WithEnter(s.act, m))
      || (e == Released(r, m) && Holds(s.reqs[r]) && !Holds(q') && Some(s'.act) == WithExit(s.act, m))
    ensures CountInv(s')
  {
    Snoc(s.hist, e);
    if e.Reserved? {
      HoldersJoin(s.reqs, r, q');
    } else {
      HoldersLeave(s.reqs, r, q');
    }
    forall x ensures CountOf(s'.act, x) == |Holders(s'.reqs, x)| {
      assert CountOf(s.act, x) == |Holders(s.reqs, x)|;
    }
  }

  /** A holder's exit finds its own count: the `KeyError` never happens. */
  lemma ExitFindsCount(s: S, r: Rid)
    requires CountInv(s) && r in s.reqs && Holds(s.reqs[r])
    ensures WithExit(s.act, s.reqs[r].target).Some?
  {
    var m := s.reqs[r].target;
    assert r in Holders(s.reqs, m);
    assert CountOf(s.act, m) == |Holders(s.reqs, m)|;
    assert Holders(s.reqs, m) != {};
  }

  lemma EnterCount(c: Config, s: S, r: Rid)
    requires Holding(c, s, r) && CountInv(s) && DoEnter(s, r).Some? && s.reqs[r].tracker.NoTracker?
    ensures CountInv(DoEnter(s, r).value)
  {
    var t := s.reqs[r].target;
    CountStep(s, DoEnter(s, r).value, r, DoEnter(s, r).value.reqs[r], Reserved(r, t), t);
  }

  lemma EnterOwnership(c: Config, s: S, r: Rid)
    requires Holding(c, s, r) && OwnershipInv(s) && DoEnter(s, r).Some?
    ensures OwnershipInv(DoEnter(s, r).value) && s.reqs[r].tracker.NoTracker?
  {
    var s' := DoEnter(s, r).value;
    assert ReqInv(s.reqs[r], false) && TallyInv(s.hist, r, s.reqs[r]);
    ReservedTally(s.hist, r, s.reqs[r], s'.reqs[r]);
    OwnershipStep(s, s', r, [Reserved(r, s.reqs[r].target)]);
  }

  lemma ReservedTally(h: History, r: Rid, q: Req, q': Req)
    requires TallyInv(h, r, q) && q.tracker.NoTracker? && Holds(q') && q'.target == q.target
    requires Plain(q) && Plain(q')
    ensures TallyInv(h + [Reserved(r, q.target)], r, q')
  {
    Snoc(h, Reserved(r, q.target));
  }

  lemma ReleasedTally(h: History, r: Rid, q: Req)
    requires TallyInv(h, r, q) && q.tracker.Exiting?
    ensures TallyInv(h + [Released(r, q.target)], r, q.(tracker := Exited))
  {
    Snoc(h, Released(r, q.target));
  }

  lemma EnterLifecycle(c: Config, s: S, r: Rid)
    requires Holding(c, s, r) && DoEnter(s, r).Some?
    ensures LifecycleInv(c, DoEnter(s, r).value)
  {
  }

  lemma EnterHistory(c: Config, s: S, r: Rid)
    requires Holding(c, s, r) && ObservationInv(c, s) && OwnershipInv(s) && HistoryOk(c, s.hist)
    requires DoEnter(s, r).Some?
    ensures HistoryOk(c, DoEnter(s, r).value.hist)
  {
    var t := s.reqs[r].target;
    assert s.book.states[t].Awake?;
    forall x <- c.names | x != t ensures SeenAsleep(s.hist, x) {
      assert s.book.states[x].Sleeping?;
    }
    assert ReqInv(s.reqs[r], false) && TallyInv(s.hist, r, s.reqs[r]);
    HistoryGrows(c, s.hist, Reserved(r, t));
  }

  lemma EnterKeeps(c: Config, s: S, r: Rid)
    requires Holding(c, s, r) && Inv(c, s) && DoEnter(s, r).Some?
    ensures Inv(c, DoEnter(s, r).value)
  {
    EnterLifecycle(c, s, r);
    QuietObservation(c, s, DoEnter(s, r).value, Reserved(r, s.reqs[r].target));
    EnterOwnership(c, s, r);
    EnterCount(c, s, r);
    EnterHistory(c, s, r);
  }

  lemma TrackerExitsReservations(c: Config, s: S, r: Rid)
    requires LifecycleInv(c, s) && CountInv(s) && OwnershipInv(s) && HistoryOk(c, s.hist)
    requires r in s.reqs && DoTrackerExits(s, r).Some?
    ensures var s' := DoTrackerExits(s, r).value;
      CountInv(s') && OwnershipInv(s') && HistoryOk(c, s'.hist)
  {
    var s' := DoTrackerExits(s, r).value;
    var q, t := s.reqs[r], s.reqs[r].target;
    var e := Released(r, t);
    assert ReqInv(q, Undoes(s, r)) && TallyInv(s.hist, r, q);
    ReleasedTally(s.hist, r, q);
    CountStep(s, s', r, s'.reqs[r], e, t);
    OwnershipStep(s, s', r, [e]);
    HistoryGrows(c, s.hist, e);
  }

  lemma TrackerExitsLifecycle(c: Config, s: S, r: Rid)
    requires LifecycleInv(c, s) && OwnershipInv(s) && r in s.reqs && DoTrackerExits(s, r).Some?
    ensures LifecycleInv(c, DoTrackerExits(s, r).value)
  {
    assert ReqInv(s.reqs[r], Undoes(s, r));
    OutsideLifecycle(c, s, DoTrackerExits(s, r).value, r);
  }

  lemma TrackerExitsKeeps(c: Config, s: S, r: Rid)
    requires Inv(c, s) && r in s.reqs && DoTrackerExits(s, r).Some?
    ensures Inv(c, DoTrackerExits(s, r).value)
  {
    TrackerExitsLifecycle(c, s, r);
    QuietObservation(c, s, DoTrackerExits(s, r).value, Released(r, s.reqs[r].target));
    TrackerExitsReservations(c, s, r);
  }

  lemma UndoneReservations(c: Config, s: S, r: Rid)
    requires Holding(c, s, r) && CountInv(s) && OwnershipInv(s) && DoUndone(s, r).Some?
    ensures CountInv(DoUndone(s, r).value) && OwnershipInv(DoUndone(s, r).value)
  {
    var s' := DoUndone(s, r).value;
    assert ReqInv(s.reqs[r], true) && TallyInv(s.hist, r, s.reqs[r]);
    HoldersKept(s.reqs, r, s'.reqs[r]);
    OwnershipStep(s, s', r, []);
  }

  /** The lock is given up after the reservation of a cancelled request was undone. */
  lemma UndoneKeeps(c: Config, s: S, r: Rid)
    requires Holding(c, s, r) && Inv(c, s) && DoUndone(s, r).Some?
    ensures Inv(c, DoUndone(s, r).value)
  {
    UndoneLifecycle(c, s, r);
    UndoneReservations(c, s, r);
    hide LifecycleInv, CountInv, OwnershipInv, HistoryOk;
  }

  lemma UndoneLifecycle(c: Config, s: S, r: Rid)
    requires Holding(c, s, r) && DoUndone(s, r).Some?
    ensures LifecycleInv(c, DoUndone(s, r).value)
  {
  }

  // ---------------------------------------------------------------------------
  // Requests outside the lock

  /** What a step of one request may do to its ownership. */
  lemma NextReqOwnership(q: Req, a: Action)
    requires ReqInv(q, false) && NextReq(q, a).Some?
    ensures var q' := NextReq(q, a).value;
      && ReqInv(q', false) && q'.target == q.target && q'.kind == q.kind
      && Holds(q') == Holds(q) && q'.entered == q.entered
      && q'.tracker.NoTracker? == q.tracker.NoTracker? && q'.tracker.Exited? == q.tracker.Exited?
      && (q.entered ==> (q'.closer.CloseTracker? || q'.closer.CloseFinished?)
                        == (q.closer.CloseTracker? || q.closer.CloseFinished?))
      && !q'.stage.Waiting?
      && (q.stage.Locked? <==> q'.stage.Locked?)
  {
  }

  lemma ReqStepReservations(s: S, r: Rid, q': Req)
    requires CountInv(s) && OwnershipInv(s) && r in s.reqs && !(s.lock.Held? && s.lock.owner == r)
    requires ReqInv(q', false) && TallyInv(s.hist, r, q') && q'.target == s.reqs[r].target
    requires Holds(q') == Holds(s.reqs[r])
    ensures CountInv(SetReq(s, r, q')) && OwnershipInv(SetReq(s, r, q'))
  {
    HoldersKept(s.reqs, r, q');
    OwnershipStep(s, SetReq(s, r, q'), r, []);
  }

  lemma ReqStepKeeps(c: Config, s: S, r: Rid, q': Req)
    requires Inv(c, s) && r in s.reqs && !(s.lock.Held? && s.lock.owner == r)
    requires ReqInv(q', false) && TallyInv(s.hist, r, q') && q'.target == s.reqs[r].target
    requires Holds(q') == Holds(s.reqs[r])
    requires !q'.stage.Locked? && !q'.stage.Waiting?
    ensures Inv(c, SetReq(s, r, q'))
  {
    hide LifecycleInv, CountInv, OwnershipInv, HistoryOk, ReqInv, TallyInv, Holds;
    OutsideLifecycle(c, s, SetReq(s, r, q'), r);
    ReqStepReservations(s, r, q');
  }

  lemma OutsideNotLocked(c: Config, s: S, r: Rid)
    requires LifecycleInv(c, s) && r in s.reqs && !(s.lock.Held? && s.lock.owner == r)
    ensures !s.reqs[r].stage.Locked?
  {
  }

  lemma NextReqKeeps(c: Config, s: S, r: Rid, a: Action)
    requires Inv(c, s) && r in s.reqs && !(s.lock.Held? && s.lock.owner == r)
    requires NextReq(s.reqs[r], a).Some?
    ensures Inv(c, SetReq(s, r, NextReq(s.reqs[r], a).value))
  {
    hide LifecycleInv, ObservationInv, CountInv, HistoryOk, ReqInv, Holds, NextReq;
    OutsideNotLocked(c, s, r);
    assert ReqInv(s.reqs[r], Undoes(s, r)) && TallyInv(s.hist, r, s.reqs[r]);
    NextReqOwnership(s.reqs[r], a);
    ReqStepKeeps(c, s, r, NextReq(s.reqs[r], a).value);
  }

  lemma StreamStepReservations(s: S, r: Rid, q': Req, e: Event)
    requires CountInv(s) && OwnershipInv(s) && r in s.reqs && !(s.lock.Held? && s.lock.owner == r)
    requires e == Opened(r) || e == Closed(r)
    requires ReqInv(q', false) && TallyInv(s.hist + [e], r, q') && q'.target == s.reqs[r].target
    requires Holds(q') == Holds(s.reqs[r])
    ensures CountInv(SetReq(Log(s, e), r, q')) && OwnershipInv(SetReq(Log(s, e), r, q'))
  {
    hide Latest, Broken, CallsHeld, Outstanding, ReqInv, TallyInv, Holds;
    HoldersKept(s.reqs, r, q');
    Snoc(s.hist, e);
    OwnershipStep(s, SetReq(Log(s, e), r, q'), r, [e]);
  }

  /** A step of one request that logs one event of its upstream stream. */
  lemma StreamStepKeeps(c: Config, s: S, r: Rid, q': Req, e: Event)
    requires Inv(c, s) && r in s.reqs && !(s.lock.Held? && s.lock.owner == r)
    requires (e == Opened(r) || e == Closed(r)) && EntryOk(c, s.hist, e)
    requires ReqInv(q', false) && TallyInv(s.hist + [e], r, q') && q'.target == s.reqs[r].target
    requires Holds(q') == Holds(s.reqs[r])
    requires !q'.stage.Locked? && !q'.stage.Waiting?
    ensures Inv(c, SetReq(Log(s, e), r, q'))
  {
    hide LifecycleInv, ObservationInv, CountInv, OwnershipInv, HistoryOk, EntryOk, ReqInv, TallyInv, Holds;
    var s' := SetReq(Log(s, e), r, q');
    OutsideLifecycle(c, s, s', r);
    QuietObservation(c, s, s', e);
    StreamStepReservations(s, r, q', e);
    HistoryGrows(c, s.hist, e);
  }

  lemma OpenedTally(c: Config, h: History, r: Rid, q: Req, built: bool)
    requires ReqInv(q, false) && q.stage.StreamSetup? && TallyInv(h, r, q)
    ensures EntryOk(c, h, Opened(r)) && TallyInv(h + [Opened(r)], r, StreamUpReq(q, built))
    ensures ReqInv(StreamUpReq(q, built), false) && Holds(StreamUpReq(q, built)) == Holds(q)
  {
    Snoc(h, Opened(r));
  }

  lemma StreamUpKeeps(c: Config, s: S, r: Rid, built: bool)
    requires Inv(c, s) && r in s.reqs && !(s.lock.Held? && s.lock.owner == r)
    requires NextOutside(s, r, StreamUp(built)).Some?
    ensures Inv(c, NextOutside(s, r, StreamUp(built)).value)
  {
    assert ReqInv(s.reqs[r], Undoes(s, r)) && TallyInv(s.hist, r, s.reqs[r]);
    OpenedTally(c, s.hist, r, s.reqs[r], built);
    StreamStepKeeps(c, s, r, StreamUpReq(s.reqs[r], built), Opened(r));
  }

  lemma ClosedTally(c: Config, h: History, r: Rid, q: Req, ok: bool)
    requires ReqInv(q, false) && q.closer.Closing? && TallyInv(h, r, q)
    ensures var q' := ClosedReq(q, ok);
      && EntryOk(c, h, Closed(r)) && TallyInv(h + [Closed(r)], r, q')
      && ReqInv(q', false) && Holds(q') == Holds(q) && q'.target == q.target
      && !q'.stage.Locked? && !q'.stage.Waiting?
  {
    Snoc(h, Closed(r));
  }

  lemma CloseUpstreamKeeps(c: Config, s: S, r: Rid, ok: bool)
    requires Inv(c, s) && r in s.reqs && !(s.lock.Held? && s.lock.owner == r)
    requires NextOutside(s, r, CloseUpstream(ok)).Some?
    ensures Inv(c, NextOutside(s, r, CloseUpstream(ok)).value)
  {
    assert ReqInv(s.reqs[r], Undoes(s, r)) && TallyInv(s.hist, r, s.reqs[r]);
    ClosedTally(c, s.hist, r, s.reqs[r], ok);
    hide Inv, TallyInv, ReqInv, EntryOk, Holds, ClosedReq;
    StreamStepKeeps(c, s, r, ClosedReq(s.reqs[r], ok), Closed(r));
  }

  lemma OutsideKeeps(c: Config, s: S, r: Rid, a: Action)
    requires Inv(c, s) && r in s.reqs && !(s.lock.Held? && s.lock.owner == r)
    requires NextOutside(s, r, a).Some?
    ensures Inv(c, NextOutside(s, r, a).value)
  {
    if a.StreamUp? {
      StreamUpKeeps(c, s, r, a.built);
    } else if a.CloseUpstream? {
      CloseUpstreamKeeps(c, s, r, a.ok);
    } else if a.TrackerExits? {
      TrackerExitsKeeps(c, s, r);
    } else {
      NextReqKeeps(c, s, r, a);
    }
  }

  lemma ArriveLifecycle(c: Config, s: S, r: Rid, kind: Kind, target: Alias)
    requires LifecycleInv(c, s) && DoArrive(c, s, r, kind, target).Some?
    ensures LifecycleInv(c, DoArrive(c, s, r, kind, target).value)
  {
    OutsideLifecycle(c, s, DoArrive(c, s, r, kind, target).value, r);
  }

  lemma ArriveReservations(c: Config, s: S, r: Rid, kind: Kind, target: Alias)
    requires CountInv(s) && OwnershipInv(s) && DoArrive(c, s, r, kind, target).Some?
    ensures var s' := DoArrive(c, s, r, kind, target).value; CountInv(s') && OwnershipInv(s')
  {
    var s' := DoArrive(c, s, r, kind, target).value;
    HoldersKept(s.reqs, r, s'.reqs[r]);
    assert Unheard(s.hist, r);
    OwnershipStep(s, s', r, []);
  }

  lemma ArriveKeeps(c: Config, s: S, r: Rid, kind: Kind, target: Alias)
    requires Inv(c, s) && DoArrive(c, s, r, kind, target).Some?
    ensures Inv(c, DoArrive(c, s, r, kind, target).value)
  {
    ArriveLifecycle(c, s, r, kind, target);
    ArriveReservations(c, s, r, kind, target);
  }

  predicate IsSwitching(a: Action) {
    a.Answer? || a.Settle? || a.Choose? || a.Drained? || a.Issue? || a.TakeEffect? || a.Return?
  }

  lemma SwitchingKeeps(c: Config, s: S, r: Rid, a: Action)
    requires Holding(c, s, r) && Inv(c, s) && IsSwitching(a) && NextHolder(c, s, r, a).Some?
    ensures Inv(c, NextHolder(c, s, r, a).value)
  {
    if a.Answer? { AnswerKeeps(c, s, r, a.asleep); }
    else if a.Settle? { SettleKeeps(c, s, r); }
    else if a.Choose? { ChooseKeeps(c, s, r); }
    else if a.Drained? { DrainedKeeps(c, s, r); }
    else if a.Issue? { IssueKeeps(c, s, r); }
    else if a.TakeEffect? { TakeEffectKeeps(c, s, r); }
    else { ReturnKeeps(c, s, r); }
  }

  lemma HolderKeeps(c: Config, s: S, r: Rid, a: Action)
    requires Holding(c, s, r) && Inv(c, s) && NextHolder(c, s, r, a).Some?
    ensures Inv(c, NextHolder(c, s, r, a).value)
  {
    assert r in s.reqs;
    hide Inv, Holding;
    if IsSwitching(a) { SwitchingKeeps(c, s, r, a); }
    else if a.Cancel? { AbortKeeps(c, s, r, true); }
    else if a.Fail? { AbortKeeps(c, s, r, false); }
    else if a.Enter? { EnterKeeps(c, s, r); }
    else if a.Resume? { UndoneKeeps(c, s, r); }
    else { TrackerExitsKeeps(c, s, r); }
  }

  /** Every enabled step of every request keeps the joint invariant. */
  lemma StepKeeps(c: Config, s: S, r: Rid, a: Action)
    requires ValidConfig(c) && Inv(c, s) && Next(c, s, r, a).Some?
    ensures Inv(c, Next(c, s, r, a).value)
  {
    if a.Arrive? {
      ArriveKeeps(c, s, r, a.kind, a.target);
    } else if a.Acquire? {
      AcquireKeeps(c, s, r);
    } else if s.lock.Held? && s.lock.owner == r {
      HolderKeeps(c, s, r, a);
    } else {
      OutsideKeeps(c, s, r, a);
    }
  }

  /** So does every schedule from the configured start. */
  lemma {:induction false} RunKeeps(c: Config, sched: seq<(Rid, Action)>)
    requires ValidConfig(c) && Run(c, Init(c), sched).Some?
    ensures Inv(c, Run(c, Init(c), sched).value)
  {
    if sched == [] {
      InitInv(c);
    } else {
      var n := |sched| - 1;
      RunKeeps(c, sched[..n]);
      StepKeeps(c, Run(c, Init(c), sched[..n]).value, sched[n].0, sched[n].1);
    }
  }
}
