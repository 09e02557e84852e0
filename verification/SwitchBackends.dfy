/** What the bookkeeping says about the real backends. The protocol only ever sees answers;
    here the answers are assumed to be true, nobody else changes the backends, and a
    lifecycle call has its effect, if any, before it returns or fails. */
module SwitchBackends {
  import opened Lifecycle
  import opened SwitchProtocol
  import opened SwitchInvariant
  import opened SwitchSteps
  import opened SwitchTheorems

  /** A probe answered in this step says what its backend really is. */
  predicate TruthfulStep(s: S, r: Rid, a: Action) {
    a.Answer? && s.lock.Held? && s.lock.owner == r ==>
      match s.lock.phase
      case Probing(_, todo, _) => todo != [] ==> a.asleep == (todo[0] !in s.up)
      case Transition(_, m, _) => a.asleep == (m !in s.up)
      case _ => true
  }

  /** Every probe answered on the schedule from `s` is answered truthfully. */
  ghost predicate Truthful(c: Config, s: S, sched: seq<(Rid, Action)>) {
    sched == [] ||
    (var n := |sched| - 1;
     Truthful(c, s, sched[..n]) &&
     (Run(c, s, sched[..n]).Some? ==> TruthfulStep(Run(c, s, sched[..n]).value, sched[n].0, sched[n].1)))
  }

  /** An alias that is not pending and recorded asleep (awake) is so. */
  ghost predicate KnownTrue(b: Book, up: set<Alias>, pending: seq<Alias>) {
    && (forall x <- b.states :: x !in pending && b.states[x].Sleeping? ==> x !in up)
    && (forall x <- b.states :: x !in pending && b.states[x].Awake? ==> x in up)
  }

  ghost predicate BackendInv(c: Config, s: S) {
    && (forall x <- s.up :: x in c.names)
    && KnownTrue(s.book, s.up, Pending(c, s))
  }

  lemma AnsweredTrue(b: Book, up: set<Alias>, m: Alias, asleep: bool, pending: seq<Alias>, pending': seq<Alias>)
    requires KnownTrue(b, up, pending) && asleep == (m !in up)
    requires forall x :: x in pending ==> x == m || x in pending'
    ensures KnownTrue(Answered(b, m, asleep), up, pending')
  {
  }

  lemma ProbeTrue(c: Config, s: S, r: Rid, asleep: bool)
    requires Holding(c, s, r) && BackendInv(c, s) && s.lock.phase.Probing? && DoAnswer(s, r, asleep).Some?
    requires asleep == (s.lock.phase.todo[0] !in s.up)
    ensures BackendInv(c, DoAnswer(s, r, asleep).value)
  {
    hide LifecycleInv, KnownTrue, Answered;
    var s' := DoAnswer(s, r, asleep).value;
    AnsweredTrue(s.book, s.up, s.lock.phase.todo[0], asleep, Pending(c, s), Pending(c, s'));
  }

  lemma VerifyTrue(c: Config, s: S, r: Rid, asleep: bool)
    requires Holding(c, s, r) && BackendInv(c, s) && s.lock.phase.Transition? && DoAnswer(s, r, asleep).Some?
    requires asleep == (s.lock.phase.alias !in s.up) && s.reconciled
    ensures BackendInv(c, DoAnswer(s, r, asleep).value)
  {
    hide LifecycleInv;
    AnsweredTrue(s.book, s.up, s.lock.phase.alias, asleep, [], []);
  }

  lemma AnswerTrue(c: Config, s: S, r: Rid, asleep: bool)
    requires Holding(c, s, r) && BackendInv(c, s) && TruthfulStep(s, r, Answer(asleep))
    requires DoAnswer(s, r, asleep).Some?
    ensures BackendInv(c, DoAnswer(s, r, asleep).value)
  {
    hide BackendInv;
    if s.lock.phase.Probing? {
      ProbeTrue(c, s, r, asleep);
    } else {
      VerifyTrue(c, s, r, asleep);
    }
  }

  lemma SettleTrue(c: Config, s: S, r: Rid)
    requires Holding(c, s, r) && BackendInv(c, s) && DoSettle(c, s, r).Some?
    ensures BackendInv(c, DoSettle(c, s, r).value)
  {
    MarkedErrorsBook(c, s.book, s.lock.phase.seen);
  }

  /** Steps that only put an alias in doubt, or nowhere. */
  lemma DoubtTrue(c: Config, s: S, s': S)
    requires BookInv(c, s.book) && BackendInv(c, s) && s'.up == s.up
    requires forall x <- s'.book.states :: x in s.book.states &&
               (s'.book.states[x] == s.book.states[x] || (!s'.book.states[x].Sleeping? && !s'.book.states[x].Awake?))
    requires forall x :: x in Pending(c, s) ==> x in Pending(c, s') || x !in s.book.states
    ensures BackendInv(c, s')
  {
  }

  lemma ChooseTrue(c: Config, s: S, r: Rid)
    requires Holding(c, s, r) && BackendInv(c, s) && DoChoose(s, r).Some?
    ensures BackendInv(c, DoChoose(s, r).value)
  {
    DoubtTrue(c, s, DoChoose(s, r).value);
  }

  lemma AbortTrue(c: Config, s: S, r: Rid, cancel: bool)
    requires Holding(c, s, r) && BackendInv(c, s) && DoAbort(s, r, cancel).Some?
    ensures BackendInv(c, DoAbort(s, r, cancel).value)
  {
    DoubtTrue(c, s, DoAbort(s, r, cancel).value);
  }

  lemma TakeEffectTrue(c: Config, s: S, r: Rid)
    requires Holding(c, s, r) && BackendInv(c, s) && DoTakeEffect(s, r).Some?
    ensures BackendInv(c, DoTakeEffect(s, r).value)
  {
  }

  lemma HolderTrue(c: Config, s: S, r: Rid, a: Action)
    requires Holding(c, s, r) && BackendInv(c, s) && TruthfulStep(s, r, a)
    requires NextHolder(c, s, r, a).Some?
    ensures BackendInv(c, NextHolder(c, s, r, a).value)
  {
    if a.Answer? { AnswerTrue(c, s, r, a.asleep); }
    else if a.Settle? { SettleTrue(c, s, r); }
    else if a.Choose? { ChooseTrue(c, s, r); }
    else if a.TakeEffect? { TakeEffectTrue(c, s, r); }
    else if a.Cancel? { AbortTrue(c, s, r, true); }
    else if a.Fail? { AbortTrue(c, s, r, false); }
    else { DoubtTrue(c, s, NextHolder(c, s, r, a).value); }
  }

  /** Arriving, acquiring and everything outside the lock leave backends and book alone. */
  lemma ElsewhereTrue(c: Config, s: S, r: Rid, a: Action)
    requires LifecycleInv(c, s) && BackendInv(c, s) && Next(c, s, r, a).Some?
    requires a.Arrive? || a.Acquire? || !(s.lock.Held? && s.lock.owner == r)
    ensures BackendInv(c, Next(c, s, r, a).value)
  {
    hide NextHolder, NextReq, LifecycleInv, BackendInv;
    var s' := Next(c, s, r, a).value;
    assert s'.book == s.book && s'.up == s.up && s'.reconciled == s.reconciled;
    SamePending(c, s, s');
  }

  lemma SamePending(c: Config, s: S, s': S)
    requires BackendInv(c, s) && s'.book == s.book && s'.up == s.up && s'.reconciled == s.reconciled
    requires s'.lock == s.lock || (s.lock.Free? && s'.lock.Held? && s'.lock.phase == FirstPhase(c, s))
    ensures BackendInv(c, s')
  {
  }

  lemma StepTrue(c: Config, s: S, r: Rid, a: Action)
    requires ValidConfig(c) && Inv(c, s) && BackendInv(c, s) && TruthfulStep(s, r, a)
    requires Next(c, s, r, a).Some?
    ensures BackendInv(c, Next(c, s, r, a).value)
  {
    hide LifecycleInv, BackendInv, NextHolder, TruthfulStep;
    if a.Arrive? || a.Acquire? || !(s.lock.Held? && s.lock.owner == r) {
      ElsewhereTrue(c, s, r, a);
    } else {
      HolderTrue(c, s, r, a);
    }
  }

  lemma {:induction false} RunTrue(c: Config, sched: seq<(Rid, Action)>)
    requires ValidConfig(c) && Run(c, Init(c), sched).Some? && Truthful(c, Init(c), sched)
    ensures BackendInv(c, Run(c, Init(c), sched).value)
  {
    if sched != [] {
      var n := |sched| - 1;
      var before := sched[..n];
      RunTrue(c, before);
      RunKeeps(c, before);
      StepTrue(c, Run(c, Init(c), before).value, sched[n].0, sched[n].1);
    }
  }

  /** After startup reconciliation an awake backend is never recorded asleep ... */
  lemma AwakeIsNotRecordedAsleep(c: Config, sched: seq<(Rid, Action)>, s: S, x: Alias)
    requires Reached(c, sched, s) && Truthful(c, Init(c), sched) && s.reconciled && x in s.up
    ensures x in s.book.states && s.book.states[x] != Sleeping
  {
    ReachedInv(c, sched, s);
    RunTrue(c, sched);
  }

  /** ... and at most one backend is ever really awake. */
  lemma AtMostOneBackendAwake(c: Config, sched: seq<(Rid, Action)>, s: S)
    requires Reached(c, sched, s) && Truthful(c, Init(c), sched) && s.reconciled
    ensures forall x, y :: x in s.up && y in s.up ==> x == y
  {
    ReachedInv(c, sched, s);
    forall x, y | x in s.up && y in s.up ensures x == y {
      AwakeIsNotRecordedAsleep(c, sched, s, x);
      AwakeIsNotRecordedAsleep(c, sched, s, y);
    }
  }

  /** A request with a reservation is served by a backend that is really awake, alone. */
  lemma ReservedIsServed(c: Config, sched: seq<(Rid, Action)>, s: S, m: Alias)
    requires Reached(c, sched, s) && Truthful(c, Init(c), sched) && m in s.act
    ensures s.up == {m}
  {
    ReachedInv(c, sched, s);
    RunTrue(c, sched);
    assert s.reconciled;
    AtMostOneBackendAwake(c, sched, s);
    ReservedMeansAwake(c, sched, s, m);
    assert m in s.up;
  }
}
