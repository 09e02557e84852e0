/** Recoverability: whatever has failed or been cancelled, a later request still succeeds
    when at most one backend is really awake and nothing fails any more, for anybody. The one
    exception is a lifecycle call that has returned without its effect: its holder polls for
    an answer that cannot come, and only its own failure (the deadline) frees the lock. */
module SwitchRecovery {
  import opened Wrappers
  import opened Lifecycle
  import opened SwitchProtocol
  import SwitchHistory
  import opened SwitchInvariant
  import opened SwitchSteps
  import opened SwitchTheorems
  import opened SwitchBackends

  // ---------------------------------------------------------------------------
  // Schedules

  lemma {:induction false} RunConcat(c: Config, s: S, one: seq<(Rid, Action)>, two: seq<(Rid, Action)>)
    requires Run(c, s, one).Some?
    ensures Run(c, s, one + two) == Run(c, Run(c, s, one).value, two)
  {
    hide Next;
    if two == [] {
      assert one + two == one;
    } else {
      var n := |two| - 1;
      RunConcat(c, s, one, two[..n]);
      assert (one + two)[..|one| + n] == one + two[..n];
    }
  }

  lemma {:induction false} TruthfulConcat(c: Config, s: S, one: seq<(Rid, Action)>, two: seq<(Rid, Action)>)
    requires Run(c, s, one).Some? && Truthful(c, s, one) && Truthful(c, Run(c, s, one).value, two)
    ensures Truthful(c, s, one + two)
  {
    if two == [] {
      assert one + two == one;
    } else {
      var n := |two| - 1;
      TruthfulConcat(c, s, one, two[..n]);
      RunConcat(c, s, one, two[..n]);
      assert (one + two)[..|one| + n] == one + two[..n];
    }
  }

  /** No failure, cancellation or error of any request. */
  predicate Clean(a: Action) {
    match a
    case Cancel => false
    case Fail => false
    case Reply(ok) => ok
    case StreamUp(built) => built
    case CloseUpstream(ok) => ok
    case _ => true
  }

  /** A truthful continuation from `s` to `s'` in which nothing fails. */
  ghost predicate Continues(c: Config, s: S, sched: seq<(Rid, Action)>, s': S) {
    && Run(c, s, sched) == Some(s')
    && Truthful(c, s, sched)
    && forall step <- sched :: Clean(step.1)
  }

  lemma ContinuesOne(c: Config, s: S, q: Rid, a: Action)
    requires Next(c, s, q, a).Some? && TruthfulStep(s, q, a) && Clean(a)
    ensures Continues(c, s, [(q, a)], Next(c, s, q, a).value)
  {
    var sched := [(q, a)];
    assert sched[..0] == [];
    assert Run(c, s, sched[..0]) == Some(s) && Truthful(c, s, sched[..0]);
  }

  lemma ContinuesOn(c: Config, s: S, one: seq<(Rid, Action)>, s1: S, two: seq<(Rid, Action)>, s2: S)
    requires Continues(c, s, one, s1) && Continues(c, s1, two, s2)
    ensures Continues(c, s, one + two, s2)
  {
    RunConcat(c, s, one, two);
    TruthfulConcat(c, s, one, two);
  }

  // ---------------------------------------------------------------------------
  // A request outside the lock runs to its end

  predicate IsOutside(q: Req) {
    !q.stage.Waiting? && !q.stage.Locked? && !q.stage.Done?
  }

  /** The next step of a request outside the lock when nothing fails. */
  function GoodOutside(q: Req): Action {
    match q.stage
    case Proxying => Reply(true)
    case JsonCleanup(_) => if q.tracker.Exiting? then TrackerExits else Resume
    case OuterCleanup => Resume
    case StreamSetup => StreamUp(true)
    case Responding => ResponseEnds
    case _ =>
      match q.closer
      case Closing => CloseUpstream(true)
      case CloseTracker => if q.tracker.Exiting? then TrackerExits else CloserEnds
      case _ => Resume
  }

  function CleanupRank(q: Req): nat {
    (if q.tracker.Owned? then 2 else if q.tracker.Exiting? then 1 else 0) +
    (match q.closer case CloseIdle => 3 case Closing => 2 case CloseTracker => 1 case CloseFinished => 0)
  }

  function OutsideRank(q: Req): nat {
    CleanupRank(q) +
    (match q.stage
     case Proxying => 40
     case JsonCleanup(_) => 30
     case StreamSetup => 40
     case Responding => 30
     case OuterCleanup => 20
     case StreamCleanup => 20
     case _ => 0)
  }

  /** What that step does to the request itself. */
  function AfterGood(q: Req): Option<Req> {
    match GoodOutside(q)
    case StreamUp(built) => Some(StreamUpReq(q, built))
    case CloseUpstream(ok) => Some(ClosedReq(q, ok))
    case TrackerExits => Some(q.(tracker := Exited))
    case a => NextReq(q, a)
  }

  lemma GoodProgress(q: Req)
    requires ReqInv(q, false) && IsOutside(q)
    ensures AfterGood(q).Some?
    ensures var q' := AfterGood(q).value;
      && (IsOutside(q') || q'.stage.Done?) && OutsideRank(q') < OutsideRank(q)
      && (q'.failed ==> q.failed)
  {
  }

  lemma GoodIsNext(s: S, r: Rid)
    requires r in s.reqs && IsOutside(s.reqs[r]) && AfterGood(s.reqs[r]).Some?
    requires s.reqs[r].tracker.Exiting? ==> WithExit(s.act, s.reqs[r].target).Some?
    requires GoodOutside(s.reqs[r]).StreamUp? ==> s.reqs[r].stage.StreamSetup?
    ensures NextOutside(s, r, GoodOutside(s.reqs[r])).Some?
    ensures var s' := NextOutside(s, r, GoodOutside(s.reqs[r])).value;
      && s'.reqs == s.reqs[r := AfterGood(s.reqs[r]).value]
      && s'.lock == s.lock && s'.up == s.up && s'.book == s.book && s'.reconciled == s.reconciled
  {
    var a := GoodOutside(s.reqs[r]);
    if a.StreamUp? {
    } else if a.CloseUpstream? {
    } else if a.TrackerExits? {
    } else {
      assert NextOutside(s, r, a) == Some(SetReq(s, r, NextReq(s.reqs[r], a).value));
    }
  }

  lemma OutsideIsFree(c: Config, s: S, r: Rid)
    requires Inv(c, s) && r in s.reqs && IsOutside(s.reqs[r])
    ensures !(s.lock.Held? && s.lock.owner == r) && ReqInv(s.reqs[r], false)
    ensures s.reqs[r].tracker.Exiting? ==> WithExit(s.act, s.reqs[r].target).Some?
  {
    assert ReqInv(s.reqs[r], Undoes(s, r));
    if s.reqs[r].tracker.Exiting? {
      ExitFindsCount(s, r);
    }
  }

  /** Everything a continuation relies on and keeps. */
  ghost predicate Live(c: Config, s: S) {
    && ValidConfig(c) && Inv(c, s) && BackendInv(c, s)
    && (forall x, y :: x in s.up && y in s.up ==> x == y)
  }

  lemma LiveNext(c: Config, s: S, q: Rid, a: Action)
    requires Live(c, s) && Next(c, s, q, a).Some? && TruthfulStep(s, q, a) && !a.TakeEffect?
    ensures Live(c, Next(c, s, q, a).value) && Next(c, s, q, a).value.up == s.up
  {
    StepKeeps(c, s, q, a);
    StepTrue(c, s, q, a);
    UpUnchanged(c, s, q, a);
  }

  /** One step of `q` leads from `s` to `s1`, and the two remain live. */
  lemma LiveStep(c: Config, s: S, q: Rid, a: Action)
    requires Live(c, s) && Next(c, s, q, a).Some? && TruthfulStep(s, q, a) && Clean(a)
    requires !a.TakeEffect?
    ensures Live(c, Next(c, s, q, a).value) && Continues(c, s, [(q, a)], Next(c, s, q, a).value)
    ensures Next(c, s, q, a).value.up == s.up
  {
    LiveNext(c, s, q, a);
    ContinuesOne(c, s, q, a);
  }

  lemma UpUnchanged(c: Config, s: S, q: Rid, a: Action)
    requires Next(c, s, q, a).Some? && !a.TakeEffect?
    ensures Next(c, s, q, a).value.up == s.up
  {
  }

  /** The next step of `q` leaves it nearer its end. */
  lemma OutsideStep(c: Config, s: S, q: Rid) returns (s1: S)
    requires Live(c, s) && q in s.reqs && IsOutside(s.reqs[q])
    ensures Continues(c, s, [(q, GoodOutside(s.reqs[q]))], s1) && Live(c, s1)
    ensures q in s1.reqs && s1.reqs == s.reqs[q := s1.reqs[q]]
    ensures IsOutside(s1.reqs[q]) || s1.reqs[q].stage.Done?
    ensures OutsideRank(s1.reqs[q]) < OutsideRank(s.reqs[q])
    ensures s1.reqs[q].failed ==> s.reqs[q].failed
    ensures s1.lock == s.lock && s1.up == s.up
  {
    OutsideIsFree(c, s, q);
    GoodProgress(s.reqs[q]);
    GoodIsNext(s, q);
    var a := GoodOutside(s.reqs[q]);
    assert Next(c, s, q, a) == NextOutside(s, q, a);
    LiveStep(c, s, q, a);
    s1 := Next(c, s, q, a).value;
  }

  /** A request outside the lock can finish, disturbing nobody. */
  lemma {:induction false} FinishOutside(c: Config, s: S, q: Rid) returns (more: seq<(Rid, Action)>, s': S)
    requires Live(c, s) && q in s.reqs && IsOutside(s.reqs[q])
    ensures Continues(c, s, more, s') && Live(c, s')
    ensures q in s'.reqs && s'.reqs == s.reqs[q := s'.reqs[q]] && s'.reqs[q].stage.Done?
    ensures s'.lock == s.lock && s'.up == s.up && (s'.reqs[q].failed ==> s.reqs[q].failed)
    decreases OutsideRank(s.reqs[q])
  {
    hide *;
    var a := GoodOutside(s.reqs[q]);
    var s1 := OutsideStep(c, s, q);
    if s1.reqs[q].stage.Done? {
      more, s' := [(q, a)], s1;
    } else {
      var rest;
      rest, s' := FinishOutside(c, s1, q);
      ContinuesOn(c, s, [(q, a)], s1, rest, s');
      more := [(q, a)] + rest;
    }
  }

  ghost function Outsiders(s: S): set<Rid> {
    set q | q in s.reqs && IsOutside(s.reqs[q])
  }

  lemma OutsiderIs(s: S, q: Rid)
    requires q in Outsiders(s)
    ensures q in s.reqs && IsOutside(s.reqs[q]) && !s.reqs[q].stage.Waiting?
  {
  }

  lemma OutsiderGone(s: S, s1: S, q: Rid)
    requires q in s.reqs && IsOutside(s.reqs[q])
    requires q in s1.reqs && s1.reqs == s.reqs[q := s1.reqs[q]] && s1.reqs[q].stage.Done?
    ensures |Outsiders(s1)| < |Outsiders(s)|
  {
    assert Outsiders(s1) == Outsiders(s) - {q};
  }

  lemma ContinuesNone(c: Config, s: S)
    ensures Continues(c, s, [], s)
  {
  }

  /** Everybody outside the lock finishes; a waiting `r` keeps waiting. */
  lemma {:induction false} FinishAllOutside(c: Config, s: S, r: Rid) returns (more: seq<(Rid, Action)>, s': S)
    requires Live(c, s) && r in s.reqs && s.reqs[r].stage.Waiting?
    ensures Continues(c, s, more, s') && Live(c, s') && s'.lock == s.lock && s'.up == s.up
    ensures r in s'.reqs && s'.reqs[r] == s.reqs[r] && Outsiders(s') == {}
    decreases |Outsiders(s)|
  {
    hide *;
    if Outsiders(s) == {} {
      ContinuesNone(c, s);
      return [], s;
    }
    var q :| q in Outsiders(s);
    OutsiderIs(s, q);
    var one, s1 := FinishOutside(c, s, q);
    OutsiderGone(s, s1, q);
    var rest;
    rest, s' := FinishAllOutside(c, s1, r);
    ContinuesOn(c, s, one, s1, rest, s');
    more := one + rest;
  }

  // ---------------------------------------------------------------------------
  // A cancelled holder gives up the lock

  /** The holder was cancelled while it entered its reservation. */
  predicate Leaving(s: S) {
    s.lock.Held? && (s.lock.phase == Entering(true) || s.lock.phase.Undoing?)
  }

  /** It still enters, gives the reservation back and then the lock. */
  function WayOut(s: S): Action
    requires s.lock.Held?
  {
    if s.lock.phase.Undoing? then
      if s.lock.owner in s.reqs && s.reqs[s.lock.owner].tracker.Exiting? then TrackerExits else Resume
    else Enter
  }

  function WayOutRank(s: S): nat {
    if s.lock.Free? then 0
    else if !s.lock.phase.Undoing? then 3
    else if s.lock.owner in s.reqs && s.reqs[s.lock.owner].tracker.Exiting? then 2
    else 1
  }

  predicate CanExit(s: S, q: Rid) {
    && q in s.reqs
    && (s.reqs[q].tracker.Exiting? ==> WithExit(s.act, s.reqs[q].target).Some?)
    && (s.lock.Held? && s.lock.phase.Undoing? ==> s.reqs[q].tracker.Exiting? || s.reqs[q].tracker.Exited?)
  }

  lemma WayOutEnabled(c: Config, s: S, q: Rid)
    requires Leaving(s) && s.lock.owner == q && CanExit(s, q)
    ensures NextHolder(c, s, q, WayOut(s)).Some?
    ensures var s' := NextHolder(c, s, q, WayOut(s)).value;
      && q in s'.reqs && s'.reqs == s.reqs[q := s'.reqs[q]]
      && WayOutRank(s') < WayOutRank(s) && (s'.lock.Free? || Leaving(s'))
  {
  }

  lemma HolderFacts(c: Config, s: S, r: Rid)
    requires Live(c, s) && s.lock.Held? && r in s.reqs && s.reqs[r].stage.Waiting?
    ensures s.lock.owner in s.reqs && s.lock.owner != r && CanExit(s, s.lock.owner)
  {
    var q := s.lock.owner;
    assert ReqInv(s.reqs[q], Undoes(s, q));
    if s.reqs[q].tracker.Exiting? {
      ExitFindsCount(s, q);
    }
  }

  lemma NextIsHolder(c: Config, s: S, q: Rid, a: Action)
    requires q in s.reqs && s.lock.Held? && s.lock.owner == q && !a.Arrive? && !a.Acquire?
    ensures Next(c, s, q, a) == NextHolder(c, s, q, a)
  {
    hide NextHolder;
  }

  /** One step on the way out. */
  lemma WayOutStep(c: Config, s: S, r: Rid) returns (q: Rid, s1: S)
    requires Live(c, s) && s.lock.Held? && Leaving(s) && r in s.reqs && s.reqs[r].stage.Waiting?
    ensures Continues(c, s, [(q, WayOut(s))], s1) && Live(c, s1)
    ensures WayOutRank(s1) < WayOutRank(s) && (s1.lock.Free? || Leaving(s1))
    ensures r in s1.reqs && s1.reqs[r] == s.reqs[r]
  {
    hide Live, Next, NextHolder, Continues, CanExit, WayOutRank, Leaving;
    q := s.lock.owner;
    HolderFacts(c, s, r);
    WayOutEnabled(c, s, q);
    NextIsHolder(c, s, q, WayOut(s));
    LiveStep(c, s, q, WayOut(s));
    s1 := Next(c, s, q, WayOut(s)).value;
  }

  lemma {:induction false} LeaveLock(c: Config, s: S, r: Rid) returns (more: seq<(Rid, Action)>, s': S)
    requires Live(c, s) && (s.lock.Free? || Leaving(s)) && r in s.reqs && s.reqs[r].stage.Waiting?
    ensures Continues(c, s, more, s') && Live(c, s') && s'.lock.Free?
    ensures r in s'.reqs && s'.reqs[r] == s.reqs[r]
    decreases WayOutRank(s)
  {
    hide *;
    if s.lock.Free? {
      ContinuesNone(c, s);
      return [], s;
    }
    var q, s1 := WayOutStep(c, s, r);
    var rest;
    rest, s' := LeaveLock(c, s1, r);
    ContinuesOn(c, s, [(q, WayOut(s))], s1, rest, s');
    more := [(q, WayOut(s))] + rest;
  }

  // ---------------------------------------------------------------------------
  // Any other holder completes its switch

  /** The next step of the lock holder when nothing fails. */
  function GoodHolder(s: S): Action
    requires s.lock.Held?
  {
    match s.lock.phase
    case Probing(_, todo, _) => if todo == [] then Settle else Answer(todo[0] !in s.up)
    case Deciding => Choose
    case Draining(_) => Drained
    case Transition(_, _, Marked) => Issue
    case Transition(goal, m, InFlight) => if goal == (m !in s.up) then Return else TakeEffect
    case Transition(goal, _, Verifying) => Answer(goal)
    case _ => Enter
  }

  /** A verification under way finds what the call was for. */
  predicate EffectSeen(s: S) {
    s.lock.Held? && s.lock.phase.Transition? && s.lock.phase.progress.Verifying? ==>
      s.lock.phase.asleep == (s.lock.phase.alias !in s.up)
  }

  /** `r` holds the lock, is not cancelled, and nobody is inside. */
  ghost predicate OnTrack(c: Config, s: S, r: Rid) {
    && Live(c, s) && r in s.reqs && s.lock.Held? && s.lock.owner == r
    && s.lock.phase != Undoing && s.lock.phase != Entering(true)
    && EffectSeen(s) && Outsiders(s) == {}
  }

  function HolderRank(s: S): nat {
    if s.lock.Free? then 0
    else
      match s.lock.phase
      case Probing(startup, todo, _) => |todo| + if startup then 30 else 20
      case Deciding => 18
      case Draining(_) => 17
      case Transition(goal, m, progress) =>
        (if goal then 8 else 2) +
        (match progress
         case Marked => 5
         case InFlight => if goal == (m !in s.up) then 3 else 4
         case Verifying => 2)
      case _ => 1
  }

  /** Nobody inside means nothing to drain. */
  lemma NothingToDrain(c: Config, s: S, r: Rid)
    requires Inv(c, s) && r in s.reqs && s.lock.Held? && s.lock.owner == r && s.lock.phase != Undoing
    requires Outsiders(s) == {}
    ensures s.act == map[]
  {
    forall q <- s.reqs ensures !Holds(s.reqs[q]) {
      assert ReqInv(s.reqs[q], Undoes(s, q));
      assert q !in Outsiders(s);
    }
    forall m ensures m !in s.act {
      assert CountOf(s.act, m) == |Holders(s.reqs, m)|;
      assert Holders(s.reqs, m) == {};
    }
  }

  lemma OneElement(seen: seq<Alias>, up: set<Alias>)
    requires forall x <- seen :: x in up
    requires forall x, y :: x in up && y in up ==> x == y
    requires forall i, j :: 0 <= i < j < |seen| ==> seen[i] != seen[j]
    ensures |seen| <= 1
  {
    assert |seen| > 1 ==> seen[0] != seen[1];
    assert forall i :: 0 <= i < |seen| ==> seen[i] in up;
  }

  /** With one backend awake at most, reconciliation has seen one at most. */
  lemma SeenAtMostOne(c: Config, b: Book, up: set<Alias>, seen: seq<Alias>)
    requires BookInv(c, b) && StartupLoop(c, b, [], seen) && KnownTrue(b, up, [])
    requires forall x, y :: x in up && y in up ==> x == y
    ensures |seen| <= 1 && UnsafeOf(c.names, b.states) == []
  {
    OneElement(seen, up);
    UnsafeOfCertain(c.names, b.states);
  }

  /** What the steps of a holder on its track rely on. */
  ghost predicate Prepared(c: Config, s: S, r: Rid) {
    && r in s.reqs && s.lock.Held? && s.lock.owner == r
    && s.lock.phase != Undoing && s.lock.phase != Entering(true)
    && s.reqs[r].target in s.book.states && EffectSeen(s)
    && (s.lock.phase.Draining? ==> s.act == map[])
    && (s.lock.phase.Probing? && s.lock.phase.todo == [] ==>
          |s.lock.phase.seen| <= 1 && (s.lock.phase.startup ==> UnsafeOf(c.names, s.book.states) == []))
  }

  lemma OnTrackPrepared(c: Config, s: S, r: Rid)
    requires OnTrack(c, s, r)
    ensures Prepared(c, s, r)
  {
    if s.lock.phase.Draining? {
      NothingToDrain(c, s, r);
    }
    if s.lock.phase.Probing? && s.lock.phase.todo == [] && s.lock.phase.startup {
      SeenAtMostOne(c, s.book, s.up, s.lock.phase.seen);
    }
  }

  lemma GoodHolderEnabled(c: Config, s: S, r: Rid)
    requires Prepared(c, s, r)
    ensures NextHolder(c, s, r, GoodHolder(s)).Some?
    ensures TruthfulStep(s, r, GoodHolder(s)) && Clean(GoodHolder(s))
  {
  }

  /** `r` keeps the lock or gives it up with its reservation, or its admin switch, made. */
  predicate Advanced(s: S, s': S, r: Rid) {
    && r in s.reqs && r in s'.reqs && s'.reqs == s.reqs[r := s'.reqs[r]]
    && HolderRank(s') < HolderRank(s)
    && (s'.lock.Held? ==> s'.lock.owner == r && s'.reqs[r] == s.reqs[r]
                          && s'.lock.phase != Undoing && s'.lock.phase != Entering(true))
    && (s'.lock.Free? ==> (s'.reqs[r].failed ==> s.reqs[r].failed) && (s'.reqs[r].stage.Done? || IsOutside(s'.reqs[r])))
    && EffectSeen(s')
  }

  lemma ProbeAdvances(c: Config, s: S, r: Rid)
    requires Prepared(c, s, r) && s.lock.phase.Probing?
    requires NextHolder(c, s, r, GoodHolder(s)).Some?
    ensures Advanced(s, NextHolder(c, s, r, GoodHolder(s)).value, r)
  {
  }

  lemma ChooseAdvances(c: Config, s: S, r: Rid)
    requires Prepared(c, s, r) && (s.lock.phase.Deciding? || s.lock.phase.Draining? || s.lock.phase.Entering?)
    requires NextHolder(c, s, r, GoodHolder(s)).Some?
    ensures Advanced(s, NextHolder(c, s, r, GoodHolder(s)).value, r)
  {
  }

  lemma TransitionAdvances(c: Config, s: S, r: Rid)
    requires Prepared(c, s, r) && s.lock.phase.Transition?
    requires NextHolder(c, s, r, GoodHolder(s)).Some?
    ensures Advanced(s, NextHolder(c, s, r, GoodHolder(s)).value, r)
  {
  }

  /** A wake lights one backend only: all the others are asleep. */
  lemma EffectKeepsOne(c: Config, s: S, r: Rid)
    requires OnTrack(c, s, r) && DoTakeEffect(s, r).Some?
    ensures var up := DoTakeEffect(s, r).value.up; forall x, y :: x in up && y in up ==> x == y
  {
    hide ObservationInv, CountInv, OwnershipInv, SwitchHistory.HistoryOk, Outsiders, EffectSeen, StartupLoop, Settled, UnsafeOf;
  }

  lemma GoodAdvances(c: Config, s: S, r: Rid)
    requires Prepared(c, s, r) && NextHolder(c, s, r, GoodHolder(s)).Some?
    ensures Advanced(s, NextHolder(c, s, r, GoodHolder(s)).value, r)
  {
    hide NextHolder, Advanced;
    if s.lock.phase.Probing? {
      ProbeAdvances(c, s, r);
    } else if s.lock.phase.Transition? {
      TransitionAdvances(c, s, r);
    } else {
      ChooseAdvances(c, s, r);
    }
  }

  lemma NextIsEffect(c: Config, s: S, r: Rid)
    requires r in s.reqs && s.lock.Held? && s.lock.owner == r
    ensures Next(c, s, r, TakeEffect) == DoTakeEffect(s, r)
  {
  }

  lemma GoodLive(c: Config, s: S, r: Rid)
    requires OnTrack(c, s, r) && Next(c, s, r, GoodHolder(s)).Some?
    requires TruthfulStep(s, r, GoodHolder(s)) && Clean(GoodHolder(s))
    ensures var s1 := Next(c, s, r, GoodHolder(s)).value;
      Live(c, s1) && Continues(c, s, [(r, GoodHolder(s))], s1)
  {
    hide Inv, BackendInv, NextHolder, Continues, TruthfulStep;
    var a := GoodHolder(s);
    StepKeeps(c, s, r, a);
    StepTrue(c, s, r, a);
    ContinuesOne(c, s, r, a);
    if a.TakeEffect? {
      EffectKeepsOne(c, s, r);
      NextIsEffect(c, s, r);
    } else {
      UpUnchanged(c, s, r, a);
    }
  }

  lemma KeepsNobodyOutside(s: S, s1: S, r: Rid)
    requires r in s.reqs && s1.reqs == s.reqs && Outsiders(s) == {}
    ensures Outsiders(s1) == {}
  {
  }

  lemma OnTrackHolds(c: Config, s: S, r: Rid)
    requires OnTrack(c, s, r)
    ensures r in s.reqs && s.lock.Held? && s.lock.owner == r
    ensures !GoodHolder(s).Arrive? && !GoodHolder(s).Acquire?
  {
    hide Live, EffectSeen;
  }

  lemma GoodHolderStep(c: Config, s: S, r: Rid) returns (s1: S)
    requires OnTrack(c, s, r)
    ensures Continues(c, s, [(r, GoodHolder(s))], s1) && Live(c, s1) && Advanced(s, s1, r)
  {
    OnTrackHolds(c, s, r);
    hide *;
    OnTrackPrepared(c, s, r);
    GoodHolderEnabled(c, s, r);
    NextIsHolder(c, s, r, GoodHolder(s));
    GoodAdvances(c, s, r);
    GoodLive(c, s, r);
    s1 := Next(c, s, r, GoodHolder(s)).value;
  }

  lemma StillOnTrack(c: Config, s: S, s1: S, r: Rid)
    requires OnTrack(c, s, r) && Live(c, s1) && Advanced(s, s1, r) && s1.lock.Held?
    ensures OnTrack(c, s1, r)
  {
    hide Live, HolderRank, EffectSeen;
    KeepsNobodyOutside(s, s1, r);
  }

  lemma AdvancedMeans(s: S, s1: S, r: Rid)
    requires Advanced(s, s1, r)
    ensures HolderRank(s1) < HolderRank(s) && r in s.reqs && r in s1.reqs && s1.reqs == s.reqs[r := s1.reqs[r]]
    ensures s1.reqs[r].failed ==> s.reqs[r].failed
    ensures s1.lock.Free? ==> s1.reqs[r].stage.Done? || IsOutside(s1.reqs[r])
  {
    hide HolderRank;
  }

  /** The holder succeeds and gives up the lock; nobody else moves. */
  lemma {:induction false} FinishSwitch(c: Config, s: S, r: Rid) returns (more: seq<(Rid, Action)>, s': S)
    requires OnTrack(c, s, r)
    ensures Continues(c, s, more, s') && Live(c, s') && s'.lock.Free?
    ensures r in s.reqs && r in s'.reqs && s'.reqs == s.reqs[r := s'.reqs[r]]
    ensures s'.reqs[r].stage.Done? || IsOutside(s'.reqs[r])
    ensures s'.reqs[r].failed ==> s.reqs[r].failed
    decreases HolderRank(s)
  {
    hide *;
    OnTrackHolds(c, s, r);
    var a := GoodHolder(s);
    var s1 := GoodHolderStep(c, s, r);
    AdvancedMeans(s, s1, r);
    if s1.lock.Free? {
      return [(r, a)], s1;
    }
    StillOnTrack(c, s, s1, r);
    var rest;
    rest, s' := FinishSwitch(c, s1, r);
    ContinuesOn(c, s, [(r, a)], s1, rest, s');
    more := [(r, a)] + rest;
  }

  lemma HolderOnTrack(c: Config, s: S, r: Rid)
    requires Live(c, s) && EffectSeen(s) && s.lock.Held? && !Leaving(s) && Outsiders(s) == {}
    requires r in s.reqs && s.reqs[r].stage.Waiting?
    ensures OnTrack(c, s, s.lock.owner) && s.lock.owner != r
  {
    HolderFacts(c, s, r);
    hide Live, EffectSeen;
  }

  /** The lock comes free, whoever holds it; a waiting `r` keeps waiting. */
  lemma FreeLock(c: Config, s: S, r: Rid) returns (more: seq<(Rid, Action)>, s': S)
    requires Live(c, s) && EffectSeen(s) && Outsiders(s) == {}
    requires r in s.reqs && s.reqs[r].stage.Waiting?
    ensures Continues(c, s, more, s') && Live(c, s') && s'.lock.Free?
    ensures r in s'.reqs && s'.reqs[r] == s.reqs[r]
  {
    hide *;
    if s.lock.Free? || Leaving(s) {
      more, s' := LeaveLock(c, s, r);
    } else {
      HolderOnTrack(c, s, r);
      more, s' := FinishSwitch(c, s, s.lock.owner);
    }
  }

  // ---------------------------------------------------------------------------
  // The request itself

  lemma AcquiredOnTrack(c: Config, s: S, r: Rid)
    requires r in s.reqs && s.reqs[r].stage.Waiting?
    requires s.lock.Free? && Outsiders(s) == {}
    ensures Next(c, s, r, Acquire).Some?
    ensures var s1 := Next(c, s, r, Acquire).value;
      (Live(c, s1) ==> OnTrack(c, s1, r)) && r in s1.reqs && s1.reqs[r].failed == s.reqs[r].failed
  {
    hide Live;
    assert Next(c, s, r, Acquire) == DoAcquire(c, s, r);
    var s1 := DoAcquire(c, s, r).value;
    assert forall q <- s1.reqs :: IsOutside(s1.reqs[q]) ==> q in Outsiders(s);
  }

  lemma TakeLock(c: Config, s: S, r: Rid) returns (s1: S)
    requires Live(c, s) && r in s.reqs && s.reqs[r].stage.Waiting?
    requires s.lock.Free? && Outsiders(s) == {}
    ensures Continues(c, s, [(r, Acquire)], s1) && OnTrack(c, s1, r)
    ensures r in s1.reqs && s1.reqs[r].failed == s.reqs[r].failed
  {
    assert TruthfulStep(s, r, Acquire) && Clean(Acquire);
    hide *;
    AcquiredOnTrack(c, s, r);
    LiveStep(c, s, r, Acquire);
    s1 := Next(c, s, r, Acquire).value;
  }

  lemma Undisturbed(s: S, s': S)
    requires EffectSeen(s) && s'.lock == s.lock && s'.up == s.up
    ensures EffectSeen(s')
  {
  }

  /** A waiting request succeeds when nobody outside is left and the lock is free. */
  lemma FreeSucceeds(c: Config, s: S, r: Rid) returns (more: seq<(Rid, Action)>, s': S)
    requires Live(c, s) && r in s.reqs && s.reqs[r].stage.Waiting? && !s.reqs[r].failed
    requires s.lock.Free? && Outsiders(s) == {}
    ensures Continues(c, s, more, s') && r in s'.reqs && s'.reqs[r].stage.Done? && !s'.reqs[r].failed
  {
    hide *;
    var s1 := TakeLock(c, s, r);
    var two, s2 := FinishSwitch(c, s1, r);
    more := [(r, Acquire)] + two;
    ContinuesOn(c, s, [(r, Acquire)], s1, two, s2);
    if s2.reqs[r].stage.Done? {
      return more, s2;
    }
    var three;
    three, s' := FinishOutside(c, s2, r);
    ContinuesOn(c, s, more, s2, three, s');
    more := more + three;
  }

  /** The request `r` is served. */
  predicate Served(s: S, r: Rid) {
    r in s.reqs && s.reqs[r].stage.Done? && !s.reqs[r].failed
  }

  /** From every live state in which no call has returned in vain, a waiting request can still
      succeed, nothing failing for anybody. */
  lemma WaitingSucceeds(c: Config, s: S, r: Rid) returns (more: seq<(Rid, Action)>, s': S)
    requires Live(c, s) && EffectSeen(s) && r in s.reqs && s.reqs[r].stage.Waiting? && !s.reqs[r].failed
    ensures Continues(c, s, more, s') && Served(s', r)
  {
    var one, s1 := FinishAllOutside(c, s, r);
    Undisturbed(s, s1);
    var two, s2 := FreeLock(c, s1, r);
    var three, s3 := FinishAllOutside(c, s2, r);
    var four, s4 := FreeSucceeds(c, s3, r);
    hide Continues, Live, Outsiders, EffectSeen;
    ContinuesOn(c, s, one, s1, two, s2);
    ContinuesOn(c, s, one + two, s2, three, s3);
    ContinuesOn(c, s, one + two + three, s3, four, s4);
    more, s' := one + two + three + four, s4;
  }

  // ---------------------------------------------------------------------------
  // A call that has returned in vain

  /** `r` has not been served and cannot be while the lock is kept. */
  predicate Unserved(s: S, r: Rid) {
    r in s.reqs ==> s.reqs[r].stage.Waiting? || (s.reqs[r].stage.Done? && s.reqs[r].failed)
  }

  lemma UnservedReq(q: Req, a: Action)
    requires q.stage.Waiting? || (q.stage.Done? && q.failed)
    requires NextReq(q, a).Some?
    ensures var q' := NextReq(q, a).value;
      q'.stage.Waiting? || (q'.stage.Done? && q'.failed)
  {
  }

  lemma UnservedOutside(s: S, q: Rid, a: Action, r: Rid)
    requires q in s.reqs && NextOutside(s, q, a).Some? && Unserved(s, r)
    ensures var s' := NextOutside(s, q, a).value;
      s'.lock == s.lock && s'.up == s.up && Unserved(s', r)
  {
    hide NextReq;
    if q == r && NextReq(s.reqs[r], a).Some? {
      UnservedReq(s.reqs[r], a);
    }
  }

  lemma VainHolder(c: Config, s: S, a: Action, r: Rid)
    requires !EffectSeen(s) && s.lock.owner in s.reqs && Unserved(s, r)
    requires NextHolder(c, s, s.lock.owner, a).Some? && TruthfulStep(s, s.lock.owner, a) && Clean(a)
    ensures var s' := NextHolder(c, s, s.lock.owner, a).value;
      s'.lock == s.lock && s'.up == s.up && Unserved(s', r)
  {
  }

  /** Without a failure nothing changes but who else is waiting. */
  lemma VainStep(c: Config, s: S, q: Rid, a: Action, r: Rid)
    requires !EffectSeen(s) && Unserved(s, r)
    requires Next(c, s, q, a).Some? && TruthfulStep(s, q, a) && Clean(a)
    ensures var s' := Next(c, s, q, a).value;
      s'.lock == s.lock && s'.up == s.up && Unserved(s', r)
  {
    if !a.Arrive? && !a.Acquire? && s.lock.owner == q {
      hide NextOutside, NextHolder, Unserved, EffectSeen, TruthfulStep;
      VainHolder(c, s, a, r);
    } else if !a.Arrive? && !a.Acquire? {
      hide NextOutside, NextHolder, Unserved;
      UnservedOutside(s, q, a, r);
    }
  }

  /** While a holder waits for an effect that never came, every truthful continuation without
      a failure leaves it the lock, and nobody is served. */
  lemma {:induction false} VainWaits(c: Config, s: S, more: seq<(Rid, Action)>, s': S, r: Rid)
    requires !EffectSeen(s) && Unserved(s, r) && Continues(c, s, more, s')
    ensures s'.lock == s.lock && s'.up == s.up && Unserved(s', r)
  {
    if more != [] {
      var n := |more| - 1;
      var s1 := Run(c, s, more[..n]).value;
      assert Clean(more[n].1);
      assert forall step <- more[..n] :: step in more;
      VainWaits(c, s, more[..n], s1, r);
      VainStep(c, s1, more[n].0, more[n].1, r);
    }
  }

  /** `r` can still be served without anybody failing. */
  ghost predicate CanBeServed(c: Config, s: S, first: seq<(Rid, Action)>, r: Rid) {
    exists more, s' :: Continues(c, s, first + more, s') && Served(s', r)
  }

  /** A waiting request has a truthful continuation that serves it, with no failure or
      cancellation of anybody, exactly if no lifecycle call has returned in vain. */
  lemma WaitingSucceedsIff(c: Config, s: S, r: Rid)
    requires Live(c, s) && r in s.reqs && s.reqs[r].stage.Waiting? && !s.reqs[r].failed
    ensures CanBeServed(c, s, [], r) <==> EffectSeen(s)
  {
    hide Live, Continues, EffectSeen;
    if EffectSeen(s) {
      var more, s' := WaitingSucceeds(c, s, r);
      assert [] + more == more;
    } else if CanBeServed(c, s, [], r) {
      var more, s' :| Continues(c, s, [] + more, s') && Served(s', r);
      VainWaits(c, s, [] + more, s', r);
    }
  }

  lemma ArrivalLives(c: Config, s: S, r: Rid, kind: Kind, target: Alias) returns (s1: S)
    requires Live(c, s) && r !in s.reqs && target in c.names
    ensures Continues(c, s, [(r, Arrive(kind, target))], s1) && Live(c, s1)
    ensures s1.lock == s.lock && s1.up == s.up
    ensures r in s1.reqs && s1.reqs[r].stage.Waiting? && !s1.reqs[r].failed
  {
    LiveStep(c, s, r, Arrive(kind, target));
    s1 := Next(c, s, r, Arrive(kind, target)).value;
  }

  lemma ArrivalServed(c: Config, s: S, r: Rid, kind: Kind, target: Alias)
    requires Live(c, s) && EffectSeen(s) && r !in s.reqs && target in c.names
    ensures CanBeServed(c, s, [(r, Arrive(kind, target))], r)
  {
    var s1 := ArrivalLives(c, s, r, kind, target);
    Undisturbed(s, s1);
    var more, s' := WaitingSucceeds(c, s1, r);
    ContinuesOn(c, s, [(r, Arrive(kind, target))], s1, more, s');
  }

  lemma ReachedLive(c: Config, sched: seq<(Rid, Action)>, s: S)
    requires Reached(c, sched, s) && Truthful(c, Init(c), sched)
    requires forall x, y :: x in s.up && y in s.up ==> x == y
    ensures Live(c, s)
  {
    ReachedInv(c, sched, s);
    RunTrue(c, sched);
  }

  /** After any truthful run, whatever failed in it, with at most one backend really awake: a
      new request for any configured alias has a truthful continuation that serves it, in
      which nothing fails and nobody is cancelled, exactly if no lifecycle call that has
      returned without its effect is being verified. */
  lemma Recoverable(c: Config, sched: seq<(Rid, Action)>, s: S, r: Rid, kind: Kind, target: Alias)
    requires Reached(c, sched, s) && Truthful(c, Init(c), sched)
    requires forall x, y :: x in s.up && y in s.up ==> x == y
    requires r !in s.reqs && target in c.names
    ensures CanBeServed(c, s, [(r, Arrive(kind, target))], r) <==> EffectSeen(s)
  {
    ReachedLive(c, sched, s);
    var arrival := [(r, Arrive(kind, target))];
    if EffectSeen(s) {
      ArrivalServed(c, s, r, kind, target);
    } else if CanBeServed(c, s, arrival, r) {
      var more, s' :| Continues(c, s, arrival + more, s') && Served(s', r);
      VainWaits(c, s, arrival + more, s', r);
    }
  }

  /** In the exceptional case one failure is enough, that of the holder (its deadline): from
      there the new request is served and nothing else fails. */
  lemma OneFailureFrees(c: Config, sched: seq<(Rid, Action)>, s: S, r: Rid, kind: Kind, target: Alias)
    requires Reached(c, sched, s) && Truthful(c, Init(c), sched)
    requires forall x, y :: x in s.up && y in s.up ==> x == y
    requires r !in s.reqs && target in c.names && !EffectSeen(s)
    ensures var s1 := Next(c, s, s.lock.owner, Fail);
      s1.Some? && CanBeServed(c, s1.value, [(r, Arrive(kind, target))], r)
  {
    ReachedLive(c, sched, s);
    hide Live, EffectSeen, Reached, Truthful;
    var s1 := HolderGivesUp(c, s);
    ArrivalServed(c, s1, r, kind, target);
  }

  lemma HolderGivesUp(c: Config, s: S) returns (s1: S)
    requires Live(c, s) && !EffectSeen(s)
    ensures Next(c, s, s.lock.owner, Fail) == Some(s1)
    ensures Live(c, s1) && EffectSeen(s1) && forall r :: r in s1.reqs <==> r in s.reqs
  {
    var q := s.lock.owner;
    assert q in s.reqs;
    s1 := FailTransition(s, q, s.lock.phase.alias);
    NextIsHolder(c, s, q, Fail);
    hide Live;
    LiveNext(c, s, q, Fail);
  }

  lemma ContinuesIsRun(c: Config, s: S, sched: seq<(Rid, Action)>, s': S)
    requires Continues(c, s, sched, s')
    ensures Run(c, s, sched) == Some(s')
  {
  }

  /** One alias, asleep, and one admin switch to it. */
  const LONELY := Config(["a"], None, {})

  ghost predicate Lonely(sched: seq<(Rid, Action)>, s: S, phase: Phase, state: ModelState, reconciled: bool) {
    && Continues(LONELY, Init(LONELY), sched, s) && s.lock == Held(0, phase)
    && s.book == Book(None, map["a" := state]) && s.reconciled == reconciled && s.up == {}
    && 0 in s.reqs && s.reqs[0].target == "a"
  }

  lemma Then(sched: seq<(Rid, Action)>, s: S, a: Action) returns (s': S, sched': seq<(Rid, Action)>)
    requires Continues(LONELY, Init(LONELY), sched, s)
    requires Next(LONELY, s, 0, a).Some? && TruthfulStep(s, 0, a) && Clean(a)
    ensures s' == Next(LONELY, s, 0, a).value && Continues(LONELY, Init(LONELY), sched', s')
  {
    hide Next, Continues, Init;
    s', sched' := Next(LONELY, s, 0, a).value, sched + [(0, a)];
    ContinuesOne(LONELY, s, 0, a);
    ContinuesOn(LONELY, Init(LONELY), sched, s, [(0, a)], s');
  }

  lemma LonelyAcquires() returns (s: S, sched: seq<(Rid, Action)>)
    ensures Lonely(sched, s, Probing(true, ["a"], []), Unknown, false)
  {
    hide Continues;
    s, sched := Init(LONELY), [];
    ContinuesNone(LONELY, s);
    s, sched := Then(sched, s, Arrive(Admin, "a"));
    s, sched := Then(sched, s, Acquire);
    assert s.book.states == map["a" := Unknown];
  }

  lemma LonelyProbes(sched0: seq<(Rid, Action)>, s0: S) returns (s: S, sched: seq<(Rid, Action)>)
    requires Lonely(sched0, s0, Probing(true, ["a"], []), Unknown, false)
    ensures Lonely(sched, s, Probing(false, [], []), Sleeping, true)
  {
    hide Continues, Init;
    s, sched := Then(sched0, s0, Answer(true));
    UnsafeOfCertain(LONELY.names, s.book.states);
    s, sched := Then(sched, s, Settle);
  }

  lemma LonelyDecides(sched0: seq<(Rid, Action)>, s0: S) returns (s: S, sched: seq<(Rid, Action)>)
    requires Lonely(sched0, s0, Probing(false, [], []), Sleeping, true)
    ensures Lonely(sched, s, Transition(false, "a", Marked), Waking, true)
  {
    hide Continues, Init;
    s, sched := Then(sched0, s0, Settle);
    s, sched := Then(sched, s, Choose);
  }

  lemma LonelyCalls(sched0: seq<(Rid, Action)>, s0: S) returns (s: S, sched: seq<(Rid, Action)>)
    requires Lonely(sched0, s0, Transition(false, "a", Marked), Waking, true)
    ensures Lonely(sched, s, Transition(false, "a", Verifying), Waking, true)
  {
    hide Continues, Init;
    s, sched := Then(sched0, s0, Issue);
    s, sched := Then(sched, s, Return);
  }

  /** The exceptional case can be reached, even by a truthful run without a failure: the only
      alias is asleep, and its wake call returns without waking it. */
  lemma CallsCanReturnInVain() returns (sched: seq<(Rid, Action)>, s: S)
    ensures Continues(LONELY, Init(LONELY), sched, s) && Reached(LONELY, sched, s)
    ensures s.up == {} && !EffectSeen(s)
  {
    s, sched := LonelyAcquires();
    s, sched := LonelyProbes(sched, s);
    s, sched := LonelyDecides(sched, s);
    s, sched := LonelyCalls(sched, s);
    ContinuesIsRun(LONELY, Init(LONELY), sched, s);
    hide Continues, Run, Init;
  }
}
