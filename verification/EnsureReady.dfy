/** `ensure_model_ready_locked` of controller/router.py with the transition and polling code
    of controller/vllm_client.py, as the code that changes `ControllerState` in place.

    Every execution is shown to be a run of the switch protocol, in which other requests act
    at every await, and to end by one deadline. `World` is everything the code awaits: the
    clock, the way each await resolves, and the protocol state seen by all requests. */
module EnsureReady {
  import opened Wrappers
  import opened Lifecycle
  import opened SwitchProtocol
  import opened SwitchInvariant
  import opened SwitchSteps

  // ---------------------------------------------------------------------------
  // Runs

  ghost predicate Reaches(c: Config, s: S, s': S) {
    exists sched :: Run(c, s, sched) == Some(s')
  }

  lemma ReachesSelf(c: Config, s: S)
    ensures Reaches(c, s, s)
  {
    assert Run(c, s, []) == Some(s);
  }

  lemma ReachesNext(c: Config, s: S, s1: S, r: Rid, a: Action)
    requires Reaches(c, s, s1) && Next(c, s1, r, a).Some?
    ensures Reaches(c, s, Next(c, s1, r, a).value)
  {
    hide Next;
    var sched :| Run(c, s, sched) == Some(s1);
    var more := sched + [(r, a)];
    assert more[..|more| - 1] == sched;
    assert Run(c, s, more) == Next(c, s1, r, a);
  }

  /** What the other requests do while `r` is suspended; steps that are not enabled, and
      steps of `r` itself, do not happen. */
  function Others(c: Config, s: S, r: Rid, steps: seq<(Rid, Action)>): S
    decreases |steps|
  {
    if steps == [] then s
    else
      var (q, a) := steps[0];
      var next := if q == r then None else Next(c, s, q, a);
      Others(c, if next.Some? then next.value else s, r, steps[1..])
  }

  /** A step of another request changes nothing the lock holder relies on. */
  lemma OtherStep(c: Config, s: S, r: Rid, q: Rid, a: Action)
    requires q != r && r in s.reqs && s.lock.Held? && s.lock.owner == r && Next(c, s, q, a).Some?
    ensures var s' := Next(c, s, q, a).value;
      && s'.book == s.book && s'.reconciled == s.reconciled && s'.lock == s.lock
      && r in s'.reqs && s'.reqs[r] == s.reqs[r]
  {
    hide NextHolder, NextReq;
  }

  lemma {:induction false} OthersKeep(c: Config, s0: S, s: S, r: Rid, steps: seq<(Rid, Action)>)
    requires ValidConfig(c) && Inv(c, s) && Reaches(c, s0, s)
    requires r in s.reqs && s.lock.Held? && s.lock.owner == r
    ensures var s' := Others(c, s, r, steps);
      && Inv(c, s') && Reaches(c, s0, s')
      && s'.book == s.book && s'.reconciled == s.reconciled && s'.lock == s.lock
      && r in s'.reqs && s'.reqs[r] == s.reqs[r]
    decreases |steps|
  {
    hide Next, Inv, Reaches;
    if steps != [] {
      var (q, a) := steps[0];
      if q != r && Next(c, s, q, a).Some? {
        OtherStep(c, s, r, q, a);
        StepKeeps(c, s, q, a);
        ReachesNext(c, s0, s, q, a);
        OthersKeep(c, s0, Next(c, s, q, a).value, r, steps[1..]);
      } else {
        OthersKeep(c, s0, s, r, steps[1..]);
      }
    }
  }

  // ---------------------------------------------------------------------------
  // The world

  /** How an await resolves if nothing stops it first. */
  datatype Outcome = Said(asleep: bool) | Broke | Cancelled | TimedOut

  /** `effect` says whether a lifecycle call in flight takes effect; `others` is what the
      other requests do meanwhile. */
  datatype Resolution = Resolution(took: real, outcome: Outcome, effect: bool, others: seq<(Rid, Action)>)

  datatype Call = Call(asleep: bool, m: Alias, at: real)

  /** What an await is for, and what the last one brought. */
  datatype Await = Probe(m: Alias) | Post | Wait

  /** A probe that was answered, and when. */
  datatype Polled = Polled(m: Alias, asleep: bool, asked: real, at: real)

  datatype Heard = Nothing | FromProbe(m: Alias, asleep: bool) | FromPost

  class World {
    const c: Config
    const script: nat -> Resolution
    var turn: nat
    var now: real
    var sys: S
    var calls: seq<Call>
    var heard: Heard
    var answers: seq<Polled>
    ghost const start: S

    constructor (c: Config, script: nat -> Resolution, now: real, sys: S)
      ensures this.c == c && this.script == script && this.now == now && this.sys == sys
      ensures start == sys && turn == 0 && calls == [] && answers == []
    {
      this.c, this.script, this.now, this.sys, this.start := c, script, now, sys, sys;
      turn, calls, heard, answers := 0, [], Nothing, [];
    }
  }

  /** Between awaits: the object agrees with the protocol state, whose lock `r` holds in
      the given phase. */
  ghost predicate At(w: World, st: ControllerState, r: Rid, q: Req, phase: Phase)
    reads w, st
  {
    && st.View() == w.sys.book
    && Shared(w, st)
    && r in w.sys.reqs && w.sys.reqs[r] == q && w.sys.lock == Held(r, phase)
  }

  ghost predicate Shared(w: World, st: ControllerState)
    reads w, st
  {
    && ValidConfig(w.c) && Inv(w.c, w.sys) && Reaches(w.c, w.start, w.sys)
    && st.startupReconciled == w.sys.reconciled && st.activeRequests == w.sys.act
  }

  /** The lock has been given up. */
  ghost predicate Over(w: World, st: ControllerState)
    reads w, st
  {
    st.View() == w.sys.book && Shared(w, st) && w.sys.lock.Free?
  }

  /** The alias whose answer the holder is waiting for. */
  function Questioned(phase: Phase): Option<Alias> {
    if phase.Probing? && phase.todo != [] then Some(phase.todo[0])
    else if phase.Transition? then Some(phase.alias)
    else None
  }

  /** An answer or a success enters the history only if the last await brought it. */
  predicate Grounded(s: S, heard: Heard, a: Action) {
    && (a.Answer? ==> s.lock.Held? && heard.FromProbe? && Questioned(s.lock.phase) == Some(heard.m)
                      && heard.asleep == a.asleep)
    && (a.Return? ==> heard.FromPost?)
  }

  /** One step of the protocol by `r`, at the point where the code has done it; what an await
      brought is used once. */
  method Step(w: World, st: ControllerState, r: Rid, a: Action)
    requires ValidConfig(w.c) && Inv(w.c, w.sys) && Reaches(w.c, w.start, w.sys)
    requires Next(w.c, w.sys, r, a).Some? && Grounded(w.sys, w.heard, a)
    modifies w`sys, w`heard
    ensures w.heard == if a.Answer? || a.Return? then Nothing else old(w.heard)
    ensures Some(w.sys) == Next(w.c, old(w.sys), r, a)
    ensures Inv(w.c, w.sys) && Reaches(w.c, w.start, w.sys)
  {
    hide Next, Inv, Reaches, ValidConfig, Grounded;
    StepKeeps(w.c, w.sys, r, a);
    ReachesNext(w.c, w.start, w.sys, r, a);
    w.sys := Next(w.c, w.sys, r, a).value;
    if a.Answer? || a.Return? {
      w.heard := Nothing;
    }
  }

  function Pos(x: real): real { if x > 0.0 then x else 0.0 }

  function Less(x: real, y: real): real { if x < y then x else y }

  function Took(w: World, turn: nat): real { Pos(w.script(turn).took) }

  /** Some await since `from` broke, was cancelled or did not come back. */
  ghost predicate Interrupted(w: World, from: nat)
    reads w`turn
  {
    exists i :: from <= i < w.turn && !w.script(i).outcome.Said?
  }

  lemma InterruptedSooner(w: World, from: nat, sooner: nat)
    requires sooner <= from
    ensures Interrupted(w, from) ==> Interrupted(w, sooner)
  {
  }

  ghost predicate SaidAwake(w: World, from: nat, x: Alias)
    reads w`answers
  {
    exists i :: from <= i < |w.answers| && w.answers[i].m == x && !w.answers[i].asleep
  }

  /** Two aliases have answered since `from` that they are awake. */
  ghost predicate SeveralAwake(w: World, from: nat)
    reads w`answers
  {
    exists x, y :: x != y && SaidAwake(w, from, x) && SaidAwake(w, from, y)
  }

  /** An await of the holder under a time limit: the others act, time passes. A pause lasts
      exactly so long unless it is cancelled or the limit comes first. */
  method Suspend(w: World, st: ControllerState, r: Rid, ghost q: Req, ghost phase: Phase, what: Await,
                 pause: Option<real>, limit: real)
    returns (o: Outcome, effect: bool)
    requires At(w, st, r, q, phase)
    requires pause.Some? ==> pause.value >= 0.0
    modifies w`turn, w`now, w`heard, w`answers, w`sys, st`activeRequests
    ensures At(w, st, r, q, phase) && w.sys.book == old(w.sys.book)
    ensures old(w.now) <= w.now <= old(w.now) + Pos(limit)
    ensures o.Said? ==> w.now < old(w.now) + limit
    ensures w.turn == old(w.turn) + 1 && effect == w.script(old(w.turn)).effect
    ensures pause.None? ==> o == (if Took(w, old(w.turn)) < limit then w.script(old(w.turn)).outcome else TimedOut)
                            && w.now == old(w.now) + Less(Took(w, old(w.turn)), Pos(limit))
    ensures pause.Some? && w.script(old(w.turn)).outcome.Said? ==>
              o.Said? == (pause.value < limit) && w.now == old(w.now) + Less(pause.value, Pos(limit))
    ensures !o.Said? ==> !w.script(old(w.turn)).outcome.Said? || w.now == old(w.now) + Pos(limit)
    ensures w.answers == old(w.answers) + if o.Said? && what.Probe? then [Polled(what.m, o.asleep, old(w.now), w.now)] else []
    ensures w.heard == if o.Said? && what.Probe? then FromProbe(what.m, o.asleep)
                       else if o.Said? && what.Post? then FromPost else Nothing
    ensures pause.Some? ==> w.now <= old(w.now) + pause.value && (o.Said? ==> w.now == old(w.now) + pause.value)
  {
    hide Next, Inv, Reaches;
    var res, asked := w.script(w.turn), w.now;
    w.turn := w.turn + 1;
    OthersKeep(w.c, w.start, w.sys, r, res.others);
    w.sys := Others(w.c, w.sys, r, res.others);
    st.activeRequests := w.sys.act;
    effect := res.effect;
    var took;
    if pause.None? {
      took, o := Pos(res.took), res.outcome;
    } else if res.outcome.Cancelled? {
      took, o := Less(Pos(res.took), pause.value), Cancelled;
    } else {
      took, o := pause.value, Said(false);
    }
    if took < limit {
      w.now := w.now + took;
    } else {
      w.now, o := w.now + Pos(limit), TimedOut;
    }
    w.heard := if o.Said? && what.Probe? then FromProbe(what.m, o.asleep)
               else if o.Said? && what.Post? then FromPost else Nothing;
    if o.Said? && what.Probe? {
      w.answers := w.answers + [Polled(what.m, o.asleep, asked, w.now)];
    }
  }

  // ---------------------------------------------------------------------------
  // What each step of the holder does to the shared state

  /** The holder moves on without touching any request. */
  predicate Moves(s: S, s': S, r: Rid, phase: Phase) {
    && s'.reqs == s.reqs && s'.act == s.act && s'.lock == Held(r, phase)
  }

  /** The holder has failed and given up the lock. */
  predicate Fails(s: S, s': S, r: Rid) {
    && r in s.reqs && s'.lock.Free? && s'.act == s.act && s'.reconciled == s.reconciled
    && s'.reqs == s.reqs[r := s.reqs[r].(stage := Stage.Done, failed := true)]
  }

  lemma AnswerStep(c: Config, s: S, r: Rid, startup: bool, todo: seq<Alias>, seen: seq<Alias>, asleep: bool)
    requires r in s.reqs && s.lock == Held(r, Probing(startup, todo, seen)) && todo != []
    ensures var m := todo[0];
      var s' := Next(c, s, r, Answer(asleep));
      && s'.Some? && s'.value.reconciled == s.reconciled
      && s'.value.book == Answered(s.book, m, asleep)
      && Moves(s, s'.value, r, Probing(startup, todo[1..], if asleep then seen else seen + [m]))
  {
  }

  lemma AbortStep(c: Config, s: S, r: Rid)
    requires r in s.reqs && s.lock.Held? && s.lock.owner == r
    requires (s.lock.phase.Probing? && s.lock.phase.todo != []) || s.lock.phase.Draining?
    ensures var s' := Next(c, s, r, Fail); s'.Some? && Fails(s, s'.value, r) && s'.value.book == s.book
  {
  }

  lemma SettleStep(c: Config, s: S, r: Rid, startup: bool, seen: seq<Alias>)
    requires r in s.reqs && s.lock == Held(r, Probing(startup, [], seen))
    ensures var s' := Next(c, s, r, Settle);
      && s'.Some?
      && (|seen| > 1 ==> Fails(s, s'.value, r) && s'.value.book == MarkedErrors(s.book, seen))
      && (|seen| <= 1 ==>
            && s'.value.book == s.book && s'.value.reconciled == (s.reconciled || startup)
            && Moves(s, s'.value, r, if startup then Probing(false, UnsafeOf(c.names, s.book.states), []) else Deciding))
  {
  }

  // ---------------------------------------------------------------------------
  // Reconciliation

  /** `r` has raised: the lock is free and the request is over. */
  ghost predicate Raised(w: World, st: ControllerState, r: Rid)
    reads w, st
  {
    Over(w, st) && r in w.sys.reqs && w.sys.reqs[r].stage.Done? && w.sys.reqs[r].failed
  }

  /** `observe_sleeping`: one probe inside the deadline. */
  method ObserveSleeping(w: World, st: ControllerState, r: Rid, ghost q: Req, ghost phase: Phase, m: Alias, deadline: real)
    returns (o: Outcome)
    requires At(w, st, r, q, phase) && w.now <= deadline
    modifies w`turn, w`now, w`heard, w`answers, w`sys, st`activeRequests
    ensures At(w, st, r, q, phase)
    ensures o.Said? ==> w.heard == FromProbe(m, o.asleep)
    ensures old(w.now) <= w.now <= deadline
    ensures old(w.turn) <= w.turn && old(w.answers) <= w.answers
    ensures o.Said? && !o.asleep ==> SaidAwake(w, |old(w.answers)|, m)
    ensures !o.Said? ==> Interrupted(w, old(w.turn)) || w.now == deadline
  {
    hide At, SeveralAwake;
    var remaining := deadline - w.now;
    if remaining <= 0.0 {
      return Broke;
    }
    var effect;
    o, effect := Suspend(w, st, r, q, phase, Probe(m), None, remaining);
    assert o.Said? ==> w.answers[|old(w.answers)|].m == m;
  }

  /** The answer of the first alias still to be probed is recorded. */
  method RecordAnswer(w: World, st: ControllerState, r: Rid, ghost q: Req, startup: bool, m: Alias, ghost todo: seq<Alias>,
                      observedAwake: seq<Alias>, asleep: bool)
    returns (nowAwake: seq<Alias>)
    requires At(w, st, r, q, Probing(startup, todo, observedAwake)) && todo != [] && todo[0] == m
    requires w.heard == FromProbe(m, asleep)
    modifies w`sys, w`heard, st
    ensures At(w, st, r, q, Probing(startup, todo[1..], nowAwake))
    ensures nowAwake == if asleep then observedAwake else observedAwake + [m]
    ensures st.startupReconciled == old(st.startupReconciled)
  {
    hide Next, Inv, Reaches, ValidConfig, MarkedSleeping, MarkedAwake;
    AnswerStep(w.c, w.sys, r, startup, todo, observedAwake, asleep);
    nowAwake := observedAwake;
    if asleep {
      var known := st.MarkSleeping(m);
    } else {
      var known := st.MarkAwake(m);
      nowAwake := observedAwake + [m];
    }
    Step(w, st, r, Answer(asleep));
  }

  /** A probe that fails ends the switch. */
  method GiveUp(w: World, st: ControllerState, r: Rid, ghost q: Req, ghost phase: Phase)
    requires At(w, st, r, q, phase)
    requires (phase.Probing? && phase.todo != []) || phase.Draining?
    modifies w`sys, w`heard
    ensures Raised(w, st, r)
  {
    hide Next, Inv, Reaches, ValidConfig;
    AbortStep(w.c, w.sys, r);
    Step(w, st, r, Fail);
  }

  /** The probing loop of either reconciliation. */
  method ProbeAll(w: World, st: ControllerState, r: Rid, ghost q: Req, startup: bool, models: seq<Alias>, deadline: real)
    returns (ok: bool, observedAwake: seq<Alias>)
    requires At(w, st, r, q, Probing(startup, models, [])) && w.now <= deadline
    modifies w`turn, w`now, w`heard, w`answers, w`sys, st
    ensures old(w.now) <= w.now <= deadline
    ensures ok ==> At(w, st, r, q, Probing(startup, [], observedAwake))
    ensures !ok ==> Raised(w, st, r)
    ensures old(w.turn) <= w.turn && old(w.answers) <= w.answers
    ensures !ok ==> Interrupted(w, old(w.turn)) || w.now == deadline
    ensures ok ==> forall x <- observedAwake :: SaidAwake(w, |old(w.answers)|, x)
    ensures st.startupReconciled == old(st.startupReconciled)
  {
    hide At, Raised;
    observedAwake := [];
    var i := 0;
    assert models[0..] == models;
    while i < |models|
      invariant 0 <= i <= |models| && old(w.now) <= w.now <= deadline
      invariant At(w, st, r, q, Probing(startup, models[i..], observedAwake))
      invariant old(w.turn) <= w.turn && old(w.answers) <= w.answers
      invariant forall x <- observedAwake :: SaidAwake(w, |old(w.answers)|, x)
      invariant st.startupReconciled == old(st.startupReconciled)
    {
      var m := models[i];
      var o := ObserveSleeping(w, st, r, q, Probing(startup, models[i..], observedAwake), m, deadline);
      if !o.Said? {
        GiveUp(w, st, r, q, Probing(startup, models[i..], observedAwake));
        return false, [];
      }
      observedAwake := RecordAnswer(w, st, r, q, startup, m, models[i..], observedAwake, o.asleep);
      i := i + 1;
      assert models[i - 1..][1..] == models[i..];
    }
    assert models[i..] == [];
    ok := true;
  }

  /** What follows either loop: several awake aliases are refused. */
  method RefuseSeveral(w: World, st: ControllerState, r: Rid, ghost q: Req, startup: bool, observedAwake: seq<Alias>)
    returns (ok: bool)
    requires At(w, st, r, q, Probing(startup, [], observedAwake))
    modifies w`sys, w`heard, st
    ensures ok <==> |observedAwake| <= 1
    ensures !ok ==> Raised(w, st, r)
    ensures ok ==> At(w, st, r, q, if startup then Probing(false, UnsafeOf(w.c.names, st.modelStates), []) else Deciding)
  {
    hide Next, Inv, Reaches;
    SettleStep(w.c, w.sys, r, startup, observedAwake);
    if |observedAwake| > 1 {
      var i := 0;
      assert observedAwake[0..] == observedAwake;
      while i < |observedAwake|
        invariant 0 <= i <= |observedAwake|
        invariant MarkedErrors(st.View(), observedAwake[i..]) == MarkedErrors(w.sys.book, observedAwake)
        invariant st.startupReconciled == old(st.startupReconciled)
        invariant st.activeRequests == old(st.activeRequests)
        invariant w.sys == old(w.sys)
      {
        var known := st.MarkError(observedAwake[i]);
        assert observedAwake[i..][1..] == observedAwake[i + 1..];
        i := i + 1;
      }
      Step(w, st, r, Settle);
      return false;
    }
    if startup {
      st.startupReconciled := true;
    }
    Step(w, st, r, Settle);
    return true;
  }

  // ---------------------------------------------------------------------------
  // One transition: controller/vllm_client.py

  lemma IssueStep(c: Config, s: S, r: Rid, goal: bool, m: Alias)
    requires r in s.reqs && s.lock == Held(r, Transition(goal, m, Marked))
    ensures var s' := Next(c, s, r, Issue);
      && s'.Some? && s'.value.book == s.book && s'.value.reconciled == s.reconciled
      && Moves(s, s'.value, r, Transition(goal, m, InFlight))
  {
  }

  lemma EffectStep(c: Config, s: S, r: Rid, goal: bool, m: Alias)
    requires r in s.reqs && s.lock == Held(r, Transition(goal, m, InFlight))
    ensures var s' := Next(c, s, r, TakeEffect);
      && s'.Some? && s'.value.book == s.book && s'.value.reconciled == s.reconciled
      && Moves(s, s'.value, r, Transition(goal, m, InFlight))
  {
  }

  lemma ReturnStep(c: Config, s: S, r: Rid, goal: bool, m: Alias)
    requires r in s.reqs && s.lock == Held(r, Transition(goal, m, InFlight))
    ensures var s' := Next(c, s, r, Return);
      && s'.Some? && s'.value.book == s.book && s'.value.reconciled == s.reconciled
      && Moves(s, s'.value, r, Transition(goal, m, Verifying))
  {
  }

  lemma NotYetStep(c: Config, s: S, r: Rid, goal: bool, m: Alias)
    requires r in s.reqs && s.lock == Held(r, Transition(goal, m, Verifying))
    ensures var s' := Next(c, s, r, Answer(!goal));
      && s'.Some? && s'.value.book == s.book && s'.value.reconciled == s.reconciled
      && Moves(s, s'.value, r, Transition(goal, m, Verifying))
  {
  }

  /** How many polls fit into the remaining time. */
  function Polls(remaining: real, poll: real): nat
    requires poll > 0.0
  {
    if remaining <= 0.0 then 0 else (remaining / poll).Floor + 1
  }

  lemma QuotientDrops(before: real, after: real, poll: real)
    requires poll > 0.0 && after <= before - poll
    ensures after / poll <= before / poll - 1.0
  {
    var b, a := before / poll, after / poll;
    assert b * poll == before && a * poll == after;
    assert (b - 1.0 - a) * poll == before - poll - after;
    Sign(b - 1.0 - a, poll);
  }

  lemma Sign(x: real, p: real)
    requires p > 0.0 && x * p >= 0.0
    ensures x >= 0.0
  {
  }

  lemma OnePollLess(before: real, after: real, poll: real)
    requires poll > 0.0 && before > 0.0 && after <= before - Less(poll, before)
    ensures Polls(after, poll) < Polls(before, poll)
  {
    if after > 0.0 {
      QuotientDrops(before, after, poll);
    }
  }

  /** One poll after the other: each starts one pause after the answer before it, and only the
      last answer may be the expected one. */
  ghost predicate Paced(replies: seq<Polled>, m: Alias, expected: bool, poll: real) {
    && (forall i :: 0 <= i < |replies| ==> replies[i].m == m)
    && (forall i :: 0 < i < |replies| ==> replies[i].asked == replies[i - 1].at + poll)
    && (forall i :: 0 <= i < |replies| - 1 ==> replies[i].asleep != expected)
  }

  /** When the poll after `replies` is due. */
  function NextPoll(replies: seq<Polled>, began: real, poll: real): real {
    if replies == [] then began else replies[|replies| - 1].at + poll
  }

  /** The polling that began at `began` had to go beyond `limit`: the next poll was not due
      before it, or was not answered before it. */
  ghost predicate OutOfTime(w: World, replies: seq<Polled>, began: real, expected: bool, poll: real, limit: real)
    reads w`turn
  {
    && (replies != [] ==> replies[|replies| - 1].asleep != expected)
    && (NextPoll(replies, began, poll) >= limit
        || (w.turn > 0 && Took(w, w.turn - 1) >= limit - NextPoll(replies, began, poll)))
  }

  /** `wait_until_sleeping`: polls until the backend answers as expected. It ends by its own
      deadline and by that of its caller; it succeeds on the expected answer and on no other;
      and it fails only if a poll fails or the polling goes beyond the earlier deadline. */
  method WaitUntilSleeping(w: World, st: ControllerState, r: Rid, ghost q: Req, m: Alias, expected: bool,
                           timeout: real, poll: real, outer: real)
    returns (ok: bool, ghost replies: seq<Polled>)
    requires At(w, st, r, q, Transition(expected, m, Verifying)) && poll > 0.0 && w.now <= outer
    modifies w`turn, w`now, w`heard, w`answers, w`sys, st`activeRequests
    ensures At(w, st, r, q, Transition(expected, m, Verifying))
    ensures old(w.now) <= w.now <= Less(outer, old(w.now) + Pos(timeout))
    ensures ok ==> w.heard == FromProbe(m, expected)
    ensures old(w.turn) <= w.turn && w.answers == old(w.answers) + replies && Paced(replies, m, expected, poll)
    ensures replies != [] ==> replies[0].asked == old(w.now)
    ensures !ok ==> Interrupted(w, old(w.turn)) ||
                    (w.now == Less(outer, old(w.now) + Pos(timeout))
                     && OutOfTime(w, replies, old(w.now), expected, poll, w.now))
  {
    hide At, Paced, Polls, SaidAwake, SeveralAwake;
    PacedNone(m, expected, poll);
    var deadline := w.now + timeout;
    ghost var limit := Less(outer, w.now + Pos(timeout));
    replies := [];
    while true
      invariant At(w, st, r, q, Transition(expected, m, Verifying))
      invariant old(w.now) <= w.now <= limit && old(w.turn) <= w.turn
      invariant w.answers == old(w.answers) + replies && Paced(replies, m, expected, poll)
      invariant replies != [] ==> replies[0].asked == old(w.now) && replies[|replies| - 1].asleep != expected
      invariant w.now == NextPoll(replies, old(w.now), poll)
                || (w.now == limit && NextPoll(replies, old(w.now), poll) >= limit)
      decreases Polls(deadline - w.now, poll)
    {
      ghost var before := deadline - w.now;
      var remaining := deadline - w.now;
      if remaining <= 0.0 {
        return false, replies;
      }
      ghost var asked := w.now;
      var last, effect := Suspend(w, st, r, q, Transition(expected, m, Verifying), Probe(m), None, Less(remaining, outer - w.now));
      if !last.Said? {
        return false, replies;
      }
      PacedOne(replies, Polled(m, last.asleep, asked, w.now), m, expected, poll);
      replies := replies + [Polled(m, last.asleep, asked, w.now)];
      if last.asleep == expected {
        return true, replies;
      }
      PollAgain(w, st, r, q, m, expected);
      remaining := deadline - w.now;
      if remaining <= 0.0 {
        return false, replies;
      }
      var pause := Less(poll, remaining);
      last, effect := Suspend(w, st, r, q, Transition(expected, m, Verifying), Wait, Some(pause), outer - w.now);
      if !last.Said? {
        return false, replies;
      }
      OnePollLess(before, deadline - w.now, poll);
    }
  }

  lemma PacedNone(m: Alias, expected: bool, poll: real)
    ensures Paced([], m, expected, poll)
  {
  }

  lemma PacedOne(replies: seq<Polled>, next: Polled, m: Alias, expected: bool, poll: real)
    requires Paced(replies, m, expected, poll) && next.m == m
    requires replies != [] ==> next.asked == replies[|replies| - 1].at + poll && replies[|replies| - 1].asleep != expected
    ensures Paced(replies + [next], m, expected, poll)
  {
  }

  /** The backend has not changed yet. */
  method PollAgain(w: World, st: ControllerState, r: Rid, ghost q: Req, m: Alias, expected: bool)
    requires At(w, st, r, q, Transition(expected, m, Verifying)) && w.heard == FromProbe(m, !expected)
    modifies w`sys, w`heard
    ensures At(w, st, r, q, Transition(expected, m, Verifying))
  {
    hide Next, Inv, Reaches, ValidConfig;
    NotYetStep(w.c, w.sys, r, expected, m);
    Step(w, st, r, Answer(!expected));
  }

  const POLL_INTERVAL_S := 0.1

  /** The POST of a transition and what its await brings. */
  method Deliver(w: World, st: ControllerState, r: Rid, ghost q: Req, goal: bool, m: Alias, timeout: real)
    returns (delivered: bool, ghost progress: Progress)
    requires At(w, st, r, q, Transition(goal, m, Marked)) && timeout > 0.0
    modifies w`turn, w`now, w`heard, w`answers, w`sys, w`calls, st`activeRequests
    ensures At(w, st, r, q, Transition(goal, m, progress)) && (delivered ==> progress == Verifying)
    ensures w.calls == old(w.calls) + [Call(goal, m, old(w.now))] && w.answers == old(w.answers)
    ensures w.turn == old(w.turn) + 1 && old(w.now) <= w.now <= old(w.now) + timeout
    ensures delivered <==> w.script(old(w.turn)).outcome.Said? && Took(w, old(w.turn)) < timeout
    ensures Took(w, old(w.turn)) < timeout ==> w.now == old(w.now) + Took(w, old(w.turn))
    ensures !delivered && w.script(old(w.turn)).outcome.Said? ==> w.now == old(w.now) + timeout
  {
    hide Next, Inv, Reaches, ValidConfig;
    IssueStep(w.c, w.sys, r, goal, m);
    Step(w, st, r, Issue);
    w.calls := w.calls + [Call(goal, m, w.now)];
    progress := InFlight;
    var o, effect := Suspend(w, st, r, q, Transition(goal, m, InFlight), Post, None, timeout);
    if effect {
      EffectStep(w.c, w.sys, r, goal, m);
      Step(w, st, r, TakeEffect);
    }
    delivered := o.Said?;
    if delivered {
      ReturnStep(w.c, w.sys, r, goal, m);
      Step(w, st, r, Return);
      progress := Verifying;
    }
  }

  /** `_transition_and_wait`: the POST and its verified post-condition under one deadline. It
      fails only if an await does, if the POST outlasts the deadline, or if the polling does. */
  method TransitionAndWait(w: World, st: ControllerState, r: Rid, ghost q: Req, goal: bool, m: Alias, timeout: real)
    returns (ok: bool, ghost progress: Progress, ghost replies: seq<Polled>)
    requires At(w, st, r, q, Transition(goal, m, Marked)) && timeout > 0.0
    modifies w`turn, w`now, w`heard, w`answers, w`sys, w`calls, st`activeRequests
    ensures At(w, st, r, q, Transition(goal, m, progress))
    ensures ok ==> progress == Verifying && w.heard == FromProbe(m, goal)
    ensures old(w.now) <= w.now <= old(w.now) + timeout
    ensures w.calls == old(w.calls) + [Call(goal, m, old(w.now))]
    ensures old(w.turn) < w.turn && w.answers == old(w.answers) + replies && Paced(replies, m, goal, POLL_INTERVAL_S)
    ensures !ok ==> Interrupted(w, old(w.turn)) ||
                    (w.now == old(w.now) + timeout &&
                     (Took(w, old(w.turn)) >= timeout
                      || OutOfTime(w, replies, old(w.now) + Took(w, old(w.turn)), goal, POLL_INTERVAL_S, w.now)))
  {
    hide At, Paced, OutOfTime, SaidAwake, SeveralAwake, Polls;
    replies := [];
    PacedNone(m, goal, POLL_INTERVAL_S);
    var outer := w.now + timeout;
    ok, progress := Deliver(w, st, r, q, goal, m, timeout);
    if ok {
      ok, replies := WaitUntilSleeping(w, st, r, q, m, goal, timeout, POLL_INTERVAL_S, outer);
    }
  }

  // ---------------------------------------------------------------------------
  // The switch

  lemma FailTransitionStep(c: Config, s: S, r: Rid, goal: bool, m: Alias, progress: Progress)
    requires r in s.reqs && s.lock == Held(r, Transition(goal, m, progress))
    ensures var s' := Next(c, s, r, Fail);
      s'.Some? && Fails(s, s'.value, r) && s'.value.book == MarkedError(s.book, m)
  {
  }

  /** `ensure_model_ready_locked` is about to return: an admin switch is over, a proxied
      request goes on to its reservation. */
  predicate Readies(s: S, s': S, r: Rid) {
    && r in s.reqs && s'.act == s.act && s'.reconciled == s.reconciled
    && if s.reqs[r].kind.Admin?
       then s'.lock.Free? && s'.reqs == s.reqs[r := s.reqs[r].(stage := Stage.Done, failed := false)]
       else s'.reqs == s.reqs && s'.lock == Held(r, Entering(false))
  }

  lemma ChooseStep(c: Config, s: S, r: Rid)
    requires r in s.reqs && s.lock == Held(r, Deciding) && s.reqs[r].target in s.book.states
    ensures var s' := Next(c, s, r, Choose);
      var t := s.reqs[r].target;
      var d := Decide(s.book.active, t, s.book.states).value;
      && s'.Some? && s'.value.reconciled == s.reconciled
      && (d.sleep == [] && d.wake == None ==> Readies(s, s'.value, r) && s'.value.book == s.book)
      && (d.sleep == [] && d.wake != None ==>
            Moves(s, s'.value, r, Transition(false, t, Marked)) && s'.value.book == MarkedWaking(s.book, t))
      && (d.sleep != [] ==> Moves(s, s'.value, r, Draining(d.sleep[0])) && s'.value.book == s.book)
  {
  }

  lemma DrainedStep(c: Config, s: S, r: Rid, p: Alias)
    requires r in s.reqs && s.lock == Held(r, Draining(p)) && OthersDrained(s.act, s.reqs[r].target)
    ensures var s' := Next(c, s, r, Drained);
      && s'.Some? && s'.value.reconciled == s.reconciled && s'.value.book == MarkedSleepingInProgress(s.book, p)
      && Moves(s, s'.value, r, Transition(true, p, Marked))
  {
  }

  lemma AsleepStep(c: Config, s: S, r: Rid, p: Alias)
    requires r in s.reqs && s.lock == Held(r, Transition(true, p, Verifying))
    ensures var s' := Next(c, s, r, Answer(true));
      var t := s.reqs[r].target;
      && s'.Some? && s'.value.reconciled == s.reconciled
      && s'.value.book == MarkedWaking(MarkedSleeping(s.book, p), t)
      && Moves(s, s'.value, r, Transition(false, t, Marked))
  {
  }

  lemma AwakeStep(c: Config, s: S, r: Rid, t: Alias)
    requires r in s.reqs && s.lock == Held(r, Transition(false, t, Verifying))
    ensures var s' := Next(c, s, r, Answer(false));
      s'.Some? && Readies(s, s'.value, r) && s'.value.book == MarkedAwake(s.book, t)
  {
  }

  lemma DecidingMeans(c: Config, s: S, r: Rid)
    requires Inv(c, s) && r in s.reqs && s.lock == Held(r, Deciding)
    ensures s.reconciled && s.reqs[r].target in s.book.states
  {
  }

  lemma WakingMeans(c: Config, s: S, r: Rid, t: Alias)
    requires Inv(c, s) && r in s.reqs && s.lock.Held? && s.lock.owner == r
    requires s.lock.phase.Transition? && !s.lock.phase.asleep && s.lock.phase.alias == t
    ensures s.reconciled && t in s.book.states
  {
  }

  lemma ReadyMeans(c: Config, s: S, r: Rid)
    requires Inv(c, s) && s.reconciled && r in s.reqs
    requires s.lock.Free? || s.lock == Held(r, Entering(false))
    requires s.book.active.Some? && s.book.active.value in s.book.states && s.book.states[s.book.active.value].Awake?
    ensures forall x <- c.names :: x in s.book.states &&
              s.book.states[x] == if s.book.active == Some(x) then Awake else Sleeping
  {
  }

  /** The contract of success: the target awake and active, all others asleep. */
  ghost predicate Succeeded(w: World, st: ControllerState, r: Rid, q: Req, target: Alias)
    reads w, st
  {
    && Shared(w, st) && st.View() == w.sys.book
    && st.activeModel == Some(target)
    && (forall x <- w.c.names :: x in st.modelStates && st.modelStates[x] == if x == target then Awake else Sleeping)
    && r in w.sys.reqs && w.sys.reqs[r].kind == q.kind
    && if q.kind.Admin? then w.sys.lock.Free? && w.sys.reqs[r].stage.Done? && !w.sys.reqs[r].failed
       else w.sys.lock == Held(r, Entering(false))
  }

  // Marks and steps between two awaits.

  lemma PhaseKnown(c: Config, s: S, r: Rid, m: Alias)
    requires Inv(c, s) && r in s.reqs && s.lock.Held? && s.lock.owner == r
    requires s.lock.phase.Transition? && s.lock.phase.alias == m
    ensures m in s.book.states
  {
  }

  /** An exception inside a transition marks the alias. */
  method FailMarked(w: World, st: ControllerState, r: Rid, ghost q: Req, goal: bool, m: Alias, ghost progress: Progress)
    requires At(w, st, r, q, Transition(goal, m, progress))
    modifies w`sys, w`heard, st
    ensures Raised(w, st, r)
    ensures m in st.modelStates && st.modelStates[m].Error?
  {
    hide Next, Inv, Reaches, ValidConfig;
    PhaseKnown(w.c, w.sys, r, m);
    FailTransitionStep(w.c, w.sys, r, goal, m, progress);
    var known := st.MarkError(m);
    Step(w, st, r, Fail);
  }

  method MarkDrained(w: World, st: ControllerState, r: Rid, ghost q: Req, prev: Alias)
    requires At(w, st, r, q, Draining(prev)) && OthersDrained(st.activeRequests, q.target)
    modifies w`sys, w`heard, st
    ensures At(w, st, r, q, Transition(true, prev, Marked))
  {
    hide Next, Inv, Reaches, ValidConfig, OthersDrained, MarkedSleepingInProgress;
    DrainedStep(w.c, w.sys, r, prev);
    var known := st.MarkSleepingInProgress(prev);
    Step(w, st, r, Action.Drained);
  }

  method MarkAsleep(w: World, st: ControllerState, r: Rid, ghost q: Req, prev: Alias, target: Alias)
    requires At(w, st, r, q, Transition(true, prev, Verifying)) && q.target == target
    requires w.heard == FromProbe(prev, true)
    modifies w`sys, w`heard, st
    ensures At(w, st, r, q, Transition(false, target, Marked))
  {
    hide Next, Inv, Reaches, ValidConfig, MarkedSleeping, MarkedWaking;
    AsleepStep(w.c, w.sys, r, prev);
    var known := st.MarkSleeping(prev);
    known := st.MarkWaking(target);
    Step(w, st, r, Answer(true));
  }

  lemma MarkedAwakeMeans(b: Book, m: Alias)
    requires m in b.states
    ensures var b' := MarkedAwake(b, m); b'.active == Some(m) && m in b'.states && b'.states[m].Awake?
  {
  }

  method MarkReady(w: World, st: ControllerState, r: Rid, ghost q: Req, target: Alias)
    requires At(w, st, r, q, Transition(false, target, Verifying)) && w.heard == FromProbe(target, false)
    modifies w`sys, w`heard, st
    ensures Succeeded(w, st, r, q, target)
  {
    hide Next, Inv, Reaches, ValidConfig, MarkedAwake;
    WakingMeans(w.c, w.sys, r, target);
    AwakeStep(w.c, w.sys, r, target);
    MarkedAwakeMeans(w.sys.book, target);
    var known := st.MarkAwake(target);
    Step(w, st, r, Answer(false));
    ReadyMeans(w.c, w.sys, r);
  }

  /** What the policy's decision leads to. */
  method ApplyPolicy(w: World, st: ControllerState, r: Rid, ghost q: Req, target: Alias) returns (d: Decision)
    requires At(w, st, r, q, Deciding) && q.target == target
    modifies w`sys, w`heard, st
    ensures d.sleep == [] && d.wake == None ==> Succeeded(w, st, r, q, target)
    ensures d.sleep == [] && d.wake != None ==> At(w, st, r, q, Transition(false, target, Marked)) && d.wake == Some(target)
    ensures d.sleep != [] ==> At(w, st, r, q, Draining(d.sleep[0])) && d.sleep[0] != target
    ensures d.sleep != [] ==> Some(d.sleep[0]) == old(st.activeModel) && d.wake == Some(target)
    ensures d.drain <==> d.sleep != []
  {
    hide Next, Inv, Reaches, ValidConfig, MarkedWaking, Decide;
    DecidingMeans(w.c, w.sys, r);
    DecideMeans(w.sys.book.active, target, w.sys.book.states);
    ChooseStep(w.c, w.sys, r);
    d := Decide(st.activeModel, target, st.modelStates).value;
    if d.sleep == [] && d.wake != None {
      var known := st.MarkWaking(d.wake.value);
    }
    Step(w, st, r, Choose);
    if d.sleep == [] && d.wake == None {
      ReadyMeans(w.c, w.sys, r);
    }
  }

  // The awaits in order.

  /** The wait for the other reservations, inside the deadline. */
  method Drain(w: World, st: ControllerState, r: Rid, ghost q: Req, prev: Alias, target: Alias, deadline: real)
    returns (ok: bool)
    requires At(w, st, r, q, Draining(prev)) && q.target == target && w.now <= deadline
    modifies w`turn, w`now, w`heard, w`answers, w`sys, st`activeRequests
    ensures old(w.now) <= w.now <= deadline
    ensures ok ==> At(w, st, r, q, Draining(prev)) && OthersDrained(st.activeRequests, target)
    ensures ok ==> forall m <- st.activeRequests :: m != target ==> st.activeRequests[m] == 0
    ensures !ok ==> Raised(w, st, r)
    ensures old(w.turn) <= w.turn && old(w.answers) <= w.answers && st.startupReconciled == old(st.startupReconciled)
    ensures !ok ==> Interrupted(w, old(w.turn)) ||
                    (w.now == deadline
                     && ((exists m <- st.activeRequests :: m != target && st.activeRequests[m] != 0)
                         || Took(w, old(w.turn)) >= deadline - old(w.now)))
  {
    hide Next, Inv, Reaches, ValidConfig;
    var remaining := deadline - w.now;
    if remaining > 0.0 {
      var o, effect := Suspend(w, st, r, q, Draining(prev), Wait, None, remaining);
      if o.Said? {
        if OthersDrained(st.activeRequests, target) {
          return true;
        }
        w.now := deadline; // the condition is still awaited when the limit comes
      }
    }
    GiveUp(w, st, r, q, Draining(prev));
    return false;
  }

  /** The guarded part of one transition. */
  method Attempt(w: World, st: ControllerState, r: Rid, ghost q: Req, goal: bool, m: Alias, deadline: real)
    returns (ok: bool)
    requires At(w, st, r, q, Transition(goal, m, Marked)) && w.now <= deadline
    modifies w`turn, w`now, w`heard, w`answers, w`sys, w`calls, st
    ensures old(w.now) <= w.now <= deadline
    ensures ok ==> At(w, st, r, q, Transition(goal, m, Verifying)) && w.heard == FromProbe(m, goal)
    ensures !ok ==> Raised(w, st, r) && m in st.modelStates && st.modelStates[m].Error?
    ensures w.calls == old(w.calls) + if old(w.now) < deadline then [Call(goal, m, old(w.now))] else []
    ensures old(w.turn) <= w.turn && old(w.answers) <= w.answers
    ensures !ok ==> Interrupted(w, old(w.turn)) || w.now == deadline
  {
    hide *;
    var remaining := deadline - w.now;
    ghost var progress := Marked;
    ok := false;
    if remaining > 0.0 {
      ghost var replies;
      ok, progress, replies := TransitionAndWait(w, st, r, q, goal, m, remaining);
    }
    if !ok {
      FailMarked(w, st, r, q, goal, m, progress);
    }
  }

  lemma SeenDiffer(c: Config, s: S, r: Rid, seen: seq<Alias>)
    requires Inv(c, s) && s.lock == Held(r, Probing(true, [], seen))
    ensures |seen| > 1 ==> seen[0] != seen[1]
  {
  }

  /** The second reconciliation never sees two. */
  lemma SeenOnce(c: Config, s: S, r: Rid, seen: seq<Alias>)
    requires Inv(c, s) && s.lock == Held(r, Probing(false, [], seen))
    ensures |seen| <= 1
  {
  }

  /** Both reconciliations. */
  method Reconcile(w: World, st: ControllerState, r: Rid, ghost q: Req, deadline: real) returns (ok: bool)
    requires At(w, st, r, q, FirstPhase(w.c, w.sys)) && w.now <= deadline
    modifies w`turn, w`now, w`heard, w`answers, w`sys, st
    ensures old(w.now) <= w.now <= deadline
    ensures ok ==> At(w, st, r, q, Deciding)
    ensures !ok ==> Raised(w, st, r)
    ensures old(w.turn) <= w.turn && old(w.answers) <= w.answers
    ensures !ok ==> Interrupted(w, old(w.turn)) || w.now == deadline
                    || (!old(st.startupReconciled) && SeveralAwake(w, |old(w.answers)|))
  {
    hide Next, Inv, Reaches, ValidConfig, UnsafeOf, SaidAwake;
    var observedAwake;
    if !st.startupReconciled {
      ok, observedAwake := ProbeAll(w, st, r, q, true, w.c.names, deadline);
      if !ok { return; }
      SeenDiffer(w.c, w.sys, r, observedAwake);
      assert |observedAwake| > 1 ==> observedAwake[0] in observedAwake && observedAwake[1] in observedAwake;
      ok := RefuseSeveral(w, st, r, q, true, observedAwake);
      if !ok { return; }
    }
    var unsafeModels := UnsafeOf(w.c.names, st.modelStates);
    ok, observedAwake := ProbeAll(w, st, r, q, false, unsafeModels, deadline);
    if !ok { return; }
    SeenOnce(w.c, w.sys, r, observedAwake);
    ok := RefuseSeveral(w, st, r, q, false, observedAwake);
  }

  /** Drain, then put the previous model to sleep; the target is then marked waking. */
  method SleepPrevious(w: World, st: ControllerState, r: Rid, ghost q: Req, prev: Alias, target: Alias, deadline: real)
    returns (ok: bool)
    requires At(w, st, r, q, Draining(prev)) && q.target == target && w.now <= deadline
    modifies w`turn, w`now, w`heard, w`answers, w`sys, w`calls, st
    ensures old(w.now) <= w.now <= deadline
    ensures ok ==> At(w, st, r, q, Transition(false, target, Marked))
    ensures !ok ==> Raised(w, st, r)
    ensures w.calls == old(w.calls) || exists at :: at < deadline && w.calls == old(w.calls) + [Call(true, prev, at)]
    ensures old(w.turn) <= w.turn && old(w.answers) <= w.answers
    ensures !ok ==> Interrupted(w, old(w.turn)) || w.now == deadline
  {
    hide *;
    ok := Drain(w, st, r, q, prev, target, deadline);
    if ok {
      MarkDrained(w, st, r, q, prev);
      ghost var at, between := w.now, w.turn;
      ok := Attempt(w, st, r, q, true, prev, deadline);
      InterruptedSooner(w, between, old(w.turn));
      assert at < deadline ==> w.calls == old(w.calls) + [Call(true, prev, at)];
      if ok {
        MarkAsleep(w, st, r, q, prev, target);
      }
    }
  }

  /** The calls of one switch: at most one sleep, of another alias, then at most one wake, of
      the target, each issued before the deadline. */
  predicate OneSwitch(calls: seq<Call>, target: Alias, deadline: real) {
    && |calls| <= 2
    && (forall i :: 0 <= i < |calls| ==> calls[i].at < deadline)
    && (forall i :: 0 <= i < |calls| && calls[i].asleep ==> i == 0 && calls[i].m != target)
    && (forall i :: 0 <= i < |calls| && !calls[i].asleep ==> i == |calls| - 1 && calls[i].m == target)
  }

  /** `ensure_model_ready_locked`: whatever its awaits do, it is a run of the protocol
      (`Shared` says so), it either meets the contract or fails closed, it ends by one
      deadline, and it issues its few lifecycle calls before that deadline. It fails only for a
      cause: an await that broke or was cancelled, the deadline, or several awake backends at
      startup. */
  method EnsureModelReadyLocked(w: World, st: ControllerState, r: Rid, ghost q: Req, target: Alias, switchTimeout: real)
    returns (ready: bool)
    requires switchTimeout > 0.0
    requires At(w, st, r, q, FirstPhase(w.c, w.sys)) && q.target == target
    modifies w`turn, w`now, w`heard, w`answers, w`sys, w`calls, st
    ensures ready ==> Succeeded(w, st, r, q, target)
    ensures !ready ==> Raised(w, st, r)
    ensures old(w.now) <= w.now <= old(w.now) + switchTimeout
    ensures !ready ==> Interrupted(w, old(w.turn)) || w.now == old(w.now) + switchTimeout
                       || (!old(st.startupReconciled) && SeveralAwake(w, |old(w.answers)|))
    ensures exists more :: w.calls == old(w.calls) + more && OneSwitch(more, target, old(w.now) + switchTimeout)
  {
    hide Next, Inv, Reaches, ValidConfig, At, Raised, Succeeded, FirstPhase;
    var deadline := w.now + switchTimeout;
    ghost var more := [];
    assert w.calls == old(w.calls) + more;
    ready := Reconcile(w, st, r, q, deadline);
    if !ready { return; }
    var d := ApplyPolicy(w, st, r, q, target);
    if d.sleep == [] && d.wake == None { return; }
    var wake := d.wake.value;
    if d.drain {
      ready := SleepPrevious(w, st, r, q, d.sleep[0], wake, deadline);
      more := w.calls[|old(w.calls)|..];
      assert w.calls == old(w.calls) + more;
      if !ready { return; }
    }
    ghost var before := w.now;
    ready := Attempt(w, st, r, q, false, wake, deadline);
    more := more + if before < deadline then [Call(false, wake, before)] else [];
    assert w.calls == old(w.calls) + more;
    if ready {
      MarkReady(w, st, r, q, wake);
    }
  }

  // ---------------------------------------------------------------------------
  // From the configured start, one switch after the other

  /** The controller as it starts. */
  method Boot(c: Config, script: nat -> Resolution, now: real) returns (w: World, st: ControllerState)
    requires ValidConfig(c)
    ensures fresh(w) && fresh(st) && Over(w, st)
    ensures w.c == c && w.now == now && w.calls == [] && w.sys == Init(c)
  {
    hide Reaches, Run;
    st := new ControllerState(c.names, c.startup);
    w := new World(c, script, now, Init(c));
    InitInv(c);
    ReachesSelf(c, Init(c));
  }

  lemma ArriveStep(c: Config, s: S, r: Rid, target: Alias)
    requires Inv(c, s) && s.lock.Free? && r !in s.reqs
    ensures target in s.book.states <==> target in c.names
    ensures var s' := Next(c, s, r, Arrive(Admin, target));
      && s'.Some? && s'.value.book == s.book && s'.value.reconciled == s.reconciled && s'.value.act == s.act
      && s'.value.lock.Free? && r in s'.value.reqs && s'.value.reqs[r].target == target && s'.value.reqs[r].kind.Admin?
      && if target in c.names then s'.value.reqs[r].stage.Waiting?
         else s'.value.reqs[r].stage.Done? && s'.value.reqs[r].failed
  {
  }

  lemma AcquireStep(c: Config, s: S, r: Rid)
    requires s.lock.Free? && r in s.reqs && s.reqs[r].stage.Waiting?
    ensures var s' := Next(c, s, r, Acquire);
      && s'.Some? && s'.value.book == s.book && s'.value.reconciled == s.reconciled && s'.value.act == s.act
      && s'.value.lock == Held(r, FirstPhase(c, s'.value))
      && r in s'.value.reqs && s'.value.reqs[r] == s.reqs[r].(stage := Locked)
  {
  }

  datatype Switched = UnknownModel | NotReady | IsReady

  /** `ensure_model_ready` of an admin switch that finds the lock free: an unknown alias takes no
      lock and touches nothing; otherwise the switch succeeds or fails closed, and the lock is
      free again by the deadline. */
  method EnsureModelReady(w: World, st: ControllerState, r: Rid, target: Alias, switchTimeout: real)
    returns (res: Switched)
    requires Over(w, st) && r !in w.sys.reqs && switchTimeout > 0.0
    modifies w`turn, w`now, w`heard, w`answers, w`sys, w`calls, st
    ensures Over(w, st)
    ensures res.UnknownModel? <==> target !in w.c.names
    ensures res.UnknownModel? ==> st.View() == old(st.View()) && w.now == old(w.now) && w.calls == old(w.calls)
    ensures res.IsReady? ==> r in w.sys.reqs && Succeeded(w, st, r, w.sys.reqs[r], target)
    ensures !res.IsReady? ==> Raised(w, st, r)
    ensures old(w.now) <= w.now <= old(w.now) + switchTimeout
    ensures res.NotReady? ==> Interrupted(w, old(w.turn)) || w.now == old(w.now) + switchTimeout
                              || (!old(st.startupReconciled) && SeveralAwake(w, |old(w.answers)|))
    ensures exists more :: w.calls == old(w.calls) + more && OneSwitch(more, target, old(w.now) + switchTimeout)
  {
    hide Next, Inv, Reaches, ValidConfig, FirstPhase;
    ghost var none: seq<Call> := [];
    assert w.calls == old(w.calls) + none && OneSwitch(none, target, old(w.now) + switchTimeout);
    ArriveStep(w.c, w.sys, r, target);
    Step(w, st, r, Arrive(Admin, target));
    if target !in st.modelStates {
      return UnknownModel;
    }
    AcquireStep(w.c, w.sys, r);
    Step(w, st, r, Acquire);
    var ready := EnsureModelReadyLocked(w, st, r, w.sys.reqs[r], target, switchTimeout);
    res := if ready then IsReady else NotReady;
  }
}
