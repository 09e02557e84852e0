/** The coordinator and one worker process as docs/cpu_backup_coordinator.md describes them,
    within one controller epoch, over channels that lose, repeat and reorder poll replies and
    usage reports. Everything else the controller does meanwhile is any `Op`. */
module BackupWorker {
  import opened Wrappers
  import opened BackupLedger
  import opened BackupAllocator
  import opened BackupRuns

  /** The answer to a poll. */
  datatype Reply = Reply(requested: int, pending: int)

  datatype Worker = Worker(
    seen: int,       // the largest command total heard in this epoch
    executed: int,   // bytes it has taken on because of commands, all told
    owed: int,       // of these, not freed yet
    counter: int)    // released_bytes_total

  /** Messages stay on their channel, so one may arrive never, once or often, in any order;
      reports are numbered as they were sent. */
  datatype World = World(
    pool: Pool,
    worker: Worker,
    replies: set<Reply>,
    reports: seq<Report>,
    first: Option<int>,  // released_bytes_total of the first accepted report
    latest: Option<nat>) // the number of the report that arrived last

  datatype Step =
    | Controller(op: Op)           // anything but a report in this worker's name
    | Poll                         // the controller answers a poll
    | Hear(reply: Reply)           // a reply arrives
    | Free(n: int)                 // the worker frees bytes it owes
    | FreeUnasked(n: int)          // its storage falls for another reason
    | Send(rep: Report)            // it reports its usage
    | Arrive(k: nat, now: real)    // the k-th report arrives

  function Start(counter: int): World {
    World(EMPTY, Worker(0, 0, 0, counter), {}, [], None, None)
  }

  /** What the controller answers: reading the record changes nothing. */
  function Answer(p: Pool, me: Id): Reply {
    Reply(RecordOf(p, me).requested, RecordOf(p, me).pending)
  }

  /** The worker executes the part of the total it has not seen. */
  function Heard(k: Worker, reply: Reply): Worker {
    if reply.requested <= k.seen then k
    else
      var delta := reply.requested - k.seen;
      k.(seen := reply.requested, executed := k.executed + delta, owed := k.owed + delta)
  }

  predicate Enabled(me: Id, w: World, step: Step) {
    match step
    case Controller(op) => !(op.Post? && op.id == me) && (op.Post? ==> AccountingValid(op.rep))
    case Poll => true
    case Hear(reply) => reply in w.replies
    case Free(n) => 0 < n <= w.worker.owed
    case FreeUnasked(n) => 0 < n
    case Send(rep) => SchemaValid(rep) && rep.released == Some(w.worker.counter)
    case Arrive(k, _) => k < |w.reports|
  }

  function Arrived(cfg: Settings, me: Id, w: World, k: nat, now: real): World
    requires k < |w.reports|
  {
    var op := Post(me, w.reports[k], now);
    w.(pool := Apply(cfg, w.pool, op), latest := Some(k),
       first := if w.first.None? && Accepted(w.pool, op, me) then w.reports[k].released else w.first)
  }

  function Do(cfg: Settings, me: Id, w: World, step: Step): World {
    if !Enabled(me, w, step) then w
    else
      match step
      case Controller(op) => w.(pool := Apply(cfg, w.pool, op))
      case Poll => w.(replies := w.replies + {Answer(w.pool, me)})
      case Hear(reply) => w.(worker := Heard(w.worker, reply))
      case Free(n) => w.(worker := w.worker.(owed := w.worker.owed - n, counter := w.worker.counter + n))
      case FreeUnasked(n) => w.(worker := w.worker.(counter := w.worker.counter + n))
      case Send(rep) => w.(reports := w.reports + [rep])
      case Arrive(k, now) => Arrived(cfg, me, w, k, now)
  }

  function Front(steps: seq<Step>): seq<Step>
    requires steps != []
  {
    steps[..|steps| - 1]
  }

  function Reached(cfg: Settings, me: Id, counter: int, steps: seq<Step>): World {
    if steps == [] then Start(counter)
    else Do(cfg, me, Reached(cfg, me, counter, Front(steps)), steps[|steps| - 1])
  }

  // ---------------------------------------------------------------------------
  // What holds for any worker

  /** Commands: what was heard was said, and executing follows the largest total heard. */
  predicate CommandsOk(me: Id, w: World) {
    var k := w.worker;
    && k.executed == k.seen && 0 <= k.owed <= k.seen <= RecordOf(w.pool, me).requested
    && (forall r <- w.replies :: 0 <= r.requested <= RecordOf(w.pool, me).requested)
  }

  /** Reports: the controller never knows of more than was released. */
  predicate ReportsOk(me: Id, w: World) {
    && (forall r <- w.reports :: SchemaValid(r) && r.released.value <= w.worker.counter)
    && RecordOf(w.pool, me).released <= Max(w.worker.counter, 0)
  }

  /** The record: nothing before the first accepted report; afterwards the obligation covers
      at least what was requested and not reported released since. */
  predicate RecordOk(u: Usage, first: Option<int>) {
    && u.pending >= 0 && u.requested >= 0
    && (first.None? <==> u.counter.None?)
    && u.counter != Some(false)
    && (first.None? ==> u.requested == 0 && u.pending == 0 && u.released == 0 && Evictable(u) == 0)
    && (first.Some? ==> 0 <= first.value <= u.released && u.pending >= u.requested - (u.released - first.value))
  }

  ghost predicate Inv(me: Id, w: World) {
    && WellKept(w.pool) && CommandsOk(me, w) && ReportsOk(me, w) && RecordOk(RecordOf(w.pool, me), w.first)
  }

  lemma RecordOkGrant(u: Usage, u': Usage, n: int, first: Option<int>)
    requires RecordOk(u, first) && Grants(u, u', n)
    ensures RecordOk(u', first)
    ensures u'.requested >= u.requested && u'.released == u.released && u'.counter == u.counter
  {
  }

  lemma ControllerStep(cfg: Settings, me: Id, w: World, op: Op)
    requires Inv(me, w) && Enabled(me, w, Controller(op))
    ensures Inv(me, w.(pool := Apply(cfg, w.pool, op)))
  {
    hide Apply, WellKept, RecordOf, RecordOk, Grants, SchemaValid, Reported;
    ApplyKeeps(cfg, w.pool, op);
    var n := ClientStep(cfg, w.pool, op, me);
    RecordOkGrant(RecordOf(w.pool, me), RecordOf(Apply(cfg, w.pool, op), me), n, w.first);
  }

  lemma RecordOkReport(u: Usage, u': Usage, rep: Report, now: real, first: Option<int>)
    requires RecordOk(u, first) && SchemaValid(rep) && Consistent(u, rep)
    requires SameBooks(u', Filled(u, rep, now))
    ensures RecordOk(u', if first.None? then rep.released else first)
    ensures u'.requested == u.requested && u'.released == rep.released.value
  {
  }

  lemma ArriveStep(cfg: Settings, me: Id, w: World, k: nat, now: real)
    requires Inv(me, w) && k < |w.reports|
    ensures Inv(me, Arrived(cfg, me, w, k, now))
  {
    hide Apply, WellKept, RecordOf, RecordOk, Grants, Reported, AccountingValid, Consistent, Filled, SameBooks;
    var rep := w.reports[k];
    assert rep in w.reports;
    var op := Post(me, rep, now);
    var u, u' := RecordOf(w.pool, me), RecordOf(Apply(cfg, w.pool, op), me);
    ApplyKeeps(cfg, w.pool, op);
    var n := ClientStep(cfg, w.pool, op, me);
    if Accepted(w.pool, op, me) {
      AcceptedIsConsistent(w.pool, me, rep, now);
      RecordOkReport(u, u', rep, now, w.first);
    } else {
      RecordOkGrant(u, u', n, w.first);
    }
  }

  lemma DoKeeps(cfg: Settings, me: Id, w: World, step: Step)
    requires Inv(me, w)
    ensures Inv(me, Do(cfg, me, w, step))
  {
    hide Apply, WellKept, RecordOf, AccountingValid, Arrived;
    if Enabled(me, w, step) {
      if step.Controller? {
        ControllerStep(cfg, me, w, step.op);
      } else if step.Arrive? {
        ArriveStep(cfg, me, w, step.k, step.now);
      }
    }
  }

  lemma {:induction false} RunKeeps(cfg: Settings, me: Id, counter: int, steps: seq<Step>)
    ensures Inv(me, Reached(cfg, me, counter, steps))
  {
    if steps == [] {
      EmptyKept();
    } else {
      hide Inv, Do;
      RunKeeps(cfg, me, counter, Front(steps));
      DoKeeps(cfg, me, Reached(cfg, me, counter, Front(steps)), steps[|steps| - 1]);
    }
  }

  /** The largest total among the replies that arrived. */
  function LargestHeard(cfg: Settings, me: Id, counter: int, steps: seq<Step>): int {
    if steps == [] then 0
    else
      var sofar, step := LargestHeard(cfg, me, counter, Front(steps)), steps[|steps| - 1];
      if step.Hear? && step.reply in Reached(cfg, me, counter, Front(steps)).replies then Max(sofar, step.reply.requested)
      else sofar
  }

  lemma {:induction false} SeenIsLargest(cfg: Settings, me: Id, counter: int, steps: seq<Step>)
    ensures Reached(cfg, me, counter, steps).worker.seen == LargestHeard(cfg, me, counter, steps)
  {
    if steps != [] {
      hide Apply, Arrived;
      SeenIsLargest(cfg, me, counter, Front(steps));
    }
  }

  /** No commanded byte is executed twice: whatever is lost, repeated or reordered, all the
      worker has ever executed is the largest total it heard, and never more than was
      requested. */
  lemma NoByteTwice(cfg: Settings, me: Id, counter: int, steps: seq<Step>)
    ensures var w := Reached(cfg, me, counter, steps);
      w.worker.executed == LargestHeard(cfg, me, counter, steps) <= RecordOf(w.pool, me).requested
  {
    hide Reached, LargestHeard;
    RunKeeps(cfg, me, counter, steps);
    SeenIsLargest(cfg, me, counter, steps);
  }

  /** No obligation is lost either: what is pending covers everything requested that was not
      reported released since the first report, for a worker of any kind. */
  lemma NothingForgiven(cfg: Settings, me: Id, counter: int, steps: seq<Step>)
    ensures var w := Reached(cfg, me, counter, steps);
      var u := RecordOf(w.pool, me);
      if w.first.None? then u.requested == 0 && u.pending == 0
      else u.pending >= u.requested - (u.released - w.first.value)
  {
    hide Reached;
    RunKeeps(cfg, me, counter, steps);
  }

  // ---------------------------------------------------------------------------
  // A worker whose counter moves only by executing commands of this epoch

  predicate Obedient(steps: seq<Step>) {
    forall s <- steps :: !s.FreeUnasked?
  }

  /** The counter is where it started plus what commands have made it free, and no report
      says less than the start. */
  predicate CounterOk(w: World, counter: int) {
    && w.worker.counter == counter + w.worker.executed - w.worker.owed
    && (forall r <- w.reports :: r.released.Some? && r.released.value >= counter)
  }

  predicate Exact(u: Usage, first: Option<int>, counter: int) {
    first.Some? ==> first.value == counter && u.pending == u.requested - (u.released - counter)
  }

  lemma ExactStep(cfg: Settings, me: Id, w: World, step: Step, counter: int)
    requires Inv(me, w) && counter >= 0 && CounterOk(w, counter) && !step.FreeUnasked?
    requires Exact(RecordOf(w.pool, me), w.first, counter)
    ensures var w' := Do(cfg, me, w, step);
      CounterOk(w', counter) && Exact(RecordOf(w'.pool, me), w'.first, counter)
  {
    hide Apply, WellKept, RecordOf, AccountingValid, Grants, Reported, Consistent;
    if Enabled(me, w, step) && step.Controller? {
      var n := ClientStep(cfg, w.pool, step.op, me);
      ExactGrant(RecordOf(w.pool, me), RecordOf(Apply(cfg, w.pool, step.op), me), n, w.first, counter);
    } else if Enabled(me, w, step) && step.Arrive? {
      ExactArrival(cfg, me, w, step.k, step.now, counter);
    }
  }

  lemma ExactGrant(u: Usage, u': Usage, n: int, first: Option<int>, counter: int)
    requires Exact(u, first, counter) && Grants(u, u', n)
    ensures Exact(u', first, counter)
  {
  }

  lemma ExactArrival(cfg: Settings, me: Id, w: World, k: nat, now: real, counter: int)
    requires Inv(me, w) && counter >= 0 && CounterOk(w, counter) && k < |w.reports|
    requires Exact(RecordOf(w.pool, me), w.first, counter)
    ensures var w' := Arrived(cfg, me, w, k, now);
      Exact(RecordOf(w'.pool, me), w'.first, counter)
  {
    hide Apply, WellKept, RecordOf, AccountingValid, Grants, Reported, Consistent;
    var rep := w.reports[k];
    assert rep in w.reports;
    var op := Post(me, rep, now);
    var u, u' := RecordOf(w.pool, me), RecordOf(Apply(cfg, w.pool, op), me);
    var n := ClientStep(cfg, w.pool, op, me);
    if Accepted(w.pool, op, me) {
      assert u'.pending == Max(u.pending - (rep.released.value - u.released), 0);
    } else {
      ExactGrant(u, u', n, w.first, counter);
    }
  }

  lemma {:induction false} RunIsExact(cfg: Settings, me: Id, counter: int, steps: seq<Step>)
    requires counter >= 0 && Obedient(steps)
    ensures var w := Reached(cfg, me, counter, steps);
      CounterOk(w, counter) && Exact(RecordOf(w.pool, me), w.first, counter)
  {
    if steps != [] {
      hide Inv, Do, CounterOk, Exact;
      RunIsExact(cfg, me, counter, Front(steps));
      RunKeeps(cfg, me, counter, Front(steps));
      ExactStep(cfg, me, Reached(cfg, me, counter, Front(steps)), steps[|steps| - 1], counter);
    }
  }

  /** The ledger is exact: from the first accepted report on, what is pending is what was
      requested less what has been reported released since that report, so the clamp at zero
      never bites. */
  lemma PendingIsExact(cfg: Settings, me: Id, counter: int, steps: seq<Step>)
    requires counter >= 0 && Obedient(steps)
    ensures var w := Reached(cfg, me, counter, steps);
      var u := RecordOf(w.pool, me);
      w.first.Some? ==>
        && u.pending == u.requested - (u.released - w.first.value)
        && 0 <= u.released - w.first.value <= w.worker.executed - w.worker.owed <= u.requested
  {
    hide Reached;
    RunIsExact(cfg, me, counter, steps);
    RunKeeps(cfg, me, counter, steps);
  }

  // ---------------------------------------------------------------------------
  // Reports that arrive in the order they were sent

  /** The worker speaks under one identity, and nobody registers it under another. */
  predicate Stable(steps: seq<Step>, me: Id, who: Identity) {
    forall s <- steps ::
      && (s.Send? ==> s.rep.who == who)
      && (s.Controller? && s.op.Register? && s.op.id == me ==> s.op.who == who)
  }

  /** No report arrives after a later one; repetition and loss are allowed. */
  predicate InOrder(steps: seq<Step>) {
    forall i, j :: 0 <= i < j < |steps| && steps[i].Arrive? && steps[j].Arrive? ==> steps[i].k <= steps[j].k
  }

  predicate SpokenBy(p: Pool, me: Id, who: Identity) {
    me in p.recs ==> p.recs[me].protocol == who.protocol && p.recs[me].capabilities == who.capabilities
                     && p.recs[me].pid == who.pid
  }

  lemma OpKeepsIdentity(cfg: Settings, p: Pool, op: Op, me: Id, who: Identity)
    requires WellKept(p) && SpokenBy(p, me, who)
    requires op.Register? && op.id == me ==> op.who == who
    requires op.Post? && op.id == me ==> op.rep.who == who
    ensures SpokenBy(Apply(cfg, p, op), me, who)
  {
    hide WellKept, Prechecked, Order, Granted, OverCap, Credited, ReplacedRam, ReplacedDisk;
    if op.Target? {
      RequestKeepsIdentity(cfg.pr, p, op.target, me, who);
    } else if op.CapPoll? && cfg.cap.Some? {
      RequestKeepsIdentity(cfg.pr, p, OverCap(p, cfg.cap.value), me, who);
    } else if op.Post? {
      PostKeepsIdentity(p, op.id, op.rep, op.now, me, who);
    }
  }

  lemma PostKeepsIdentity(p: Pool, id: Id, rep: Report, now: real, me: Id, who: Identity)
    requires SpokenBy(p, me, who) && (id == me ==> rep.who == who)
    ensures SpokenBy(ReportIn(p, id, rep, now), me, who)
  {
    hide Prechecked;
  }

  lemma RequestKeepsIdentity(pr: Priorities, p: Pool, t: int, me: Id, who: Identity)
    requires WellKept(p) && SpokenBy(p, me, who)
    ensures SpokenBy(RequestIn(pr, p, t), me, who)
  {
    hide Order, Granted, WellKept, Spare;
    if me in p.recs {
      RequestRecords(pr, p, t, me);
    } else {
      OrderDistinct(pr, p);
      GrantedElsewhere(Order(pr, p), p.recs, t);
    }
  }

  /** Reports carry counters in order; the record shows that of the one that arrived last. */
  predicate OrderlyOk(me: Id, who: Identity, w: World) {
    && SpokenBy(w.pool, me, who)
    && (forall r <- w.reports :: r.who == who && r.released.Some?)
    && (forall i, j :: 0 <= i <= j < |w.reports| ==> w.reports[i].released.value <= w.reports[j].released.value)
    && (w.latest.None? ==> RecordOf(w.pool, me).released == 0)
    && (w.latest.Some? ==> w.latest.value < |w.reports| && w.first.Some?
                           && RecordOf(w.pool, me).released == w.reports[w.latest.value].released.value)
  }

  lemma OrderlyController(cfg: Settings, me: Id, who: Identity, w: World, op: Op)
    requires Inv(me, w) && OrderlyOk(me, who, w) && Enabled(me, w, Controller(op))
    requires op.Register? && op.id == me ==> op.who == who
    ensures OrderlyOk(me, who, w.(pool := Apply(cfg, w.pool, op)))
  {
    hide Apply, WellKept, RecordOf, Grants, AccountingValid, SpokenBy, RecordOk, Reported;
    OpKeepsIdentity(cfg, w.pool, op, me, who);
    var n := ClientStep(cfg, w.pool, op, me);
    GrantsKeepReleased(RecordOf(w.pool, me), RecordOf(Apply(cfg, w.pool, op), me), n);
  }

  lemma GrantsKeepReleased(u: Usage, u': Usage, n: int)
    requires Grants(u, u', n)
    ensures u'.released == u.released
  {
  }

  /** A report that is not older than the last one to arrive is accepted. */
  lemma OrderlyAccepted(me: Id, who: Identity, w: World, k: nat, now: real)
    requires Inv(me, w) && OrderlyOk(me, who, w) && k < |w.reports|
    requires w.latest.Some? ==> w.latest.value <= k
    ensures Accepted(w.pool, Post(me, w.reports[k], now), me)
  {
    hide WellKept, Evictable, AccountingValid, Reported;
    var rep := w.reports[k];
    assert rep in w.reports;
    WireReportAccepted(Lookup(w.pool.recs, me), rep, now);
    NonNegativeCounter(rep);
  }

  lemma NonNegativeCounter(rep: Report)
    requires SchemaValid(rep)
    ensures rep.released.value >= 0
  {
  }

  lemma OrderlyArrival(cfg: Settings, me: Id, who: Identity, w: World, k: nat, now: real)
    requires Inv(me, w) && OrderlyOk(me, who, w) && k < |w.reports|
    requires w.latest.Some? ==> w.latest.value <= k
    ensures OrderlyOk(me, who, Arrived(cfg, me, w, k, now))
  {
    OrderlyAccepted(me, who, w, k, now);
    hide Apply, WellKept, AccountingValid, SpokenBy, Reported, Evictable;
    var rep := w.reports[k];
    assert rep in w.reports;
    OpKeepsIdentity(cfg, w.pool, Post(me, rep, now), me, who);
    var n := ClientStep(cfg, w.pool, Post(me, rep, now), me);
    FilledReleased(RecordOf(w.pool, me), rep, now);
  }

  lemma FilledReleased(u: Usage, rep: Report, now: real)
    ensures rep.released.Some? ==> Filled(u, rep, now).released == rep.released.value
  {
  }

  lemma OrderlyStep(cfg: Settings, me: Id, who: Identity, w: World, step: Step)
    requires Inv(me, w) && OrderlyOk(me, who, w) && Stable([step], me, who)
    requires step.Arrive? && w.latest.Some? ==> w.latest.value <= step.k
    ensures OrderlyOk(me, who, Do(cfg, me, w, step))
  {
    assert step in [step];
    hide Apply, WellKept, RecordOf, AccountingValid, SpokenBy, Arrived, Stable;
    if Enabled(me, w, step) {
      if step.Controller? {
        OrderlyController(cfg, me, who, w, step.op);
      } else if step.Arrive? {
        OrderlyArrival(cfg, me, who, w, step.k, step.now);
      } else if step.Send? {
        OrderlySend(me, who, w, step.rep);
      }
    }
  }

  lemma OrderlySend(me: Id, who: Identity, w: World, rep: Report)
    requires Inv(me, w) && OrderlyOk(me, who, w) && rep.who == who && rep.released == Some(w.worker.counter)
    ensures OrderlyOk(me, who, w.(reports := w.reports + [rep]))
  {
    hide WellKept, RecordOf, AccountingValid, SpokenBy, RecordOk;
    var all := w.reports + [rep];
    forall i, j | 0 <= i <= j < |all| ensures all[i].released.value <= all[j].released.value {
      if i < |w.reports| {
        assert w.reports[i] in w.reports;
      }
    }
  }

  /** The report that arrived last is one of the steps. */
  lemma {:induction false} LatestArrived(cfg: Settings, me: Id, counter: int, steps: seq<Step>)
    ensures var w := Reached(cfg, me, counter, steps);
      w.latest.Some? ==> exists i :: 0 <= i < |steps| && steps[i].Arrive? && steps[i].k == w.latest.value
  {
    if steps != [] {
      hide Apply;
      LatestArrived(cfg, me, counter, Front(steps));
      var w, w' := Reached(cfg, me, counter, Front(steps)), Reached(cfg, me, counter, steps);
      if w'.latest.Some? && w'.latest != w.latest {
        assert steps[|steps| - 1].Arrive? && steps[|steps| - 1].k == w'.latest.value;
      } else if w'.latest.Some? {
        var i :| 0 <= i < |Front(steps)| && Front(steps)[i].Arrive? && Front(steps)[i].k == w.latest.value;
        assert steps[i].Arrive? && steps[i].k == w'.latest.value;
      }
    }
  }

  lemma {:induction false} RunIsOrderly(cfg: Settings, me: Id, who: Identity, counter: int, steps: seq<Step>)
    requires Stable(steps, me, who) && InOrder(steps)
    ensures OrderlyOk(me, who, Reached(cfg, me, counter, steps))
  {
    if steps != [] {
      hide Inv, Do, OrderlyOk;
      var w, step := Reached(cfg, me, counter, Front(steps)), steps[|steps| - 1];
      RunIsOrderly(cfg, me, who, counter, Front(steps));
      RunKeeps(cfg, me, counter, Front(steps));
      LatestArrived(cfg, me, counter, Front(steps));
      assert step in steps;
      OrderlyStep(cfg, me, who, w, step);
    }
  }

  /** A worker of one identity whose reports arrive in the order they were sent, some of them
      never and some more than once, has none refused. */
  lemma NoneRefused(cfg: Settings, me: Id, who: Identity, counter: int, steps: seq<Step>, k: nat, now: real)
    requires Stable(steps, me, who) && InOrder(steps + [Arrive(k, now)])
    requires k < |Reached(cfg, me, counter, steps).reports|
    ensures var w := Reached(cfg, me, counter, steps); Accepted(w.pool, Post(me, w.reports[k], now), me)
  {
    var w := Reached(cfg, me, counter, steps);
    var all := steps + [Arrive(k, now)];
    forall i, j | 0 <= i < j < |steps| && steps[i].Arrive? && steps[j].Arrive? ensures steps[i].k <= steps[j].k {
      assert all[i] == steps[i] && all[j] == steps[j];
    }
    LatestArrived(cfg, me, counter, steps);
    assert forall i :: 0 <= i < |steps| ==> all[i] == steps[i];
    assert all[|steps|] == Arrive(k, now);
    hide Reached, Accepted;
    RunIsOrderly(cfg, me, who, counter, steps);
    RunKeeps(cfg, me, counter, steps);
    OrderlyAccepted(me, who, w, k, now);
  }

  /** And it settles: once an obedient worker has heard the latest total and freed what it owes,
      and the report it sent last says so and has arrived, nothing is pending. */
  lemma Settles(cfg: Settings, me: Id, who: Identity, counter: int, steps: seq<Step>)
    requires counter >= 0 && Obedient(steps) && Stable(steps, me, who) && InOrder(steps)
    requires var w := Reached(cfg, me, counter, steps);
      && LargestHeard(cfg, me, counter, steps) == RecordOf(w.pool, me).requested && w.worker.owed == 0
      && w.reports != [] && w.latest == Some(|w.reports| - 1)
      && w.reports[|w.reports| - 1].released == Some(w.worker.counter)
    ensures RecordOf(Reached(cfg, me, counter, steps).pool, me).pending == 0
  {
    hide Reached, LargestHeard;
    RunIsExact(cfg, me, counter, steps);
    RunIsOrderly(cfg, me, who, counter, steps);
    NoByteTwice(cfg, me, counter, steps);
  }

  lemma PollThenHear(cfg: Settings, me: Id, w: World, reply: Reply)
    requires CommandsOk(me, w) && reply.requested == RecordOf(w.pool, me).requested
    requires reply.pending == RecordOf(w.pool, me).pending
    ensures var w' := Do(cfg, me, Do(cfg, me, w, Poll), Hear(reply));
      w'.pool == w.pool && w'.worker.seen == w'.worker.executed == RecordOf(w.pool, me).requested
  {
    hide Apply, RecordOf, Arrived;
  }

  lemma ReachedStep(cfg: Settings, me: Id, counter: int, steps: seq<Step>, step: Step)
    ensures Reached(cfg, me, counter, steps + [step]) == Do(cfg, me, Reached(cfg, me, counter, steps), step)
  {
    hide Do;
    assert Front(steps + [step]) == steps;
  }

  /** Hearing the answer to a poll, the worker has seen and executed all that is requested. */
  lemma PollBringsTotal(cfg: Settings, me: Id, counter: int, steps: seq<Step>)
    ensures var w := Reached(cfg, me, counter, steps);
      var u := RecordOf(w.pool, me);
      var w' := Reached(cfg, me, counter, steps + [Poll] + [Hear(Reply(u.requested, u.pending))]);
      w'.pool == w.pool && w'.worker.seen == w'.worker.executed == u.requested
  {
    hide Do, Reached, RecordOf, CommandsOk, ReportsOk, RecordOk, WellKept;
    var w := Reached(cfg, me, counter, steps);
    var reply := Reply(RecordOf(w.pool, me).requested, RecordOf(w.pool, me).pending);
    ReachedStep(cfg, me, counter, steps, Poll);
    ReachedStep(cfg, me, counter, steps + [Poll], Hear(reply));
    RunKeeps(cfg, me, counter, steps);
    PollThenHear(cfg, me, w, reply);
  }
}
