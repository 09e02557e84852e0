/** Properties of the backup ledger over whole runs: any sequence of registrations, reports,
    operator releases, global targets and cap polls, in any order and for any clients. */
module BackupRuns {
  import opened Wrappers
  import opened BackupLedger
  import opened BackupAllocator

  datatype Op =
    | Register(id: Id, who: Identity, now: real)
    | Post(id: Id, rep: Report, now: real)
    | Release(id: Id, target: int)
    | Target(target: int)
    | CapPoll

  datatype Settings = Settings(pr: Priorities, cap: Option<int>)

  function Apply(cfg: Settings, p: Pool, op: Op): Pool {
    match op
    case Register(id, who, now) => RegisterIn(p, id, who, now)
    case Post(id, rep, now) => ReportIn(p, id, rep, now)
    case Release(id, target) => ReleaseIn(p, id, target)
    case Target(target) => RequestIn(cfg.pr, p, target)
    case CapPoll => if cfg.cap.Some? then CapIn(cfg.pr, p, cfg.cap.value) else p
  }

  /** The pool after `ops`, starting from `p`. */
  function After(cfg: Settings, p: Pool, ops: seq<Op>): Pool {
    if ops == [] then p else Apply(cfg, After(cfg, p, Init(ops)), Last(ops))
  }

  function Init(ops: seq<Op>): seq<Op>
    requires ops != []
  {
    ops[..|ops| - 1]
  }

  function Last(ops: seq<Op>): Op
    requires ops != []
  {
    ops[|ops| - 1]
  }

  const EMPTY := Pool([], map[])

  lemma ApplyKeeps(cfg: Settings, p: Pool, op: Op)
    requires WellKept(p)
    ensures WellKept(Apply(cfg, p, op))
  {
    hide Registered, Reported, RequestIn, Stored, WellKept;
    if op.Register? {
      if Registered(Lookup(p.recs, op.id), op.who, op.now).Ok? {
        StoredKeeps(p, op.id, Registered(Lookup(p.recs, op.id), op.who, op.now).value);
      }
    } else if op.Post? {
      if Reported(Lookup(p.recs, op.id), op.rep, op.now).Ok? {
        StoredKeeps(p, op.id, Reported(Lookup(p.recs, op.id), op.rep, op.now).value);
      }
    } else if op.Release? {
      ReleaseKeeps(p, op.id, op.target);
    } else if op.Target? {
      RequestTotals(cfg.pr, p, op.target);
    } else if cfg.cap.Some? {
      RequestTotals(cfg.pr, p, OverCap(p, cfg.cap.value));
    }
  }

  lemma ReleaseKeeps(p: Pool, id: Id, target: int)
    requires WellKept(p)
    ensures WellKept(ReleaseIn(p, id, target))
  {
  }

  lemma {:induction false} AfterKeeps(cfg: Settings, p: Pool, ops: seq<Op>)
    requires WellKept(p)
    ensures WellKept(After(cfg, p, ops))
  {
    hide Apply, WellKept;
    if ops != [] {
      AfterKeeps(cfg, p, Init(ops));
      ApplyKeeps(cfg, After(cfg, p, Init(ops)), Last(ops));
    }
  }

  // ---------------------------------------------------------------------------
  // One step, seen from one client

  const NOBODY := Identity(1, multiset{}, None, None)

  /** The client's record; before there is one, the blank record it will start from. */
  function RecordOf(p: Pool, id: Id): Usage {
    if id in p.recs then p.recs[id] else NewUsage(NOBODY, 0.0)
  }

  /** The same figures, whoever the client says it is. */
  predicate SameBooks(u: Usage, v: Usage) {
    && u.total == v.total && u.released == v.released && u.counter == v.counter && u.required == v.required
    && u.cacheOnly == v.cacheOnly && u.invalid == v.invalid && u.freeLocal == v.freeLocal
    && u.diskCurrent == v.diskCurrent && u.diskReserved == v.diskReserved && u.withDisk == v.withDisk
    && u.pending == v.pending && u.requested == v.requested
  }

  /** `op` is a report of `id` that `p` accepts. */
  predicate Accepted(p: Pool, op: Op, id: Id) {
    op.Post? && op.id == id && Reported(Lookup(p.recs, id), op.rep, op.now).Ok?
  }

  lemma FilledBooks(u: Usage, v: Usage, rep: Report, now: real)
    requires SameBooks(u, v)
    ensures SameBooks(Filled(u, rep, now), Filled(v, rep, now))
  {
    hide Max;
    assert Acknowledged(u, rep) == Acknowledged(v, rep);
  }

  lemma RegisteredBooks(p: Pool, id: Id, who: Identity, now: real)
    requires Registered(Lookup(p.recs, id), who, now).Ok?
    ensures SameBooks(Registered(Lookup(p.recs, id), who, now).value, RecordOf(p, id))
  {
  }

  lemma ReportStep(p: Pool, id: Id, rep: Report, now: real)
    requires Reported(Lookup(p.recs, id), rep, now).Ok?
    ensures SameBooks(RecordOf(ReportIn(p, id, rep, now), id), Filled(RecordOf(p, id), rep, now))
  {
    hide Filled, Prechecked, Registered, SameBooks;
    RegisteredBooks(p, id, rep.who, now);
    FilledBooks(Registered(Lookup(p.recs, id), rep.who, now).value, RecordOf(p, id), rep, now);
  }

  /** The record is granted `n` bytes it can spare, and nothing else of its books changes. */
  predicate Grants(u: Usage, u': Usage, n: int) {
    0 <= n <= Spare(u) && SameBooks(u', AfterGrant(u, n))
  }

  /** To one client a step is an accepted report, or the grant of at most what it can spare;
      registering, however often, grants nothing and changes no figure. */
  lemma ClientStep(cfg: Settings, p: Pool, op: Op, id: Id) returns (n: int)
    requires WellKept(p)
    ensures var u, u' := RecordOf(p, id), RecordOf(Apply(cfg, p, op), id);
      if Accepted(p, op, id) then n == 0 && SameBooks(u', Filled(u, op.rep, op.now))
      else Grants(u, u', n) && (op.Register? || op.Post? ==> n == 0)
  {
    hide Filled, Reported, Registered, RequestIn, WellKept, OverCap, Grants, SameBooks, RecordOf, RegisterIn, ReleaseIn;
    n := 0;
    if op.Register? {
      RegisterStep(p, op.id, op.who, op.now, id);
    } else if op.Post? {
      if Accepted(p, op, id) {
        ReportStep(p, id, op.rep, op.now);
      } else {
        OtherReportStep(p, op.id, op.rep, op.now, id);
      }
    } else if op.Release? {
      n := ReleaseStep(p, op.id, op.target, id);
    } else if op.Target? {
      n := RequestStep(cfg.pr, p, op.target, id);
    } else if cfg.cap.Some? {
      n := RequestStep(cfg.pr, p, OverCap(p, cfg.cap.value), id);
    } else {
      NoStep(p, p, id);
    }
  }

  lemma NoGrant(u: Usage, u': Usage)
    requires SameBooks(u', u)
    ensures Grants(u, u', 0)
  {
  }

  lemma NoStep(p: Pool, p': Pool, id: Id)
    requires Lookup(p.recs, id) == Lookup(p'.recs, id)
    ensures Grants(RecordOf(p, id), RecordOf(p', id), 0)
  {
    hide Grants;
    NoGrant(RecordOf(p, id), RecordOf(p', id));
  }

  lemma RegisterStep(p: Pool, at: Id, who: Identity, now: real, id: Id)
    ensures Grants(RecordOf(p, id), RecordOf(RegisterIn(p, at, who, now), id), 0)
  {
    hide Registered, SameBooks, Grants;
    if at == id && Registered(Lookup(p.recs, id), who, now).Ok? {
      RegisteredBooks(p, id, who, now);
      NoGrant(RecordOf(p, id), RecordOf(RegisterIn(p, at, who, now), id));
    } else {
      NoStep(p, RegisterIn(p, at, who, now), id);
    }
  }

  lemma OtherReportStep(p: Pool, at: Id, rep: Report, now: real, id: Id)
    requires at != id || Reported(Lookup(p.recs, id), rep, now).Err?
    ensures Grants(RecordOf(p, id), RecordOf(ReportIn(p, at, rep, now), id), 0)
  {
    hide Reported, Grants, RecordOf;
    NoStep(p, ReportIn(p, at, rep, now), id);
  }

  lemma ReleaseStep(p: Pool, at: Id, target: int, id: Id) returns (n: int)
    ensures Grants(RecordOf(p, id), RecordOf(ReleaseIn(p, at, target), id), n)
  {
    hide Grants, AfterGrant, Grant, SameBooks;
    if at == id && id in p.recs {
      n := Grant(p.recs[id], target);
      GrantGrants(p.recs[id], target);
    } else {
      n := 0;
      NoStep(p, ReleaseIn(p, at, target), id);
    }
  }

  lemma GrantGrants(u: Usage, target: int)
    ensures Grants(u, AfterGrant(u, Grant(u, target)), Grant(u, target))
  {
  }

  lemma RequestStep(pr: Priorities, p: Pool, t: int, id: Id) returns (n: int)
    requires WellKept(p)
    ensures Grants(RecordOf(p, id), RecordOf(RequestIn(pr, p, t), id), n)
  {
    hide Grants, Order, Granted, Spare, AfterGrant, WellKept;
    if id in p.recs {
      RequestRecords(pr, p, t, id);
      n :| 0 <= n <= Spare(p.recs[id]) && RequestIn(pr, p, t).recs[id] == AfterGrant(p.recs[id], n);
      Reflexive(p.recs[id], n);
    } else {
      OrderDistinct(pr, p);
      GrantedElsewhere(Order(pr, p), p.recs, t);
      n := 0;
      NoStep(p, RequestIn(pr, p, t), id);
    }
  }

  lemma Reflexive(u: Usage, n: int)
    requires 0 <= n <= Spare(u)
    ensures Grants(u, AfterGrant(u, n), n)
  {
  }

  // ---------------------------------------------------------------------------
  // What flows in and out of one client's obligation during a run

  function At(cfg: Settings, p: Pool, ops: seq<Op>, id: Id): Usage {
    RecordOf(After(cfg, p, ops), id)
  }

  datatype Flow =
    | Commands  // bytes newly requested
    | Acks      // bytes accepted reports acknowledge
    | Drops     // footprint drops accepted reports show
    | Credits   // bytes accepted reports take off the obligation

  function FlowOf(cfg: Settings, p: Pool, op: Op, id: Id, f: Flow): int {
    var u, u' := RecordOf(p, id), RecordOf(Apply(cfg, p, op), id);
    if f.Commands? then u'.requested - u.requested
    else if !Accepted(p, op, id) then 0
    else if f.Acks? then Acknowledged(u, op.rep)
    else if f.Drops? then Max(u.total - op.rep.total, 0)
    else u.pending - u'.pending
  }

  /** The flow over the steps from the `k`-th on. */
  function FlowSince(cfg: Settings, p: Pool, ops: seq<Op>, id: Id, f: Flow, k: nat): int {
    if |ops| <= k then 0
    else FlowSince(cfg, p, Init(ops), id, f, k) + FlowOf(cfg, After(cfg, p, Init(ops)), Last(ops), id, f)
  }

  /** The arithmetic of one step. */
  lemma StepArithmetic(cfg: Settings, p: Pool, op: Op, id: Id)
    requires WellKept(p) && RecordOf(p, id).pending >= 0
    ensures var u, u' := RecordOf(p, id), RecordOf(Apply(cfg, p, op), id);
      var asked, acked := FlowOf(cfg, p, op, id, Commands), FlowOf(cfg, p, op, id, Acks);
      && 0 <= asked <= Spare(u)
      && u'.pending == Max(u.pending + asked - acked, 0)
      && u'.requested - u'.pending == u.requested - u.pending + FlowOf(cfg, p, op, id, Credits)
      && (asked > 0 ==> !Accepted(p, op, id))
  {
    hide Apply, Reported, RecordOf, WellKept;
    var n := ClientStep(cfg, p, op, id);
  }

  lemma {:induction false} PendingNonNegative(cfg: Settings, p: Pool, ops: seq<Op>, id: Id)
    requires WellKept(p) && RecordOf(p, id).pending >= 0
    ensures At(cfg, p, ops, id).pending >= 0
  {
    hide Apply, RecordOf, WellKept, FlowOf;
    if ops != [] {
      PendingNonNegative(cfg, p, Init(ops), id);
      AfterKeeps(cfg, p, Init(ops));
      StepArithmetic(cfg, After(cfg, p, Init(ops)), Last(ops), id);
    }
  }

  /** Every byte ever requested is either still pending or has been credited, whatever the
      reports say and however often the client registers. */
  lemma {:induction false} ObligationsConserved(cfg: Settings, ops: seq<Op>, id: Id)
    ensures var u := At(cfg, EMPTY, ops, id);
      u.requested == u.pending + FlowSince(cfg, EMPTY, ops, id, Credits, 0) && u.pending >= 0
  {
    hide Apply, WellKept, FlowOf;
    EmptyKept();
    PendingNonNegative(cfg, EMPTY, ops, id);
    if ops != [] {
      ObligationsConserved(cfg, Init(ops), id);
      AfterKeeps(cfg, EMPTY, Init(ops));
      StepArithmetic(cfg, After(cfg, EMPTY, Init(ops)), Last(ops), id);
    }
  }

  lemma EmptyKept()
    ensures WellKept(EMPTY)
  {
  }

  /** A command is never withdrawn: the cumulative total only grows, over any continuation
      of any run. */
  lemma {:induction false} CommandsOnlyGrow(cfg: Settings, p: Pool, ops: seq<Op>, id: Id)
    requires WellKept(p) && RecordOf(p, id).pending >= 0
    ensures At(cfg, p, ops, id).requested >= RecordOf(p, id).requested
  {
    hide Apply, RecordOf, WellKept;
    if ops != [] {
      CommandsOnlyGrow(cfg, p, Init(ops), id);
      PendingNonNegative(cfg, p, Init(ops), id);
      AfterKeeps(cfg, p, Init(ops));
      StepArithmetic(cfg, After(cfg, p, Init(ops)), Last(ops), id);
    }
  }

  // ---------------------------------------------------------------------------
  // The obligation as a function of the flows

  function Balance(cfg: Settings, p: Pool, ops: seq<Op>, id: Id, k: nat): int {
    FlowSince(cfg, p, ops, id, Commands, k) - FlowSince(cfg, p, ops, id, Acks, k)
  }

  function LastMove(cfg: Settings, ops: seq<Op>, id: Id): int
    requires ops != []
  {
    FlowOf(cfg, After(cfg, EMPTY, Init(ops)), Last(ops), id, Commands)
    - FlowOf(cfg, After(cfg, EMPTY, Init(ops)), Last(ops), id, Acks)
  }

  lemma BalanceStep(cfg: Settings, ops: seq<Op>, id: Id, k: nat)
    requires ops != [] && k < |ops|
    ensures Balance(cfg, EMPTY, ops, id, k) == Balance(cfg, EMPTY, Init(ops), id, k) + LastMove(cfg, ops, id)
  {
    hide FlowOf, After;
  }

  lemma PendingStep(cfg: Settings, ops: seq<Op>, id: Id)
    requires ops != []
    ensures At(cfg, EMPTY, ops, id).pending == Max(At(cfg, EMPTY, Init(ops), id).pending + LastMove(cfg, ops, id), 0)
  {
    hide Apply, WellKept, FlowOf;
    EmptyKept();
    PendingNonNegative(cfg, EMPTY, Init(ops), id);
    AfterKeeps(cfg, EMPTY, Init(ops));
    StepArithmetic(cfg, After(cfg, EMPTY, Init(ops)), Last(ops), id);
  }

  /** What is pending is the largest excess of requested over acknowledged bytes that any
      final stretch of the run shows: the clamp at zero forgives surplus acknowledgements
      and nothing else. */
  lemma {:induction false} PendingIsPeakBalance(cfg: Settings, ops: seq<Op>, id: Id) returns (from: nat)
    ensures from <= |ops| && At(cfg, EMPTY, ops, id).pending == Balance(cfg, EMPTY, ops, id, from)
    ensures forall k: nat :: k <= |ops| ==> Balance(cfg, EMPTY, ops, id, k) <= At(cfg, EMPTY, ops, id).pending
  {
    if ops == [] {
      return 0;
    }
    hide At, Balance, LastMove;
    NothingSince(cfg, ops, id);
    PendingStep(cfg, ops, id);
    from := PendingIsPeakBalance(cfg, Init(ops), id);
    BalanceStep(cfg, ops, id, from);
    forall k: nat | k <= |ops| ensures Balance(cfg, EMPTY, ops, id, k) <= At(cfg, EMPTY, ops, id).pending {
      if k < |ops| {
        BalanceStep(cfg, ops, id, k);
      }
    }
    if At(cfg, EMPTY, Init(ops), id).pending + LastMove(cfg, ops, id) < 0 {
      from := |ops|;
    }
  }

  lemma NothingSince(cfg: Settings, ops: seq<Op>, id: Id)
    ensures Balance(cfg, EMPTY, ops, id, |ops|) == 0
  {
  }

  // ---------------------------------------------------------------------------
  // What backs a credit

  predicate ReportsValid(ops: seq<Op>) {
    forall op <- ops :: op.Post? ==> AccountingValid(op.rep)
  }

  /** Before its first report a client owes nothing; afterwards its acknowledgements add up to
      its counter, or to the footprint drops it showed. */
  ghost predicate Backed(u: Usage, acks: int, drops: int, credits: int) {
    && u.released >= 0 && u.pending >= 0 && 0 <= credits <= acks
    && (u.counter.None? ==> u.requested == 0 && u.pending == 0 && Evictable(u) == 0
                            && u.released == 0 && acks == 0 && drops == 0)
    && (u.counter == Some(true) ==> acks == u.released)
    && (u.counter == Some(false) ==> acks == drops)
  }

  lemma BackedGrant(u: Usage, u': Usage, n: int, acks: int, drops: int, credits: int)
    requires Backed(u, acks, drops, credits) && Grants(u, u', n)
    ensures Backed(u', acks, drops, credits)
  {
  }

  lemma BackedReport(u: Usage, rep: Report, now: real, u': Usage, acks: int, drops: int, credits: int)
    requires AccountingValid(rep) && Consistent(u, rep)
    requires Backed(u, acks, drops, credits)
    requires SameBooks(u', Filled(u, rep, now))
    ensures Backed(u', acks + Acknowledged(u, rep), drops + Max(u.total - rep.total, 0), credits + u.pending - u'.pending)
  {
  }

  /** The counter is present always or never, and does not go back. */
  predicate Consistent(u: Usage, rep: Report) {
    && (u.counter.Some? ==> u.counter.value == rep.released.Some?)
    && (rep.released.Some? && rep.released.value >= 0 ==> rep.released.value >= u.released)
  }

  lemma AcceptedIsConsistent(p: Pool, id: Id, rep: Report, now: real)
    requires Reported(Lookup(p.recs, id), rep, now).Ok?
    ensures Consistent(RecordOf(p, id), rep)
  {
    hide Registered, Filled;
  }

  lemma BackedStep(cfg: Settings, p: Pool, op: Op, id: Id, acks: int, drops: int, credits: int)
    requires WellKept(p) && (op.Post? ==> AccountingValid(op.rep))
    requires Backed(RecordOf(p, id), acks, drops, credits)
    ensures Backed(RecordOf(Apply(cfg, p, op), id), acks + FlowOf(cfg, p, op, id, Acks),
                   drops + FlowOf(cfg, p, op, id, Drops), credits + FlowOf(cfg, p, op, id, Credits))
  {
    hide Apply, WellKept, Backed, Grants, SameBooks, RecordOf, Filled, Consistent, Reported, AccountingValid, Acknowledged;
    var u, u' := RecordOf(p, id), RecordOf(Apply(cfg, p, op), id);
    var n := ClientStep(cfg, p, op, id);
    if Accepted(p, op, id) {
      AcceptedIsConsistent(p, id, op.rep, op.now);
      BackedReport(u, op.rep, op.now, u', acks, drops, credits);
    } else {
      BackedGrant(u, u', n, acks, drops, credits);
    }
  }

  lemma {:induction false} RunsAreBacked(cfg: Settings, ops: seq<Op>, id: Id)
    requires ReportsValid(ops)
    ensures Backed(At(cfg, EMPTY, ops, id), FlowSince(cfg, EMPTY, ops, id, Acks, 0),
                   FlowSince(cfg, EMPTY, ops, id, Drops, 0), FlowSince(cfg, EMPTY, ops, id, Credits, 0))
  {
    if ops != [] {
      hide Apply, WellKept, Backed, RecordOf, FlowOf, AccountingValid;
      RunsAreBacked(cfg, Init(ops), id);
      EmptyKept();
      AfterKeeps(cfg, EMPTY, Init(ops));
      assert Last(ops) in ops;
      BackedStep(cfg, After(cfg, EMPTY, Init(ops)), Last(ops), id, FlowSince(cfg, EMPTY, Init(ops), id, Acks, 0),
                 FlowSince(cfg, EMPTY, Init(ops), id, Drops, 0), FlowSince(cfg, EMPTY, Init(ops), id, Credits, 0));
    }
  }

  /** No obligation is ever forgiven: what was credited is covered by the client's counter,
      or, for a client without one, by the footprint drops it showed. */
  lemma CreditsAreBacked(cfg: Settings, ops: seq<Op>, id: Id)
    requires ReportsValid(ops)
    ensures var u := At(cfg, EMPTY, ops, id);
      && u.pending <= u.requested
      && (u.counter.None? ==> u.requested == 0)
      && (u.counter == Some(true) ==> u.requested - u.pending <= u.released)
      && (u.counter == Some(false) ==> u.requested - u.pending <= FlowSince(cfg, EMPTY, ops, id, Drops, 0))
  {
    hide At, FlowSince;
    RunsAreBacked(cfg, ops, id);
    ObligationsConserved(cfg, ops, id);
  }

  // ---------------------------------------------------------------------------
  // Bytes that change state are not requested twice

  /** No accepted report of the stretch acknowledges anything. */
  ghost predicate Unacknowledged(cfg: Settings, p: Pool, ops: seq<Op>, id: Id) {
    forall i :: 0 <= i < |ops| ==> FlowOf(cfg, After(cfg, p, ops[..i]), ops[i], id, Acks) == 0
  }

  /** The most the client showed as evictable, from its report standing at the start on. */
  function PeakEvictable(cfg: Settings, p: Pool, ops: seq<Op>, id: Id): int {
    if ops == [] then Evictable(RecordOf(p, id))
    else
      var sofar, op := PeakEvictable(cfg, p, Init(ops), id), Last(ops);
      if Accepted(After(cfg, p, Init(ops)), op, id) then
        Max(sofar, op.rep.cacheOnly + op.rep.invalid + op.rep.freeLocal + op.rep.withDisk)
      else sofar
  }

  lemma EvictableStep(cfg: Settings, p: Pool, op: Op, id: Id)
    requires WellKept(p)
    ensures Evictable(RecordOf(Apply(cfg, p, op), id)) ==
            if Accepted(p, op, id) then op.rep.cacheOnly + op.rep.invalid + op.rep.freeLocal + op.rep.withDisk
            else Evictable(RecordOf(p, id))
  {
    hide Apply, Reported, RecordOf, WellKept;
    var n := ClientStep(cfg, p, op, id);
  }

  lemma {:induction false} EvictableWithinPeak(cfg: Settings, p: Pool, ops: seq<Op>, id: Id)
    requires WellKept(p)
    ensures Evictable(At(cfg, p, ops, id)) <= PeakEvictable(cfg, p, ops, id)
  {
    hide Apply, RecordOf, WellKept, Accepted;
    if ops != [] {
      EvictableWithinPeak(cfg, p, Init(ops), id);
      AfterKeeps(cfg, p, Init(ops));
      EvictableStep(cfg, After(cfg, p, Init(ops)), Last(ops), id);
    }
  }

  lemma UnacknowledgedInit(cfg: Settings, p: Pool, ops: seq<Op>, id: Id)
    requires ops != [] && Unacknowledged(cfg, p, ops, id)
    ensures Unacknowledged(cfg, p, Init(ops), id)
    ensures FlowOf(cfg, After(cfg, p, Init(ops)), Last(ops), id, Acks) == 0
  {
    hide After, FlowOf;
    forall i | 0 <= i < |ops| - 1
      ensures FlowOf(cfg, After(cfg, p, Init(ops)[..i]), Init(ops)[i], id, Acks) == 0
    {
      assert Init(ops)[..i] == ops[..i];
    }
    assert FlowOf(cfg, After(cfg, p, ops[..|ops| - 1]), ops[|ops| - 1], id, Acks) == 0;
  }

  /** However often bytes move between the cache-only, required and disk-backed states, while
      nothing is acknowledged the obligation never falls, and it never exceeds what was owed
      already or the most that was evictable at one time. */
  lemma {:induction false} NoDuplicateObligations(cfg: Settings, p: Pool, ops: seq<Op>, id: Id)
    requires WellKept(p) && RecordOf(p, id).pending >= 0
    requires Unacknowledged(cfg, p, ops, id)
    ensures RecordOf(p, id).pending <= At(cfg, p, ops, id).pending
    ensures At(cfg, p, ops, id).pending <= Max(RecordOf(p, id).pending, PeakEvictable(cfg, p, ops, id))
  {
    hide Apply, RecordOf, WellKept, Accepted, FlowOf, Unacknowledged;
    if ops != [] {
      UnacknowledgedInit(cfg, p, ops, id);
      NoDuplicateObligations(cfg, p, Init(ops), id);
      EvictableWithinPeak(cfg, p, Init(ops), id);
      PendingNonNegative(cfg, p, Init(ops), id);
      AfterKeeps(cfg, p, Init(ops));
      StepArithmetic(cfg, After(cfg, p, Init(ops)), Last(ops), id);
    }
  }

  // The same bound by the reports of the stretch alone.

  /** The most an accepted report of the stretch showed as evictable. */
  function PeakReported(cfg: Settings, p: Pool, ops: seq<Op>, id: Id): int {
    if ops == [] then 0
    else
      var sofar, op := PeakReported(cfg, p, Init(ops), id), Last(ops);
      if Accepted(After(cfg, p, Init(ops)), op, id) then
        Max(sofar, op.rep.cacheOnly + op.rep.invalid + op.rep.freeLocal + op.rep.withDisk)
      else sofar
  }

  /** Whether the client has reported in the stretch. */
  predicate HasReported(cfg: Settings, p: Pool, ops: seq<Op>, id: Id) {
    ops != [] && (HasReported(cfg, p, Init(ops), id) || Accepted(After(cfg, p, Init(ops)), Last(ops), id))
  }

  /** What was requested from the client before its first report of the stretch. */
  function RequestedEarly(cfg: Settings, p: Pool, ops: seq<Op>, id: Id): int {
    if ops == [] then 0
    else
      RequestedEarly(cfg, p, Init(ops), id)
      + if HasReported(cfg, p, Init(ops), id) then 0 else FlowOf(cfg, After(cfg, p, Init(ops)), Last(ops), id, Commands)
  }

  lemma {:induction false} StretchBounds(cfg: Settings, p: Pool, ops: seq<Op>, id: Id)
    requires WellKept(p) && RecordOf(p, id).pending >= 0
    requires Unacknowledged(cfg, p, ops, id)
    ensures var early, now := RecordOf(p, id).pending + RequestedEarly(cfg, p, ops, id), At(cfg, p, ops, id);
      && early <= now.pending <= Max(early, PeakReported(cfg, p, ops, id))
      && (if HasReported(cfg, p, ops, id) then Evictable(now) <= PeakReported(cfg, p, ops, id) else now.pending == early)
  {
    hide Apply, RecordOf, WellKept, Accepted, FlowOf, Unacknowledged;
    if ops != [] {
      UnacknowledgedInit(cfg, p, ops, id);
      StretchBounds(cfg, p, Init(ops), id);
      PendingNonNegative(cfg, p, Init(ops), id);
      AfterKeeps(cfg, p, Init(ops));
      StepArithmetic(cfg, After(cfg, p, Init(ops)), Last(ops), id);
      EvictableStep(cfg, After(cfg, p, Init(ops)), Last(ops), id);
    }
  }

  /** Counting only the reports inside the stretch, the bound holds exactly if it already holds
      for what is owed when the first of them arrives; so it does whenever no request to the
      client precedes that report. */
  lemma StretchBoundIff(cfg: Settings, p: Pool, ops: seq<Op>, id: Id)
    requires WellKept(p) && RecordOf(p, id).pending >= 0
    requires Unacknowledged(cfg, p, ops, id)
    ensures var owed := RecordOf(p, id).pending;
      var bound := Max(owed, PeakReported(cfg, p, ops, id));
      && (At(cfg, p, ops, id).pending <= bound <==> owed + RequestedEarly(cfg, p, ops, id) <= bound)
      && (RequestedEarly(cfg, p, ops, id) == 0 ==> At(cfg, p, ops, id).pending <= bound)
  {
    hide At, PeakReported, RequestedEarly, Unacknowledged, HasReported;
    StretchBounds(cfg, p, ops, id);
  }

  /** It does not always hold: one request against the report standing at the start. */
  lemma StandingReportCounts(cfg: Settings, id: Id, n: int)
    requires n > 0
    ensures var u := NewUsage(NOBODY, 0.0).(total := n, cacheOnly := n, counter := Some(true));
      var p, ops := Pool([id], map[id := u]), [Target(n)];
      && WellKept(p) && Unacknowledged(cfg, p, ops, id)
      && PeakReported(cfg, p, ops, id) == 0 == RecordOf(p, id).pending && At(cfg, p, ops, id).pending == n
  {
    var u := NewUsage(NOBODY, 0.0).(total := n, cacheOnly := n, counter := Some(true));
    var p, ops := Pool([id], map[id := u]), [Target(n)];
    assert Init(ops) == [] && ops[..0] == [];
    assert p.order[1..] == [];
    RequestTotals(cfg.pr, p, n);
    var p' := RequestIn(cfg.pr, p, n);
    assert Sum(PendingBytes, p.order, p'.recs) == RecordOf(p', id).pending;
    assert Sum(SpareBytes, p.order, p.recs) == n;
  }

  // ---------------------------------------------------------------------------
  // The ledger itself

  predicate LedgerOk(u: Usage) {
    && u.required >= 0 && u.cacheOnly >= 0 && u.invalid >= 0 && u.freeLocal >= 0
    && u.required + u.cacheOnly + u.invalid + u.freeLocal == u.total
    && 0 <= u.withDisk <= u.required && u.released >= 0 && 0 <= u.pending <= u.requested
  }

  lemma FilledOk(u: Usage, rep: Report, now: real)
    requires LedgerOk(u) && AccountingValid(rep) && Acknowledged(u, rep) >= 0
    ensures LedgerOk(Filled(u, rep, now))
  {
  }

  lemma SameOk(u: Usage, u': Usage)
    requires SameBooks(u', u) && LedgerOk(u)
    ensures LedgerOk(u')
  {
  }

  lemma {:induction false} LedgerHolds(cfg: Settings, ops: seq<Op>, id: Id)
    requires ReportsValid(ops)
    ensures LedgerOk(At(cfg, EMPTY, ops, id))
  {
    if ops != [] {
      hide Apply, WellKept, RecordOf, LedgerOk, Reported, Filled, Spare, AccountingValid, SameBooks;
      LedgerHolds(cfg, Init(ops), id);
      EmptyKept();
      AfterKeeps(cfg, EMPTY, Init(ops));
      var q, op := After(cfg, EMPTY, Init(ops)), Last(ops);
      var u, u' := RecordOf(q, id), RecordOf(Apply(cfg, q, op), id);
      var n := ClientStep(cfg, q, op, id);
      if Accepted(q, op, id) {
        assert op in ops;
        AcceptedIsConsistent(q, id, op.rep, op.now);
        AckNonNegative(u, op.rep);
        FilledOk(u, op.rep, op.now);
        SameOk(Filled(u, op.rep, op.now), u');
      } else {
        GrantOk(u, n);
        SameOk(AfterGrant(u, n), u');
      }
    }
  }

  lemma AckNonNegative(u: Usage, rep: Report)
    requires Consistent(u, rep) && AccountingValid(rep)
    ensures Acknowledged(u, rep) >= 0
  {
  }

  lemma GrantOk(u: Usage, n: int)
    requires LedgerOk(u) && n >= 0
    ensures LedgerOk(AfterGrant(u, n))
  {
  }

  /** With valid reports every record balances: its four kinds of bytes add up to the total,
      so what counts as evictable is the total less the bytes only RAM can restore. */
  lemma LedgerBalances(cfg: Settings, ops: seq<Op>, id: Id)
    requires ReportsValid(ops)
    ensures var u := At(cfg, EMPTY, ops, id);
      LedgerOk(u) && Evictable(u) == u.total - (u.required - u.withDisk) && 0 <= Evictable(u) <= u.total
  {
    LedgerHolds(cfg, ops, id);
  }

  /** A step that asks a client for anything leaves it owing no more than it can give up:
      the bytes it needs for a restore and has nowhere else are never asked for. */
  lemma RequestsAreReclaimable(cfg: Settings, ops: seq<Op>, op: Op, id: Id)
    requires ReportsValid(ops)
    requires At(cfg, EMPTY, ops + [op], id).requested > At(cfg, EMPTY, ops, id).requested
    ensures var u := At(cfg, EMPTY, ops + [op], id);
      u.pending <= u.total - (u.required - u.withDisk)
  {
    hide Apply, WellKept, RecordOf, Reported;
    LedgerBalances(cfg, ops, id);
    EmptyKept();
    AfterKeeps(cfg, EMPTY, ops);
    assert Init(ops + [op]) == ops;
    var n := ClientStep(cfg, After(cfg, EMPTY, ops), op, id);
  }
}
