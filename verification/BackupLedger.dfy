/** The values behind controller/backup_pool.py: one client's record, and what registering,
    reporting and requesting do to it. Byte counts are unbounded integers, as in the source;
    only `SchemaValid` reports come over the wire. */
module BackupLedger {
  import opened Wrappers

  type Id = string

  datatype Usage = Usage(
    protocol: int,
    capabilities: multiset<string>,
    pid: Option<int>,
    model: Option<string>,
    total: int,
    released: int,                // released_bytes_total
    counter: Option<bool>,        // release_counter_enabled
    required: int,
    cacheOnly: int,
    invalid: int,
    freeLocal: int,
    diskCurrent: int,
    diskReserved: int,
    withDisk: int,                // ram_reclaimable_with_disk_bytes
    pending: int,                 // pending_release_bytes
    requested: int,               // requested_release_bytes_total
    updatedAt: real)

  /** Who is speaking; part of registrations and reports alike. */
  datatype Identity = Identity(protocol: int, capabilities: multiset<string>, pid: Option<int>, model: Option<string>)

  datatype Report = Report(
    who: Identity,
    total: int,
    released: Option<int>,
    required: int,
    cacheOnly: int,
    invalid: int,
    freeLocal: int,
    diskCurrent: int,
    diskReserved: int,
    withDisk: int)

  datatype Refusal =
    | DiskExceedsRequired
    | NoDiskSource
    | CounterPresenceChanged
    | CounterDecreased
    | OtherProcess
    | ProtocolChanged
    | CapabilitiesChanged

  function Max(x: int, y: int): int { if x < y then y else x }

  function Min(x: int, y: int): int { if x < y then x else y }

  function Evictable(u: Usage): int {
    u.cacheOnly + u.invalid + u.freeLocal + u.withDisk
  }

  /** What may still be requested from a client. */
  function Spare(u: Usage): int {
    Max(Evictable(u) - u.pending, 0)
  }

  function NewUsage(who: Identity, now: real): Usage {
    Usage(who.protocol, who.capabilities, who.pid, who.model,
          0, 0, None, 0, 0, 0, 0, 0, 0, 0, 0, 0, now)
  }

  /** `register_client` on the client's record, if it has one. */
  function Registered(prior: Option<Usage>, who: Identity, now: real): Result<Usage, Refusal> {
    match prior
    case None => Ok(NewUsage(who, now))
    case Some(u) =>
      if u.pid.Some? && who.pid.Some? && u.pid != who.pid then Err(OtherProcess)
      else if u.protocol != who.protocol then Err(ProtocolChanged)
      else if u.capabilities != who.capabilities then Err(CapabilitiesChanged)
      else Ok(u.(pid := if who.pid.Some? then who.pid else u.pid, model := who.model, updatedAt := now))
  }

  /** The bytes a report acknowledges: the counter's progress, or for clients without one
      the drop of the reported footprint. */
  function Acknowledged(u: Usage, rep: Report): int {
    match rep.released
    case Some(n) => n - u.released
    case None => Max(u.total - rep.total, 0)
  }

  /** First the acknowledgement ... */
  function Credited(u: Usage, rep: Report): Usage {
    u.(pending := Max(u.pending - Acknowledged(u, rep), 0),
       total := rep.total,
       released := if rep.released.Some? then rep.released.value else u.released,
       counter := if u.counter.None? then Some(rep.released.Some?) else u.counter)
  }

  /** ... then the accounting is replaced by the reported one. */
  function ReplacedRam(u: Usage, rep: Report): Usage {
    u.(required := rep.required, cacheOnly := rep.cacheOnly, invalid := rep.invalid, freeLocal := rep.freeLocal)
  }

  function ReplacedDisk(u: Usage, rep: Report, now: real): Usage {
    u.(diskCurrent := rep.diskCurrent, diskReserved := rep.diskReserved, withDisk := rep.withDisk, updatedAt := now)
  }

  function Filled(u: Usage, rep: Report, now: real): Usage {
    ReplacedDisk(ReplacedRam(Credited(u, rep), rep), rep, now)
  }

  /** The checks `report_usage` makes before anything is changed. */
  function Prechecked(prior: Option<Usage>, rep: Report): Option<Refusal> {
    if rep.withDisk > rep.required then Some(DiskExceedsRequired)
    else if rep.withDisk > 0 && rep.diskCurrent == 0 && rep.diskReserved == 0 then Some(NoDiskSource)
    else if prior.Some? && prior.value.counter.Some? && prior.value.counter.value != rep.released.Some? then
      Some(CounterPresenceChanged)
    else if prior.Some? && rep.released.Some? && rep.released.value < prior.value.released then
      Some(CounterDecreased)
    else None
  }

  /** `report_usage` on the client's record, if it has one. */
  function Reported(prior: Option<Usage>, rep: Report, now: real): Result<Usage, Refusal> {
    var refusal := Prechecked(prior, rep);
    if refusal.Some? then Err(refusal.value)
    else
      match Registered(prior, rep.who, now)
      case Err(e) => Err(e)
      case Ok(u) => Ok(Filled(u, rep, now))
  }

  /** What `request_release` queues for a record. */
  function Grant(u: Usage, target: int): int {
    if target <= 0 then 0 else Min(target, Spare(u))
  }

  function AfterGrant(u: Usage, n: int): Usage {
    u.(pending := u.pending + n, requested := u.requested + n)
  }

  const EXACT_DISK := "exact-disk-accounting-v1"
  const RELEASED_TOTAL := "released-bytes-total-v1"

  /** The accounting every report must satisfy (controller/schemas.py), the counter aside. */
  predicate AccountingValid(rep: Report) {
    && rep.total >= 0 && rep.required >= 0 && rep.cacheOnly >= 0 && rep.invalid >= 0
    && rep.freeLocal >= 0 && rep.diskCurrent >= 0 && rep.diskReserved >= 0 && rep.withDisk >= 0
    && (rep.released.Some? ==> rep.released.value >= 0)
    && rep.required + rep.cacheOnly + rep.invalid + rep.freeLocal == rep.total
    && rep.withDisk <= rep.required
    && (rep.withDisk > 0 ==> rep.diskCurrent > 0 || rep.diskReserved > 0)
    && (rep.diskCurrent > 0 || rep.diskReserved > 0 || rep.withDisk > 0 ==> EXACT_DISK in rep.who.capabilities)
    && (rep.released.Some? ==> RELEASED_TOTAL in rep.who.capabilities)
  }

  /** On the wire the counter is mandatory. */
  predicate SchemaValid(rep: Report) {
    AccountingValid(rep) && rep.released.Some?
  }

  // ---------------------------------------------------------------------------
  // What is accepted, and what it leaves in the record, figure by figure

  /** The speaker is the process the record belongs to, as far as both say. */
  predicate SameProcess(u: Usage, who: Identity) {
    && (u.pid.None? || who.pid.None? || u.pid.value == who.pid.value)
    && u.protocol == who.protocol && u.capabilities == who.capabilities
  }

  predicate Acceptable(prior: Option<Usage>, rep: Report) {
    && rep.withDisk <= rep.required
    && (rep.withDisk > 0 ==> rep.diskCurrent != 0 || rep.diskReserved != 0)
    && (prior.Some? ==>
          && SameProcess(prior.value, rep.who)
          && (prior.value.counter.Some? ==> prior.value.counter.value == rep.released.Some?)
          && (rep.released.Some? ==> rep.released.value >= prior.value.released))
  }

  /** A report is accepted exactly if it is acceptable. */
  lemma AcceptedExactly(prior: Option<Usage>, rep: Report, now: real)
    ensures Reported(prior, rep, now).Ok? <==> Acceptable(prior, rep)
  {
  }

  /** What comes over the wire is refused only if another process speaks, the client has
      reported without a counter before, or its counter has gone back. */
  lemma WireReportAccepted(prior: Option<Usage>, rep: Report, now: real)
    requires SchemaValid(rep)
    ensures Reported(prior, rep, now).Ok? <==>
      prior.None? || (SameProcess(prior.value, rep.who) && prior.value.counter != Some(false)
                      && rep.released.value >= prior.value.released)
  {
  }

  /** A registration is accepted exactly from the same process; it refreshes who the client is
      and when it spoke, and keeps every figure. */
  lemma RegistrationExactly(prior: Option<Usage>, who: Identity, now: real)
    ensures Registered(prior, who, now).Ok? <==> prior.None? || SameProcess(prior.value, who)
    ensures Registered(prior, who, now).Ok? ==>
      var u := Registered(prior, who, now).value;
      && u.protocol == who.protocol && u.capabilities == who.capabilities && u.model == who.model && u.updatedAt == now
      && u.pid == (if who.pid.Some? || prior.None? then who.pid else prior.value.pid)
      && (if prior.None? then
            && u.pending == u.requested == u.released == u.total == u.required == u.cacheOnly == u.invalid == 0
            && u.freeLocal == u.diskCurrent == u.diskReserved == u.withDisk == 0 && u.counter.None?
          else
            prior.value == u.(protocol := prior.value.protocol, capabilities := prior.value.capabilities,
                              pid := prior.value.pid, model := prior.value.model, updatedAt := prior.value.updatedAt))
  {
  }

  /** After an accepted report the record shows exactly the reported figures; the command total
      stays, and the obligation falls by what is acknowledged, never below zero. */
  predicate Shows(u: Usage, prior: Option<Usage>, rep: Report, now: real) {
    && u.total == rep.total && u.required == rep.required && u.cacheOnly == rep.cacheOnly
    && u.invalid == rep.invalid && u.freeLocal == rep.freeLocal
    && u.diskCurrent == rep.diskCurrent && u.diskReserved == rep.diskReserved && u.withDisk == rep.withDisk
    && u.model == rep.who.model && u.updatedAt == now && u.counter == Some(rep.released.Some?)
    && (prior.None? ==> u.requested == 0)
    && (prior.Some? ==>
          && u.requested == prior.value.requested
          && (rep.released.Some? ==> u.released == rep.released.value)
          && (rep.released.None? ==> u.released == prior.value.released)
          && var acknowledged := if rep.released.Some? then rep.released.value - prior.value.released
                                 else if prior.value.total > rep.total then prior.value.total - rep.total else 0;
          u.pending == if prior.value.pending > acknowledged then prior.value.pending - acknowledged else 0)
  }

  lemma AcceptedShows(prior: Option<Usage>, rep: Report, now: real)
    requires Reported(prior, rep, now).Ok?
    ensures Shows(Reported(prior, rep, now).value, prior, rep, now)
  {
  }

  // ---------------------------------------------------------------------------
  // The pool as a value: records in the order their clients first appeared

  type Records = map<Id, Usage>

  datatype Pool = Pool(order: seq<Id>, recs: Records)

  function Lookup(recs: Records, id: Id): Option<Usage> {
    if id in recs then Some(recs[id]) else None
  }

  function Stored(p: Pool, id: Id, u: Usage): Pool {
    Pool(if id in p.recs then p.order else p.order + [id], p.recs[id := u])
  }

  function RegisterIn(p: Pool, id: Id, who: Identity, now: real): Pool {
    match Registered(Lookup(p.recs, id), who, now)
    case Err(_) => p
    case Ok(u) => Stored(p, id, u)
  }

  function ReportIn(p: Pool, id: Id, rep: Report, now: real): Pool {
    match Reported(Lookup(p.recs, id), rep, now)
    case Err(_) => p
    case Ok(u) => Stored(p, id, u)
  }

  function ReleaseIn(p: Pool, id: Id, target: int): Pool {
    if id !in p.recs then p
    else p.(recs := p.recs[id := AfterGrant(p.recs[id], Grant(p.recs[id], target))])
  }

  ghost predicate Distinct(ids: seq<Id>) {
    ids == [] || (ids[0] !in ids[1..] && Distinct(ids[1..]))
  }

  ghost predicate WellKept(p: Pool) {
    Distinct(p.order) && forall id :: id in p.order <==> id in p.recs
  }

  lemma {:induction false} AppendDistinct(ids: seq<Id>, id: Id)
    requires Distinct(ids) && id !in ids
    ensures Distinct(ids + [id])
  {
    if ids != [] {
      AppendDistinct(ids[1..], id);
      assert (ids + [id])[1..] == ids[1..] + [id];
    }
  }

  lemma StoredKeeps(p: Pool, id: Id, u: Usage)
    requires WellKept(p)
    ensures WellKept(Stored(p, id, u))
  {
    if id !in p.recs {
      AppendDistinct(p.order, id);
    }
  }

  // Sums over the records

  datatype Measure = TotalBytes | PendingBytes | SpareBytes | RequestedBytes

  function Measured(k: Measure, u: Usage): int {
    match k
    case TotalBytes => u.total
    case PendingBytes => u.pending
    case SpareBytes => Spare(u)
    case RequestedBytes => u.requested
  }

  function Sum(k: Measure, ids: seq<Id>, recs: Records): int {
    if ids == [] then 0
    else (if ids[0] in recs then Measured(k, recs[ids[0]]) else 0) + Sum(k, ids[1..], recs)
  }

  lemma {:induction false} SumSame(k: Measure, ids: seq<Id>, recs: Records, recs': Records)
    requires forall id <- ids :: Lookup(recs, id) == Lookup(recs', id)
    ensures Sum(k, ids, recs) == Sum(k, ids, recs')
  {
    if ids != [] {
      assert Lookup(recs, ids[0]) == Lookup(recs', ids[0]);
      SumSame(k, ids[1..], recs, recs');
    }
  }

  lemma {:induction false} SumAppend(k: Measure, ids: seq<Id>, id: Id, recs: Records)
    ensures Sum(k, ids + [id], recs) == Sum(k, ids, recs) + if id in recs then Measured(k, recs[id]) else 0
  {
    if ids != [] {
      SumAppend(k, ids[1..], id, recs);
      assert (ids + [id])[1..] == ids[1..] + [id];
    } else {
      assert ids + [id] == [id];
      assert [id][1..] == [];
    }
  }

  /** Changing one record changes a sum by the change of that record. */
  lemma {:induction false} SumUpdate(k: Measure, ids: seq<Id>, recs: Records, id: Id, u: Usage)
    requires Distinct(ids) && id in ids && id in recs
    ensures Sum(k, ids, recs[id := u]) == Sum(k, ids, recs) + Measured(k, u) - Measured(k, recs[id])
  {
    if ids[0] == id {
      SumSame(k, ids[1..], recs, recs[id := u]);
    } else {
      SumUpdate(k, ids[1..], recs, id, u);
    }
  }
}
