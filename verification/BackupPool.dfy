/** controller/backup_pool.py as the objects it changes in place. Every method is tied to the
    value functions of `BackupLedger` and `BackupAllocator`, about which the properties are
    proved. The clock is a parameter; telemetry fields are left out. */
module BackupPool {
  import opened Wrappers
  import opened BackupLedger
  import opened BackupAllocator

  class ClientBackupUsage {
    var protocol: int
    var capabilities: multiset<string>
    var pid: Option<int>
    var model: Option<string>
    var totalBytes: int
    var releasedBytesTotal: int
    var releaseCounterEnabled: Option<bool>
    var requiredForRestoreBytes: int
    var cacheOnlyBytes: int
    var invalidBytes: int
    var freeLocalBytes: int
    var diskBackupCurrentBytes: int
    var diskBackupReservedBytes: int
    var ramReclaimableWithDiskBytes: int
    var pendingReleaseBytes: int
    var requestedReleaseBytesTotal: int
    var updatedAt: real

    function View(): Usage
      reads this
    {
      Usage(protocol, capabilities, pid, model, totalBytes, releasedBytesTotal, releaseCounterEnabled,
            requiredForRestoreBytes, cacheOnlyBytes, invalidBytes, freeLocalBytes, diskBackupCurrentBytes,
            diskBackupReservedBytes, ramReclaimableWithDiskBytes, pendingReleaseBytes,
            requestedReleaseBytesTotal, updatedAt)
    }

    constructor (who: Identity, now: real)
      ensures View() == NewUsage(who, now)
    {
      protocol, capabilities, pid, model := who.protocol, who.capabilities, who.pid, who.model;
      totalBytes, releasedBytesTotal, releaseCounterEnabled := 0, 0, None;
      requiredForRestoreBytes, cacheOnlyBytes, invalidBytes, freeLocalBytes := 0, 0, 0, 0;
      diskBackupCurrentBytes, diskBackupReservedBytes, ramReclaimableWithDiskBytes := 0, 0, 0;
      pendingReleaseBytes, requestedReleaseBytesTotal := 0, 0;
      updatedAt := now;
    }

    function EvictableBytes(): int
      reads this
    {
      cacheOnlyBytes + invalidBytes + freeLocalBytes + ramReclaimableWithDiskBytes
    }

    /** Registering again: refused without effect, or only the identity is refreshed. */
    method Rebind(who: Identity, now: real) returns (refusal: Option<Refusal>)
      modifies this
      ensures refusal.Some? ==> Registered(Some(old(View())), who, now) == Err(refusal.value) && unchanged(this)
      ensures refusal.None? ==> Registered(Some(old(View())), who, now) == Ok(View())
    {
      if pid.Some? && who.pid.Some? && pid != who.pid {
        return Some(OtherProcess);
      }
      if protocol != who.protocol {
        return Some(ProtocolChanged);
      }
      if capabilities != who.capabilities {
        return Some(CapabilitiesChanged);
      }
      if who.pid.Some? {
        pid := who.pid;
      }
      model := who.model;
      updatedAt := now;
      return None;
    }

    /** The acknowledgement of a report. */
    method Credit(rep: Report)
      modifies this
      ensures View() == Credited(old(View()), rep)
    {
      var releasedBytes;
      if rep.released.None? {
        // Clients without the counter: an observed drop of the footprint.
        releasedBytes := Max(totalBytes - rep.total, 0);
      } else {
        releasedBytes := rep.released.value - releasedBytesTotal;
      }
      pendingReleaseBytes := Max(pendingReleaseBytes - releasedBytes, 0);
      totalBytes := rep.total;
      if rep.released.Some? {
        releasedBytesTotal := rep.released.value;
      }
      if releaseCounterEnabled.None? {
        releaseCounterEnabled := Some(rep.released.Some?);
      }
    }

    /** The reported accounting replaces the recorded one. */
    method ReplaceRam(rep: Report)
      modifies this
      ensures View() == ReplacedRam(old(View()), rep)
    {
      requiredForRestoreBytes := rep.required;
      cacheOnlyBytes := rep.cacheOnly;
      invalidBytes := rep.invalid;
      freeLocalBytes := rep.freeLocal;
    }

    method ReplaceDisk(rep: Report, now: real)
      modifies this
      ensures View() == ReplacedDisk(old(View()), rep, now)
    {
      diskBackupCurrentBytes := rep.diskCurrent;
      diskBackupReservedBytes := rep.diskReserved;
      ramReclaimableWithDiskBytes := rep.withDisk;
      updatedAt := now;
    }

    /** What an accepted report does to the record. */
    method Absorb(rep: Report, now: real)
      modifies this
      ensures View() == Filled(old(View()), rep, now)
    {
      hide Credited, ReplacedRam, ReplacedDisk, View;
      Credit(rep);
      ReplaceRam(rep);
      ReplaceDisk(rep, now);
    }

    method Owe(n: int)
      modifies this
      ensures View() == AfterGrant(old(View()), n)
    {
      pendingReleaseBytes := pendingReleaseBytes + n;
      requestedReleaseBytesTotal := requestedReleaseBytesTotal + n;
    }
  }

  class BackupPoolState {
    var clients: map<Id, ClientBackupUsage>
    var order: seq<Id> // the insertion order of `clients`
    const globalCap: Option<int>
    const priorities: Priorities

    constructor (globalCap: Option<int>, priorities: Priorities)
      ensures Valid() && View() == Pool([], map[])
      ensures this.globalCap == globalCap && this.priorities == priorities
    {
      clients, order := map[], [];
      this.globalCap, this.priorities := globalCap, priorities;
    }

    function Records(): Records
      reads this, clients.Values
    {
      map id | id in clients :: clients[id].View()
    }

    function View(): Pool
      reads this, clients.Values
    {
      Pool(order, Records())
    }

    /** Every client has its own record. */
    ghost predicate Valid()
      reads this, clients.Values
    {
      && (forall i, j :: i in clients && j in clients && i != j ==> clients[i] != clients[j])
      && WellKept(View())
    }

    /** Only the record of `id` has changed. */
    twostate lemma OneRecordChanged(id: Id)
      requires old(Valid()) && id in old(clients)
      requires clients == old(clients) && order == old(order)
      requires forall k <- clients :: k != id ==> unchanged(clients[k])
      ensures Valid() && Records() == old(Records())[id := clients[id].View()]
    {
      hide ClientBackupUsage.View;
      assert forall k <- clients :: k != id ==> clients[k].View() == old(clients[k].View());
      SameKeys(old(View()), View());
    }

    /** A refused registration changes nothing. */
    method RegisterClient(id: Id, who: Identity, now: real) returns (r: Result<ClientBackupUsage, Refusal>)
      requires Valid()
      modifies this`clients, this`order, clients.Values
      ensures Valid() && View() == RegisterIn(old(View()), id, who, now)
      ensures r.Err? ==> Registered(Lookup(old(Records()), id), who, now) == Err(r.error)
      ensures r.Err? ==> unchanged(this) && unchanged(old(clients.Values))
      ensures r.Ok? ==> id in clients && clients[id] == r.value
                        && Registered(Lookup(old(Records()), id), who, now) == Ok(r.value.View())
      ensures r.Ok? ==> r.value in old(clients.Values) || fresh(r.value)
      ensures r.Ok? <==> id !in old(clients) || SameProcess(old(Records())[id], who)
    {
      if id !in clients {
        var record := AddClient(id, who, now);
        return Ok(record);
      }
      var record := clients[id];
      var refusal := record.Rebind(who, now);
      hide Registered;
      if refusal.Some? {
        return Err(refusal.value);
      }
      OneRecordChanged(id);
      return Ok(record);
    }

    /** A record has been added, the others are as they were. */
    twostate lemma OneRecordAdded(id: Id, new record: ClientBackupUsage)
      requires old(Valid()) && id !in old(clients)
      requires clients == old(clients)[id := record] && order == old(order) + [id]
      requires forall k <- old(clients) :: old(clients)[k] != record && unchanged(old(clients)[k])
      ensures Valid() && Records() == old(Records())[id := record.View()]
    {
      hide ClientBackupUsage.View, WellKept;
      StoredKeeps(old(View()), id, record.View());
      assert forall k <- old(clients) :: clients[k].View() == old(clients[k].View());
      assert Records() == old(Records())[id := record.View()];
    }

    method AddClient(id: Id, who: Identity, now: real) returns (record: ClientBackupUsage)
      requires Valid() && id !in clients
      modifies this`clients, this`order
      ensures Valid() && View() == Stored(old(View()), id, NewUsage(who, now))
      ensures fresh(record) && record.View() == NewUsage(who, now)
      ensures id in clients && clients[id] == record
    {
      hide ClientBackupUsage.View, WellKept, NewUsage;
      record := new ClientBackupUsage(who, now);
      clients := clients[id := record];
      order := order + [id];
      OneRecordAdded(id, record);
    }

    method Precheck(id: Id, rep: Report) returns (refusal: Option<Refusal>)
      requires Valid()
      ensures refusal == Prechecked(Lookup(Records(), id), rep)
    {
      if rep.withDisk > rep.required {
        return Some(DiskExceedsRequired);
      }
      if rep.withDisk > 0 && rep.diskCurrent == 0 && rep.diskReserved == 0 {
        return Some(NoDiskSource);
      }
      var counterEnabled := rep.released.Some?;
      if id in clients {
        var existing := clients[id];
        if existing.releaseCounterEnabled.Some? && existing.releaseCounterEnabled.value != counterEnabled {
          return Some(CounterPresenceChanged);
        }
        if rep.released.Some? && rep.released.value < existing.releasedBytesTotal {
          return Some(CounterDecreased);
        }
      }
      return None;
    }

    /** A refused report changes nothing; an accepted one acknowledges and replaces. */
    method ReportUsage(id: Id, rep: Report, now: real) returns (r: Result<ClientBackupUsage, Refusal>)
      requires Valid()
      modifies this`clients, this`order, clients.Values
      ensures Valid() && View() == ReportIn(old(View()), id, rep, now)
      ensures r.Err? ==> Reported(Lookup(old(Records()), id), rep, now) == Err(r.error)
      ensures r.Err? ==> unchanged(this) && unchanged(old(clients.Values))
      ensures r.Ok? ==> id in clients && clients[id] == r.value
                        && Reported(Lookup(old(Records()), id), rep, now) == Ok(r.value.View())
      ensures r.Ok? <==> Acceptable(Lookup(old(Records()), id), rep)
      ensures r.Ok? ==> Shows(r.value.View(), Lookup(old(Records()), id), rep, now)
    {
      hide Registered, Prechecked, Filled, ClientBackupUsage.View, WellKept, Acceptable, Shows;
      AcceptedExactly(Lookup(Records(), id), rep, now);
      var refusal := Precheck(id, rep);
      if refusal.Some? {
        return Err(refusal.value);
      }
      var registration := RegisterClient(id, rep.who, now);
      if registration.Err? {
        return Err(registration.error);
      }
      var record := registration.value;
      label registered:
      record.Absorb(rep, now);
      OneRecordChanged@registered(id);
      AcceptedShows(Lookup(old(Records()), id), rep, now);
      return Ok(record);
    }

    method RequestRelease(id: Id, target: int) returns (queued: int)
      requires Valid()
      modifies clients.Values
      ensures Valid() && View() == ReleaseIn(old(View()), id, target)
      ensures queued == if id in clients then Grant(old(clients[id].View()), target) else 0
      ensures id !in clients || target <= 0 ==> queued == 0 && View() == old(View())
      ensures id in clients && target > 0 ==>
                queued == Min(target, Max(old(clients[id].EvictableBytes()) - old(clients[id].pendingReleaseBytes), 0))
    {
      if target <= 0 || id !in clients {
        assert View().recs == ReleaseIn(View(), id, target).recs;
        return 0;
      }
      var record := clients[id];
      var available := Max(record.EvictableBytes() - record.pendingReleaseBytes, 0);
      queued := Min(target, available);
      if queued <= 0 {
        assert View().recs == ReleaseIn(View(), id, target).recs;
        return 0;
      }
      hide AfterGrant;
      record.Owe(queued);
      OneRecordChanged(id);
    }

    /** Reading a command changes nothing: the poll can be repeated. */
    method ReleaseRequestSnapshot(id: Id) returns (requested: int, pending: int)
      requires Valid()
      ensures requested == (if id in clients then View().recs[id].requested else 0)
      ensures pending == (if id in clients then View().recs[id].pending else 0)
    {
      if id !in clients {
        return 0, 0;
      }
      return clients[id].requestedReleaseBytesTotal, clients[id].pendingReleaseBytes;
    }

    lemma KeepsOrder()
      requires Valid()
      ensures WellKept(View())
    {
    }

    /** The allocation loop. */
    method RequestReleaseBytes(target: int) returns (queued: map<Id, int>)
      requires Valid()
      modifies clients.Values
      ensures Valid() && View() == RequestIn(priorities, old(View()), target)
      ensures IsReceipt(old(Records()), Records(), queued)
      ensures InTurn(priorities, old(Records()), Records(), queued)
      ensures QueuedSum(order, queued) == Min(Max(target, 0), Sum(SpareBytes, order, old(Records())))
    {
      hide ClientBackupUsage.View, WellKept, Grant, AfterGrant, Granted, IsReceipt, Distinct, Order, LoopInv, Evictable, Valid;
      KeepsOrder();
      queued := map[];
      var bytesToFree := Max(target, 0);
      var candidates := Order(priorities, View());
      OrderDistinct(priorities, View());
      LoopStarts(candidates, Records(), target);
      var i := 0;
      while i < |candidates| && bytesToFree > 0
        invariant Valid() && clients == old(clients) && order == old(order)
        invariant 0 <= i <= |candidates| && bytesToFree >= 0
        invariant LoopInv(candidates, i, target, old(Records()), Records(), bytesToFree, queued)
      {
        var id := candidates[i];
        LoopStep(candidates, i, target, old(Records()), Records(), bytesToFree, queued);
        var available := clients[id].EvictableBytes() - clients[id].pendingReleaseBytes;
        EvictableView(clients[id]);
        var requested := RequestRelease(id, Min(bytesToFree, available));
        if requested > 0 {
          queued := queued[id := requested];
          bytesToFree := bytesToFree - requested;
        }
        i := i + 1;
      }
      LoopEnds(candidates, i, target, old(Records()), Records(), bytesToFree, queued);
      RequestInTurn(priorities, old(View()), target, queued);
      RequestTotals(priorities, old(View()), target);
      ReceiptAddsUp(order, old(Records()), Records(), queued);
    }

    /** Requests towards the hard cap, if there is one. */
    method MaybeEnqueueReleaseRequests() returns (queued: map<Id, int>)
      requires Valid()
      modifies clients.Values
      ensures Valid()
      ensures View() == if globalCap.Some? then CapIn(priorities, old(View()), globalCap.value) else old(View())
      ensures IsReceipt(old(Records()), Records(), queued)
      ensures var total, pending := Sum(TotalBytes, order, old(Records())), Sum(PendingBytes, order, old(Records()));
        var spare := Sum(SpareBytes, order, old(Records()));
        if globalCap.None? || total - pending <= globalCap.value then queued == map[] && View() == old(View())
        else QueuedSum(order, queued) == Min(total - pending - globalCap.value, spare)
    {
      hide IsReceipt, WellKept, ClientBackupUsage.View, InTurn, Sum;
      if globalCap.None? {
        NothingQueued(Records());
        return map[];
      }
      CapReached(priorities, View(), globalCap.value);
      var overCap, pending := Stats();
      queued := RequestReleaseBytes(overCap);
      EmptyReceipt(old(Records()), Records(), queued);
      SumSpareNonNegative(order, old(Records()));
    }

    /** The two figures of `stats` that decide anything, added up record by record. */
    method Stats() returns (overCap: int, pending: int)
      requires Valid()
      ensures overCap == if globalCap.Some? then OverCap(View(), globalCap.value) else 0
      ensures globalCap.Some? && Sum(TotalBytes, order, Records()) - pending > globalCap.value ==>
                overCap == Sum(TotalBytes, order, Records()) - pending - globalCap.value
      ensures globalCap.None? || Sum(TotalBytes, order, Records()) - pending <= globalCap.value ==> overCap == 0
      ensures pending == Sum(PendingBytes, order, Records())
    {
      hide ClientBackupUsage.View;
      var total := 0;
      pending := 0;
      var i := 0;
      KeepsOrder();
      while i < |order|
        invariant 0 <= i <= |order|
        invariant total == Sum(TotalBytes, order[..i], Records())
        invariant pending == Sum(PendingBytes, order[..i], Records())
      {
        SumAppend(TotalBytes, order[..i], order[i], Records());
        SumAppend(PendingBytes, order[..i], order[i], Records());
        assert order[..i + 1] == order[..i] + [order[i]];
        assert order[i] in order;
        FiguresView(clients[order[i]]);
        total := total + clients[order[i]].totalBytes;
        pending := pending + clients[order[i]].pendingReleaseBytes;
        i := i + 1;
      }
      assert order[..i] == order;
      overCap := if globalCap.Some? then Max(total - globalCap.value - pending, 0) else 0;
    }
  }

  lemma FiguresView(c: ClientBackupUsage)
    ensures c.totalBytes == c.View().total && c.pendingReleaseBytes == c.View().pending
  {
  }

  lemma EmptyReceipt(recs: Records, recs': Records, queued: map<Id, int>)
    requires IsReceipt(recs, recs', queued)
    ensures recs' == recs ==> queued == map[]
  {
    assert recs' == recs ==> forall id :: id !in queued;
  }

  function QueuedSum(ids: seq<Id>, queued: map<Id, int>): int {
    if ids == [] then 0 else (if ids[0] in queued then queued[ids[0]] else 0) + QueuedSum(ids[1..], queued)
  }

  /** The receipt of a request adds up to the growth of the commands, and of what is pending. */
  lemma {:induction false} ReceiptAddsUp(ids: seq<Id>, recs: Records, recs': Records, queued: map<Id, int>)
    requires IsReceipt(recs, recs', queued)
    ensures QueuedSum(ids, queued) == Sum(RequestedBytes, ids, recs') - Sum(RequestedBytes, ids, recs)
    ensures QueuedSum(ids, queued) == Sum(PendingBytes, ids, recs') - Sum(PendingBytes, ids, recs)
  {
    if ids != [] {
      ReceiptAddsUp(ids[1..], recs, recs', queued);
    }
  }

  /** Nobody is asked while a client that comes before it still has something to spare. */
  ghost predicate InTurn(pr: Priorities, recs: Records, recs': Records, queued: map<Id, int>) {
    forall x, y :: y in queued && y in recs && x in recs && x in recs' && Left(recs'[x]) > 0 ==>
      NotBefore(pr, recs[x], recs[y])
  }

  lemma RequestInTurn(pr: Priorities, p: Pool, t: int, queued: map<Id, int>)
    requires WellKept(p) && IsReceipt(p.recs, RequestIn(pr, p, t).recs, queued)
    ensures InTurn(pr, p.recs, RequestIn(pr, p, t).recs, queued)
  {
    var recs' := RequestIn(pr, p, t).recs;
    hide RequestIn, WellKept, NotBefore, Left;
    forall x, y | y in queued && y in p.recs && x in p.recs && x in recs' && Left(recs'[x]) > 0
      ensures NotBefore(pr, p.recs[x], p.recs[y])
    {
      VictimOrder(pr, p, t, x, y);
    }
  }

  lemma NothingQueued(recs: Records)
    ensures IsReceipt(recs, recs, map[])
  {
  }

  lemma EvictableView(c: ClientBackupUsage)
    ensures c.EvictableBytes() == Evictable(c.View()) && c.pendingReleaseBytes == c.View().pending
  {
  }

  /** `queued` names exactly the clients whose records changed, with what each was asked for. */
  ghost predicate IsReceipt(recs: Records, recs': Records, queued: map<Id, int>) {
    && recs'.Keys == recs.Keys
    && (forall id :: id in queued <==> id in recs && recs'[id] != recs[id])
    && (forall id <- queued :: queued[id] > 0 && recs'[id] == AfterGrant(recs[id], queued[id]))
  }

  /** The allocation loop has gone through the first `i` candidates. */
  ghost predicate LoopInv(ids: seq<Id>, i: nat, target: int, recs0: Records, recs: Records, left: int,
                          queued: map<Id, int>) {
    && i <= |ids| && left >= 0 && Known(ids, recs0) && Known(ids, recs)
    && Distinct(ids[i..])
    && Granted(ids[i..], recs, left) == Granted(ids, recs0, target)
    && (forall id <- ids :: Spare(recs0[id]) > 0)
    && (forall id <- ids[i..] :: recs[id] == recs0[id] && id !in queued)
    && IsReceipt(recs0, recs, queued)
  }

  lemma LoopStarts(ids: seq<Id>, recs: Records, target: int)
    requires Known(ids, recs) && Distinct(ids) && forall id <- ids :: Spare(recs[id]) > 0
    ensures LoopInv(ids, 0, target, recs, recs, Max(target, 0), map[])
  {
    assert ids[0..] == ids;
  }

  lemma LoopStep(ids: seq<Id>, i: nat, target: int, recs0: Records, recs: Records, left: int, queued: map<Id, int>)
    requires LoopInv(ids, i, target, recs0, recs, left, queued) && i < |ids| && left > 0
    ensures var id := ids[i];
      && id in recs
      && var available := Evictable(recs[id]) - recs[id].pending;
      && var g := Grant(recs[id], Min(left, available));
      && 0 < g <= left && LoopInv(ids, i + 1, target, recs0, recs[id := AfterGrant(recs[id], g)], left - g, queued[id := g])
  {
    var id := ids[i];
    assert ids[i..][0] == id && ids[i..][1..] == ids[i + 1..];
    assert id in ids[i..];
    var g := Grant(recs[id], left);
    assert recs[id := AfterGrant(recs[id], g)][id] != recs0[id];
  }

  lemma LoopEnds(ids: seq<Id>, i: nat, target: int, recs0: Records, recs: Records, left: int, queued: map<Id, int>)
    requires LoopInv(ids, i, target, recs0, recs, left, queued) && (i == |ids| || left == 0)
    ensures recs == Granted(ids, recs0, target) && IsReceipt(recs0, recs, queued)
  {
  }

  lemma SameKeys(p: Pool, p': Pool)
    requires WellKept(p) && p'.order == p.order && p'.recs.Keys == p.recs.Keys
    ensures WellKept(p')
  {
  }
}
