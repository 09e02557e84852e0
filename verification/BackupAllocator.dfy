/** How `request_release_bytes` of controller/backup_pool.py splits a byte target over the
    clients: lower model priority first, then the older report, then the larger spare part. */
module BackupAllocator {
  import opened Wrappers
  import opened BackupLedger

  datatype Priorities = Priorities(table: map<string, int>, fallback: int)

  /** `model_priority`. */
  function PriorityOf(pr: Priorities, model: Option<string>): int {
    if model.Some? && model.value in pr.table then pr.table[model.value] else pr.fallback
  }

  function PriorityAt(pr: Priorities, recs: Records, id: Id): int {
    if id in recs then PriorityOf(pr, recs[id].model) else pr.fallback
  }

  /** The sort key of `x` is strictly below that of `y`. */
  predicate Precedes(pr: Priorities, recs: Records, x: Id, y: Id)
    requires x in recs && y in recs
  {
    var a, b := recs[x], recs[y];
    var p, q := PriorityOf(pr, a.model), PriorityOf(pr, b.model);
    p < q || (p == q && (a.updatedAt < b.updatedAt || (a.updatedAt == b.updatedAt && Spare(a) > Spare(b))))
  }

  predicate Known(ids: seq<Id>, recs: Records) {
    forall id <- ids :: id in recs
  }

  function Insert(pr: Priorities, recs: Records, x: Id, ids: seq<Id>): (r: seq<Id>)
    requires x in recs && Known(ids, recs)
    ensures multiset(r) == multiset{x} + multiset(ids)
    ensures Known(r, recs)
  {
    if ids == [] || !Precedes(pr, recs, ids[0], x) then [x] + ids
    else
      var r := [ids[0]] + Insert(pr, recs, x, ids[1..]);
      assert ids == [ids[0]] + ids[1..];
      r
  }

  /** A stable sort by the key. */
  function SortIds(pr: Priorities, recs: Records, ids: seq<Id>): (r: seq<Id>)
    requires Known(ids, recs)
    ensures multiset(r) == multiset(ids)
    ensures Known(r, recs)
  {
    if ids == [] then []
    else
      assert ids == [ids[0]] + ids[1..];
      Insert(pr, recs, ids[0], SortIds(pr, recs, ids[1..]))
  }

  /** The clients that have something to give, in the order they appeared. */
  function Candidates(ids: seq<Id>, recs: Records): (r: seq<Id>)
    ensures Known(r, recs)
    ensures forall id :: id in r <==> id in ids && id in recs && Spare(recs[id]) > 0
  {
    if ids == [] then []
    else
      var rest := Candidates(ids[1..], recs);
      if ids[0] in recs && Spare(recs[ids[0]]) > 0 then [ids[0]] + rest else rest
  }

  /** The records after the allocation loop has gone through `ids` with `t` bytes to free. */
  function Granted(ids: seq<Id>, recs: Records, t: int): Records
    requires Known(ids, recs)
  {
    if ids == [] || t <= 0 then recs
    else
      var g := Grant(recs[ids[0]], t);
      Granted(ids[1..], recs[ids[0] := AfterGrant(recs[ids[0]], g)], t - g)
  }

  /** `request_release_bytes` on the whole pool. */
  function Order(pr: Priorities, p: Pool): seq<Id> {
    SortIds(pr, p.recs, Candidates(p.order, p.recs))
  }

  function RequestIn(pr: Priorities, p: Pool, t: int): Pool {
    p.(recs := Granted(Order(pr, p), p.recs, t))
  }

  // ---------------------------------------------------------------------------
  // The order

  ghost predicate Ordered(pr: Priorities, recs: Records, ids: seq<Id>)
    requires Known(ids, recs)
  {
    forall i, j :: 0 <= i < j < |ids| ==> !Precedes(pr, recs, ids[j], ids[i])
  }

  lemma {:induction false} InsertOrdered(pr: Priorities, recs: Records, x: Id, ids: seq<Id>)
    requires x in recs && Known(ids, recs) && Ordered(pr, recs, ids)
    ensures Ordered(pr, recs, Insert(pr, recs, x, ids))
  {
    if ids == [] {
    } else if !Precedes(pr, recs, ids[0], x) {
      forall j | 0 <= j < |ids| ensures !Precedes(pr, recs, ids[j], x) {
      }
    } else {
      var rest := Insert(pr, recs, x, ids[1..]);
      InsertOrdered(pr, recs, x, ids[1..]);
      forall y <- rest ensures !Precedes(pr, recs, y, ids[0]) {
        assert y in multiset(rest);
        if y != x {
          assert y in ids[1..];
        }
      }
    }
  }

  lemma {:induction false} SortOrdered(pr: Priorities, recs: Records, ids: seq<Id>)
    requires Known(ids, recs)
    ensures Ordered(pr, recs, SortIds(pr, recs, ids))
  {
    if ids != [] {
      SortOrdered(pr, recs, ids[1..]);
      InsertOrdered(pr, recs, ids[0], SortIds(pr, recs, ids[1..]));
    }
  }

  /** The members of `ids` whose key equals that of `x`. */
  function Tied(pr: Priorities, recs: Records, ids: seq<Id>, x: Id): seq<Id>
    requires x in recs && Known(ids, recs)
  {
    if ids == [] then []
    else
      var rest := Tied(pr, recs, ids[1..], x);
      if !Precedes(pr, recs, ids[0], x) && !Precedes(pr, recs, x, ids[0]) then [ids[0]] + rest else rest
  }

  lemma {:induction false} InsertStable(pr: Priorities, recs: Records, y: Id, ids: seq<Id>, x: Id)
    requires y in recs && x in recs && Known(ids, recs)
    ensures Tied(pr, recs, Insert(pr, recs, y, ids), x) == Tied(pr, recs, [y] + ids, x)
  {
    assert ([y] + ids)[1..] == ids;
    if ids != [] && Precedes(pr, recs, ids[0], y) {
      InsertStable(pr, recs, y, ids[1..], x);
      assert ([y] + ids[1..])[1..] == ids[1..];
    }
  }

  /** Clients with equal keys keep the order in which they appeared. */
  lemma {:induction false} SortStable(pr: Priorities, recs: Records, ids: seq<Id>, x: Id)
    requires x in recs && Known(ids, recs)
    ensures Tied(pr, recs, SortIds(pr, recs, ids), x) == Tied(pr, recs, ids, x)
  {
    if ids != [] {
      SortStable(pr, recs, ids[1..], x);
      InsertStable(pr, recs, ids[0], SortIds(pr, recs, ids[1..]), x);
      var s := SortIds(pr, recs, ids[1..]);
      assert ([ids[0]] + s)[1..] == s;
    }
  }

  lemma {:induction false} DistinctByMultiset(ids: seq<Id>)
    ensures Distinct(ids) <==> forall x <- ids :: multiset(ids)[x] == 1
  {
    if ids != [] {
      var rest := ids[1..];
      DistinctByMultiset(rest);
      assert ids == [ids[0]] + rest;
      assert forall x :: multiset(ids)[x] == multiset(rest)[x] + if x == ids[0] then 1 else 0;
      assert forall x :: x in rest <==> multiset(rest)[x] > 0;
      if Distinct(ids) {
        forall x <- ids ensures multiset(ids)[x] == 1 {
          if x != ids[0] { assert x in rest; }
        }
      } else if ids[0] in rest {
        assert multiset(ids)[ids[0]] > 1;
      } else {
        var x :| x in rest && multiset(rest)[x] != 1;
        assert x in ids && multiset(ids)[x] != 1;
      }
    }
  }

  lemma {:induction false} CandidatesDistinct(ids: seq<Id>, recs: Records)
    requires Distinct(ids)
    ensures Distinct(Candidates(ids, recs))
  {
    if ids != [] {
      CandidatesDistinct(ids[1..], recs);
      var rest := Candidates(ids[1..], recs);
      assert ([ids[0]] + rest)[1..] == rest;
    }
  }

  lemma OrderDistinct(pr: Priorities, p: Pool)
    requires WellKept(p)
    ensures Distinct(Order(pr, p))
    ensures forall id :: id in Order(pr, p) <==> id in p.recs && Spare(p.recs[id]) > 0
  {
    var cs := Candidates(p.order, p.recs);
    var ids := Order(pr, p);
    CandidatesDistinct(p.order, p.recs);
    DistinctByMultiset(cs);
    DistinctByMultiset(ids);
    assert forall id :: id in ids <==> id in multiset(ids);
    assert forall id :: id in cs <==> id in multiset(cs);
  }

  // ---------------------------------------------------------------------------
  // What the loop takes

  /** Bytes queued on the clients of `ids` between two states of the records. */
  function Taken(ids: seq<Id>, recs: Records, recs': Records): int {
    Sum(PendingBytes, ids, recs') - Sum(PendingBytes, ids, recs)
  }

  lemma {:induction false} GrantedElsewhere(ids: seq<Id>, recs: Records, t: int)
    requires Known(ids, recs)
    ensures var recs' := Granted(ids, recs, t);
      && recs'.Keys == recs.Keys
      && forall id <- recs :: id !in ids ==> recs'[id] == recs[id]
    decreases |ids|
  {
    if ids != [] && t > 0 {
      var g := Grant(recs[ids[0]], t);
      GrantedElsewhere(ids[1..], recs[ids[0] := AfterGrant(recs[ids[0]], g)], t - g);
    }
  }

  /** A record that is granted something changes in its obligation only. */
  lemma {:induction false} GrantedRecords(ids: seq<Id>, recs: Records, t: int)
    requires Known(ids, recs) && Distinct(ids)
    ensures var recs' := Granted(ids, recs, t);
      forall id <- recs :: id in recs' && exists n :: 0 <= n <= Spare(recs[id]) && recs'[id] == AfterGrant(recs[id], n)
    decreases |ids|
  {
    GrantedElsewhere(ids, recs, t);
    var recs' := Granted(ids, recs, t);
    forall id <- recs
      ensures exists n :: 0 <= n <= Spare(recs[id]) && recs'[id] == AfterGrant(recs[id], n)
    {
      if ids == [] || t <= 0 {
        assert recs'[id] == AfterGrant(recs[id], 0);
      } else {
        var g := Grant(recs[ids[0]], t);
        var recs1 := recs[ids[0] := AfterGrant(recs[ids[0]], g)];
        GrantedElsewhere(ids[1..], recs1, t - g);
        if id == ids[0] {
          assert recs'[id] == AfterGrant(recs[id], g);
        } else {
          GrantedRecords(ids[1..], recs1, t - g);
          var n :| 0 <= n <= Spare(recs1[id]) && recs'[id] == AfterGrant(recs1[id], n);
          assert recs'[id] == AfterGrant(recs[id], n);
        }
      }
    }
  }

  /** The key fact: every prefix of the order gives the target or all it has. */
  lemma {:induction false} PrefixTaken(ids: seq<Id>, recs: Records, t: int, n: nat)
    requires Known(ids, recs) && Distinct(ids) && n <= |ids|
    ensures Taken(ids[..n], recs, Granted(ids, recs, t)) == Min(Max(t, 0), Sum(SpareBytes, ids[..n], recs))
    decreases |ids|
  {
    SumSpareNonNegative(ids[..n], recs);
    if n == 0 || t <= 0 {
      return;
    }
    var x := ids[0];
    var g := Grant(recs[x], t);
    var recs1 := recs[x := AfterGrant(recs[x], g)];
    var recs' := Granted(ids, recs, t);
    var rest := ids[1..];
    assert ids[..n][1..] == rest[..n - 1];
    PrefixTaken(rest, recs1, t - g, n - 1);
    GrantedElsewhere(rest, recs1, t - g);
    SumSame(PendingBytes, rest[..n - 1], recs, recs1);
    SumSame(SpareBytes, rest[..n - 1], recs, recs1);
    SumSpareNonNegative(rest[..n - 1], recs);
  }

  lemma {:induction false} SumSpareNonNegative(ids: seq<Id>, recs: Records)
    ensures Sum(SpareBytes, ids, recs) >= 0
  {
    if ids != [] {
      SumSpareNonNegative(ids[1..], recs);
    }
  }

  /** Any other way to hand out at most `t` bytes, nobody asked for more than it has. */
  ghost predicate IsPlan(ids: seq<Id>, recs: Records, t: int, plan: map<Id, int>) {
    && (forall id <- ids :: id in recs && id in plan && 0 <= plan[id] <= Spare(recs[id]))
    && PlanSum(ids, plan) <= Max(t, 0)
  }

  function PlanSum(ids: seq<Id>, plan: map<Id, int>): int {
    if ids == [] then 0
    else (if ids[0] in plan then plan[ids[0]] else 0) + PlanSum(ids[1..], plan)
  }

  lemma {:induction false} PlanBounded(ids: seq<Id>, recs: Records, plan: map<Id, int>, n: nat)
    requires forall id <- ids :: id in recs && id in plan && 0 <= plan[id] <= Spare(recs[id])
    requires n <= |ids|
    ensures PlanSum(ids[..n], plan) <= Sum(SpareBytes, ids[..n], recs)
    ensures PlanSum(ids[..n], plan) <= PlanSum(ids, plan)
    ensures 0 <= PlanSum(ids, plan)
  {
    if ids != [] {
      if n > 0 {
        assert ids[..n][1..] == ids[1..][..n - 1];
        PlanBounded(ids[1..], recs, plan, n - 1);
      } else {
        PlanBounded(ids[1..], recs, plan, 0);
      }
    }
  }

  /** Greedy is optimal on every prefix of the order at once. */
  lemma GreedyOptimal(ids: seq<Id>, recs: Records, t: int, plan: map<Id, int>, n: nat)
    requires Known(ids, recs) && Distinct(ids) && n <= |ids| && IsPlan(ids, recs, t, plan)
    ensures PlanSum(ids[..n], plan) <= Taken(ids[..n], recs, Granted(ids, recs, t))
  {
    PrefixTaken(ids, recs, t, n);
    PlanBounded(ids, recs, plan, n);
  }

  /** A priority threshold cuts the order into a prefix and the rest. */
  lemma ThresholdIsPrefix(pr: Priorities, recs: Records, ids: seq<Id>, limit: int) returns (n: nat)
    requires Known(ids, recs) && Ordered(pr, recs, ids)
    ensures n <= |ids|
    ensures forall i :: 0 <= i < n ==> PriorityAt(pr, recs, ids[i]) <= limit
    ensures forall i :: n <= i < |ids| ==> PriorityAt(pr, recs, ids[i]) > limit
  {
    n := 0;
    while n < |ids| && PriorityAt(pr, recs, ids[n]) <= limit
      invariant n <= |ids|
      invariant forall i :: 0 <= i < n ==> PriorityAt(pr, recs, ids[i]) <= limit
    {
      n := n + 1;
    }
  }

  /** The members of `ids` with priority at most `limit`. */
  function UpTo(pr: Priorities, recs: Records, ids: seq<Id>, limit: int): seq<Id> {
    if ids == [] then []
    else
      var rest := UpTo(pr, recs, ids[1..], limit);
      if PriorityAt(pr, recs, ids[0]) <= limit then [ids[0]] + rest else rest
  }

  lemma {:induction false} UpToIsPrefix(pr: Priorities, recs: Records, ids: seq<Id>, limit: int, n: nat)
    requires n <= |ids|
    requires forall i :: 0 <= i < n ==> PriorityAt(pr, recs, ids[i]) <= limit
    requires forall i :: n <= i < |ids| ==> PriorityAt(pr, recs, ids[i]) > limit
    ensures UpTo(pr, recs, ids, limit) == ids[..n]
  {
    if ids != [] {
      UpToIsPrefix(pr, recs, ids[1..], limit, if n > 0 then n - 1 else 0);
      if n > 0 {
        assert ids[..n] == [ids[0]] + ids[1..][..n - 1];
      }
    }
  }

  /** So no plan takes more from the clients up to any priority than the allocator does. */
  lemma LowPrioritiesFirst(pr: Priorities, p: Pool, t: int, plan: map<Id, int>, limit: int)
    requires WellKept(p) && IsPlan(Order(pr, p), p.recs, t, plan)
    ensures var low := UpTo(pr, p.recs, Order(pr, p), limit);
      PlanSum(low, plan) <= Taken(low, p.recs, RequestIn(pr, p, t).recs)
  {
    var ids := Order(pr, p);
    OrderDistinct(pr, p);
    SortOrdered(pr, p.recs, Candidates(p.order, p.recs));
    var n := ThresholdIsPrefix(pr, p.recs, ids, limit);
    UpToIsPrefix(pr, p.recs, ids, limit, n);
    GreedyOptimal(ids, p.recs, t, plan, n);
  }

  /** At most one client gives a nonzero part of what it has: before it all give everything,
      after it none gives anything. */
  lemma {:induction false} OnePartial(ids: seq<Id>, recs: Records, t: int) returns (k: nat)
    requires Known(ids, recs) && Distinct(ids)
    ensures var recs' := Granted(ids, recs, t);
      && k <= |ids| && recs'.Keys == recs.Keys
      && (forall i :: 0 <= i < k ==> recs'[ids[i]] == AfterGrant(recs[ids[i]], Spare(recs[ids[i]])))
      && (forall i :: k < i < |ids| ==> recs'[ids[i]] == recs[ids[i]])
    decreases |ids|
  {
    GrantedElsewhere(ids, recs, t);
    if ids == [] || t <= 0 {
      return 0;
    }
    var x, rest := ids[0], ids[1..];
    var g := Grant(recs[x], t);
    var recs1 := recs[x := AfterGrant(recs[x], g)];
    GrantedElsewhere(rest, recs1, t - g);
    if g < Spare(recs[x]) {
      return 0;
    }
    var k1 := OnePartial(rest, recs1, t - g);
    k := k1 + 1;
    var recs' := Granted(ids, recs, t);
    forall i | 0 <= i < k ensures recs'[ids[i]] == AfterGrant(recs[ids[i]], Spare(recs[ids[i]])) {
      if i > 0 { assert ids[i] == rest[i - 1]; }
    }
    forall i | k < i < |ids| ensures recs'[ids[i]] == recs[ids[i]] {
      assert ids[i] == rest[i - 1];
    }
  }

  /** In an ordered list, what strictly precedes comes earlier. */
  lemma PrecedesEarlier(pr: Priorities, recs: Records, ids: seq<Id>, i: nat, j: nat)
    requires Known(ids, recs) && Ordered(pr, recs, ids) && i < |ids| && j < |ids|
    requires Precedes(pr, recs, ids[i], ids[j])
    ensures i < j
  {
  }

  /** Bytes the client could still be asked for, by its figures. */
  function Left(u: Usage): int {
    u.cacheOnly + u.invalid + u.freeLocal + u.withDisk - u.pending
  }

  /** `a` does not come before `b`: its model has no lower priority, at the same priority its
      report is not older, and at the same age it does not have more to spare. */
  predicate NotBefore(pr: Priorities, a: Usage, b: Usage) {
    var aPriority := if a.model.Some? && a.model.value in pr.table then pr.table[a.model.value] else pr.fallback;
    var bPriority := if b.model.Some? && b.model.value in pr.table then pr.table[b.model.value] else pr.fallback;
    && aPriority >= bPriority
    && (aPriority == bPriority ==> a.updatedAt >= b.updatedAt)
    && (aPriority == bPriority && a.updatedAt == b.updatedAt ==> Left(a) <= Left(b))
  }

  /** Candidates are asked in this order. */
  lemma VictimsInOrder(pr: Priorities, p: Pool)
    requires WellKept(p)
    ensures var ids := Order(pr, p);
      forall i, j :: 0 <= i < j < |ids| ==> NotBefore(pr, p.recs[ids[j]], p.recs[ids[i]])
  {
    var ids := Order(pr, p);
    OrderDistinct(pr, p);
    SortOrdered(pr, p.recs, Candidates(p.order, p.recs));
    forall i, j | 0 <= i < j < |ids| ensures NotBefore(pr, p.recs[ids[j]], p.recs[ids[i]]) {
      assert ids[i] in ids && ids[j] in ids;
      assert !Precedes(pr, p.recs, ids[j], ids[i]);
    }
  }

  /** Who is asked before whom: while a client still has something to spare, nobody is asked
      before whom it comes. */
  lemma VictimOrder(pr: Priorities, p: Pool, t: int, x: Id, y: Id)
    requires WellKept(p) && x in p.recs && y in p.recs
    requires var recs' := RequestIn(pr, p, t).recs;
      x in recs' && y in recs' && recs'[y] != p.recs[y] && Left(recs'[x]) > 0
    ensures NotBefore(pr, p.recs[x], p.recs[y])
  {
    if x != y && Precedes(pr, p.recs, x, y) {
      OneBeforeOther(pr, p, t, x, y);
    }
    RequestRecords(pr, p, t, y);
    RequestRecords(pr, p, t, x);
  }

  /** If anything is taken from one client of the list, all before it have given everything. */
  lemma AllBeforeGiven(ids: seq<Id>, recs: Records, t: int, i: nat, j: nat)
    requires Known(ids, recs) && Distinct(ids) && i < j < |ids|
    requires var recs' := Granted(ids, recs, t); ids[i] in recs' && ids[j] in recs' && recs'[ids[j]] != recs[ids[j]]
    ensures Spare(Granted(ids, recs, t)[ids[i]]) == 0
  {
    hide Granted, Distinct;
    var k := OnePartial(ids, recs, t);
  }

  lemma OneBeforeOther(pr: Priorities, p: Pool, t: int, x: Id, y: Id)
    requires WellKept(p) && x in p.recs && y in p.recs && Precedes(pr, p.recs, x, y)
    requires var recs' := RequestIn(pr, p, t).recs;
      x in recs' && y in recs' && recs'[y] != p.recs[y]
    ensures Spare(RequestIn(pr, p, t).recs[x]) == 0
  {
    var ids := Order(pr, p);
    OrderDistinct(pr, p);
    SortOrdered(pr, p.recs, Candidates(p.order, p.recs));
    hide Order, Granted, Distinct, Precedes, Ordered, WellKept, Spare;
    GrantedElsewhere(ids, p.recs, t);
    if x in ids {
      var i: nat :| i < |ids| && ids[i] == x;
      var j: nat :| j < |ids| && ids[j] == y;
      PrecedesEarlier(pr, p.recs, ids, i, j);
      AllBeforeGiven(ids, p.recs, t, i, j);
    } else {
      NothingLeft(p.recs[x]);
    }
  }

  lemma NothingLeft(u: Usage)
    ensures Spare(u) <= 0 ==> Spare(u) == 0
  {
  }

  // ---------------------------------------------------------------------------
  // Totals over the pool

  lemma {:induction false} SumInsert(k: Measure, pr: Priorities, recs: Records, x: Id, ids: seq<Id>)
    requires x in recs && Known(ids, recs)
    ensures Sum(k, Insert(pr, recs, x, ids), recs) == Measured(k, recs[x]) + Sum(k, ids, recs)
  {
    if ids == [] || !Precedes(pr, recs, ids[0], x) {
      assert ([x] + ids)[1..] == ids;
    } else {
      SumInsert(k, pr, recs, x, ids[1..]);
    }
  }

  lemma {:induction false} SumSorted(k: Measure, pr: Priorities, recs: Records, ids: seq<Id>)
    requires Known(ids, recs)
    ensures Sum(k, SortIds(pr, recs, ids), recs) == Sum(k, ids, recs)
  {
    if ids != [] {
      SumSorted(k, pr, recs, ids[1..]);
      SumInsert(k, pr, recs, ids[0], SortIds(pr, recs, ids[1..]));
    }
  }

  lemma {:induction false} SumCandidates(ids: seq<Id>, recs: Records)
    ensures Sum(SpareBytes, Candidates(ids, recs), recs) == Sum(SpareBytes, ids, recs)
  {
    if ids != [] {
      SumCandidates(ids[1..], recs);
      var rest := Candidates(ids[1..], recs);
      assert ([ids[0]] + rest)[1..] == rest;
    }
  }

  /** What the whole allocation moves: obligations up, spare bytes down, nothing else. */
  lemma {:induction false} GrantedTotals(ids: seq<Id>, recs: Records, t: int, all: seq<Id>)
    requires Known(ids, recs) && Distinct(ids) && Distinct(all) && Known(all, recs)
    requires forall id <- ids :: id in all
    ensures var recs' := Granted(ids, recs, t);
      var n := Min(Max(t, 0), Sum(SpareBytes, ids, recs));
      && Sum(PendingBytes, all, recs') == Sum(PendingBytes, all, recs) + n
      && Sum(RequestedBytes, all, recs') == Sum(RequestedBytes, all, recs) + n
      && Sum(SpareBytes, all, recs') == Sum(SpareBytes, all, recs) - n
      && Sum(TotalBytes, all, recs') == Sum(TotalBytes, all, recs)
    decreases |ids|
  {
    SumSpareNonNegative(ids, recs);
    if ids != [] && t > 0 {
      var x, rest := ids[0], ids[1..];
      var g := Grant(recs[x], t);
      var u := AfterGrant(recs[x], g);
      var recs1 := recs[x := u];
      GrantedTotals(rest, recs1, t - g, all);
      SumUpdate(PendingBytes, all, recs, x, u);
      SumUpdate(RequestedBytes, all, recs, x, u);
      SumUpdate(SpareBytes, all, recs, x, u);
      SumUpdate(TotalBytes, all, recs, x, u);
      SumSame(SpareBytes, rest, recs, recs1);
      SumSpareNonNegative(rest, recs);
    }
  }

  /** A request for `t` bytes queues exactly what is asked for or all there is. */
  lemma RequestTotals(pr: Priorities, p: Pool, t: int)
    requires WellKept(p)
    ensures var p' := RequestIn(pr, p, t);
      var n := Min(Max(t, 0), Sum(SpareBytes, p.order, p.recs));
      && WellKept(p') && p'.order == p.order
      && Sum(PendingBytes, p.order, p'.recs) == Sum(PendingBytes, p.order, p.recs) + n
      && Sum(RequestedBytes, p.order, p'.recs) == Sum(RequestedBytes, p.order, p.recs) + n
      && Sum(SpareBytes, p.order, p'.recs) == Sum(SpareBytes, p.order, p.recs) - n
      && Sum(TotalBytes, p.order, p'.recs) == Sum(TotalBytes, p.order, p.recs)
  {
    var ids := Order(pr, p);
    OrderDistinct(pr, p);
    GrantedElsewhere(ids, p.recs, t);
    GrantedTotals(ids, p.recs, t, p.order);
    SumSorted(SpareBytes, pr, p.recs, Candidates(p.order, p.recs));
    SumCandidates(p.order, p.recs);
  }

  /** Every record keeps all but its obligation, which grows by at most what it can spare. */
  lemma RequestRecords(pr: Priorities, p: Pool, t: int, id: Id)
    requires WellKept(p) && id in p.recs
    ensures var p' := RequestIn(pr, p, t);
      && id in p'.recs
      && exists n :: 0 <= n <= Spare(p.recs[id]) && p'.recs[id] == AfterGrant(p.recs[id], n)
  {
    OrderDistinct(pr, p);
    GrantedRecords(Order(pr, p), p.recs, t);
  }

  // ---------------------------------------------------------------------------
  // The cap

  /** `over_cap_bytes`. */
  function OverCap(p: Pool, cap: int): int {
    Max(Sum(TotalBytes, p.order, p.recs) - cap - Sum(PendingBytes, p.order, p.recs), 0)
  }

  /** `maybe_enqueue_release_requests` under a cap. */
  function CapIn(pr: Priorities, p: Pool, cap: int): Pool {
    RequestIn(pr, p, OverCap(p, cap))
  }

  function CapTimes(pr: Priorities, p: Pool, cap: int, n: nat): Pool {
    if n == 0 then p else CapIn(pr, CapTimes(pr, p, cap, n - 1), cap)
  }

  /** One call brings the excess down by all that can be spared. */
  lemma CapProgress(pr: Priorities, p: Pool, cap: int)
    requires WellKept(p)
    ensures var p' := CapIn(pr, p, cap);
      var excess := Sum(TotalBytes, p.order, p.recs) - Sum(PendingBytes, p.order, p.recs) - cap;
      var excess' := Sum(TotalBytes, p'.order, p'.recs) - Sum(PendingBytes, p'.order, p'.recs) - cap;
      Max(excess', 0) == Max(Max(excess, 0) - Sum(SpareBytes, p.order, p.recs), 0)
  {
    hide RequestIn, Sum, WellKept;
    RequestTotals(pr, p, OverCap(p, cap));
    SumSpareNonNegative(p.order, p.recs);
  }

  /** What a poll does, by the cap: below it nothing; above it the bytes that are not pending yet
      are requested, down to the cap or until nobody can spare any. */
  lemma CapReached(pr: Priorities, p: Pool, cap: int)
    requires WellKept(p)
    ensures var p' := CapIn(pr, p, cap);
      var excess := Sum(TotalBytes, p.order, p.recs) - Sum(PendingBytes, p.order, p.recs) - cap;
      var excess' := Sum(TotalBytes, p'.order, p'.recs) - Sum(PendingBytes, p'.order, p'.recs) - cap;
      && p'.order == p.order && Sum(TotalBytes, p'.order, p'.recs) == Sum(TotalBytes, p.order, p.recs)
      && (excess <= 0 ==> p' == p)
      && (excess > 0 ==> excess - excess' == Min(excess, Sum(SpareBytes, p.order, p.recs)))
      && (excess > 0 ==> excess' == 0 || Sum(SpareBytes, p'.order, p'.recs) == 0)
  {
    hide Order, Sum, WellKept;
    RequestTotals(pr, p, OverCap(p, cap));
    SumSpareNonNegative(p.order, p.recs);
  }

  lemma {:induction false} NoSpareNoCandidates(ids: seq<Id>, recs: Records)
    requires Sum(SpareBytes, ids, recs) == 0
    ensures Candidates(ids, recs) == []
  {
    if ids != [] {
      SumSpareNonNegative(ids[1..], recs);
      NoSpareNoCandidates(ids[1..], recs);
    }
  }

  /** Cap polling is a fixed point after one call: repeating it any number of times without
      a new report changes nothing. */
  lemma {:induction false} CapFixedPoint(pr: Priorities, p: Pool, cap: int, n: nat)
    requires WellKept(p) && n >= 1
    ensures CapTimes(pr, p, cap, n) == CapIn(pr, p, cap)
  {
    if n > 1 {
      CapFixedPoint(pr, p, cap, n - 1);
      var q := CapIn(pr, p, cap);
      RequestTotals(pr, p, OverCap(p, cap));
      SumSpareNonNegative(p.order, p.recs);
      CapProgress(pr, p, cap);
      OrderDistinct(pr, q);
      if OverCap(q, cap) > 0 {
        NoSpareNoCandidates(q.order, q.recs);
      }
      assert Granted(Order(pr, q), q.recs, OverCap(q, cap)) == q.recs;
    } else {
      assert CapTimes(pr, p, cap, 0) == p;
    }
  }
}
