/**
 The bundle table as the services see it: whole-row reads, ungated and status-gated writes, and the bulk expiry,
 bounded or not, that startup repeats until nothing stale is left.
 */
module Repository {
  import opened Sequences
  import opened Bundles
  import opened Pipeline

  /** The statuses the services pass to every gated write. */
  const ACTIVE: set<BundleStatus> := {Pending, Processing}

  /** Columns to overwrite; those without a value are left alone. */
  datatype RowPatch = RowPatch(status: Option<BundleStatus>, channel: Option<ChannelId>, ttl: Option<int>,
                               operations: Option<ClassifiedOperations>, fee: Option<int>, retryCount: Option<nat>)

  function Or<T>(value: Option<T>, default: T): T { if value.Some? then value.value else default }

  function Patched(row: Row, data: RowPatch): Row {
    Row(Or(data.status, row.status), Or(data.channel, row.channel), Or(data.ttl, row.ttl),
        Or(data.operations, row.operations), Or(data.fee, row.fee), Or(data.retryCount, row.retryCount), row.createdAt)
  }

  /** A column ends with the value given for it, or with the one it had. */
  predicate Column<T(==)>(given: Option<T>, before: T, after: T) {
    if given.Some? then after == given.value else after == before
  }

  predicate StatusIn(rows: Rows, id: BundleId, statuses: set<BundleStatus>) {
    id in rows && rows[id].status in statuses
  }

  lemma ActiveIsStatusIn(rows: Rows, id: BundleId)
    ensures StatusIn(rows, id, ACTIVE) <==> ActiveIn(rows, id)
  {
  }

  /** Rows of the given statuses created before `cutoff`. */
  function StaleIn(rows: Rows, cutoff: int, statuses: set<BundleStatus>): set<BundleId> {
    set id | id in rows && rows[id].status in statuses && rows[id].createdAt < cutoff
  }

  class BundleTable {
    var rows: Rows

    constructor ()
      ensures rows == map[]
    {
      rows := map[];
    }

    method FindById(id: BundleId) returns (r: Option<Row>)
      ensures r == if id in rows then Some(rows[id]) else None
    {
      r := if id in rows then Some(rows[id]) else None;
    }

    /** Inserts a row, or overwrites the row with that id. */
    method Put(id: BundleId, row: Row)
      modifies this
      ensures rows == old(rows)[id := row]
    {
      rows := rows[id := row];
    }

    method Update(id: BundleId, status: BundleStatus)
      modifies this
      ensures rows == SetStatus(old(rows), id, status)
    {
      if id in rows {
        rows := rows[id := rows[id].(status := status)];
      }
    }

    method UpdateStatusIfActive(id: BundleId, newStatus: BundleStatus, activeStatuses: set<BundleStatus>)
      returns (updated: bool)
      modifies this
      ensures updated == StatusIn(old(rows), id, activeStatuses)
      ensures rows == if updated then SetStatus(old(rows), id, newStatus) else old(rows)
    {
      updated := id in rows && rows[id].status in activeStatuses;
      if updated {
        rows := rows[id := rows[id].(status := newStatus)];
      }
    }

    method UpdateIfStatusIn(id: BundleId, data: RowPatch, activeStatuses: set<BundleStatus>) returns (updated: bool)
      modifies this
      ensures updated == StatusIn(old(rows), id, activeStatuses)
      ensures rows == if updated then old(rows)[id := Patched(old(rows)[id], data)] else old(rows)
      ensures updated ==> var row, row' := old(rows)[id], rows[id];
        && Column(data.status, row.status, row'.status) && Column(data.channel, row.channel, row'.channel)
        && Column(data.ttl, row.ttl, row'.ttl) && Column(data.operations, row.operations, row'.operations)
        && Column(data.fee, row.fee, row'.fee) && Column(data.retryCount, row.retryCount, row'.retryCount)
        && row'.createdAt == row.createdAt
    {
      updated := id in rows && rows[id].status in activeStatuses;
      if updated {
        rows := rows[id := Patched(rows[id], data)];
      }
    }

    /** Expires rows of the given statuses created before the cutoff, all of them or, oldest first, at most `limit`,
        and returns the ids it changed. */
    method ExpireOlderThan(cutoff: int, statuses: set<BundleStatus>, limit: Option<nat>) returns (ids: seq<BundleId>)
      modifies this
      ensures rows == ExpireIds(old(rows), set id | id in ids)
      ensures Picks(old(rows), StaleIn(old(rows), cutoff, statuses), limit, ids)
    {
      var stale := set id | id in rows && rows[id].status in statuses && rows[id].createdAt < cutoff;
      ids := PickOldest(rows, stale, limit);
      var picked := set id | id in ids;
      rows := map id | id in rows :: if id in picked then rows[id].(status := Expired) else rows[id];
    }
  }

  /** `ids` lists, once each, some of `stale`: all of them when there is room under the limit, else the oldest. */
  ghost predicate Picks(rows: Rows, stale: set<BundleId>, limit: Option<nat>, ids: seq<BundleId>)
    requires forall id :: id in stale ==> id in rows
  {
    && NoDuplicates(ids) && (forall id :: id in ids ==> id in stale)
    && (limit.Some? ==> |ids| <= limit.value)
    && (limit.None? || |ids| < limit.value ==> forall id :: id in stale ==> id in ids)
    && (forall x, y :: x in ids && y in stale && y !in ids ==> rows[x].createdAt <= rows[y].createdAt)
  }

  method PickOldest(rows: Rows, stale: set<BundleId>, limit: Option<nat>) returns (ids: seq<BundleId>)
    requires forall id :: id in stale ==> id in rows
    ensures Picks(rows, stale, limit, ids)
  {
    var left := stale;
    ids := [];
    while (limit.None? || |ids| < limit.value) && left != {}
      invariant left <= stale && (limit.Some? ==> |ids| <= limit.value)
      invariant forall id :: id in stale <==> id in left || id in ids
      invariant NoDuplicates(ids) && forall id :: id in ids ==> id !in left
      invariant forall x, y :: x in ids && y in left ==> rows[x].createdAt <= rows[y].createdAt
      decreases left
    {
      var oldest := OldestOf(rows, left);
      ids := ids + [oldest];
      left := left - {oldest};
    }
  }

  method OldestOf(rows: Rows, ids: set<BundleId>) returns (oldest: BundleId)
    requires ids != {} && forall id :: id in ids ==> id in rows
    ensures oldest in ids
    ensures forall id :: id in ids ==> rows[oldest].createdAt <= rows[id].createdAt
  {
    oldest :| oldest in ids;
    var rest := ids - {oldest};
    while rest != {}
      invariant oldest in ids && rest <= ids
      invariant forall id :: id in ids && id !in rest ==> rows[oldest].createdAt <= rows[id].createdAt
      decreases rest
    {
      var id :| id in rest;
      if rows[id].createdAt < rows[oldest].createdAt { oldest := id; }
      rest := rest - {id};
    }
  }

  lemma StaleIsStaleIn(rows: Rows, cutoff: int)
    ensures StaleIn(rows, cutoff, ACTIVE) == Stale(rows, cutoff)
  {
  }

  lemma ExpireSomeLeavesRest(rows: Rows, cutoff: int, ids: set<BundleId>)
    requires ids <= Stale(rows, cutoff)
    ensures Stale(ExpireIds(rows, ids), cutoff) == Stale(rows, cutoff) - ids
    ensures ExpireStale(ExpireIds(rows, ids), cutoff) == ExpireStale(rows, cutoff)
  {
    var rows' := ExpireIds(rows, ids);
    assert Stale(rows', cutoff) == Stale(rows, cutoff) - ids;
    forall id | id in rows ensures ExpireStale(rows', cutoff)[id] == ExpireStale(rows, cutoff)[id] {
    }
  }

  /** Startup expiry: repeated bounded batches equal one unbounded expiry, whatever the batch size, and the
      reported total is the number of rows it changed. */
  method StartupExpiry(table: BundleTable, cutoff: int, limit: nat) returns (total: nat)
    requires limit >= 1
    modifies table
    ensures table.rows == ExpireStale(old(table.rows), cutoff)
    ensures table.rows.Keys == old(table.rows).Keys
    ensures forall id :: id in table.rows ==>
      table.rows[id] == if IsActive(old(table.rows)[id].status) && old(table.rows)[id].createdAt < cutoff
                        then old(table.rows)[id].(status := Expired) else old(table.rows)[id]
    ensures Stale(table.rows, cutoff) == {}
    ensures total == |Stale(old(table.rows), cutoff)|
  {
    total := 0;
    var more := true;
    while more
      invariant ExpireStale(table.rows, cutoff) == ExpireStale(old(table.rows), cutoff)
      invariant total + |Stale(table.rows, cutoff)| == |Stale(old(table.rows), cutoff)|
      invariant !more ==> Stale(table.rows, cutoff) == {}
      decreases |Stale(table.rows, cutoff)|, more
    {
      ghost var before := table.rows;
      var batch := table.ExpireOlderThan(cutoff, ACTIVE, Some(limit));
      ghost var picked := set id | id in batch;
      StaleIsStaleIn(before, cutoff);
      DistinctCount(batch);
      ExpireSomeLeavesRest(before, cutoff, picked);
      total := total + |batch|;
      more := |batch| >= limit;
      assert Stale(table.rows, cutoff) == Stale(before, cutoff) - picked;
    }
    assert table.rows == ExpireStale(table.rows, cutoff);
  }

  lemma {:induction false} DistinctCount(ids: seq<BundleId>)
    requires NoDuplicates(ids)
    ensures |set id | id in ids| == |ids|
  {
    if ids == [] {
    } else {
      var n := |ids| - 1;
      DistinctCount(ids[..n]);
      assert (set id | id in ids) == (set id | id in ids[..n]) + {ids[n]};
    }
  }
}
