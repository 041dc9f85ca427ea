/**
 The loops that write several rows after an execution or a verification: one status for all, or one
 failed attempt each, collecting the bundles that may be tried again.
 */
module FailureHandling {
  import opened Sequences
  import opened Bundles
  import opened Pipeline
  import opened Repository

  lemma SetStatusesNext(rows: Rows, ids: seq<BundleId>, i: nat, status: BundleStatus)
    requires i < |ids|
    ensures SetStatus(SetStatuses(rows, ids[..i], status), ids[i], status) == SetStatuses(rows, ids[..i + 1], status)
  {
    assert forall x :: x in ids[..i + 1] <==> x in ids[..i] || x == ids[i];
  }

  /** One ungated status write per id. */
  method SetAll(table: BundleTable, ids: seq<BundleId>, status: BundleStatus)
    modifies table
    ensures table.rows == SetStatuses(old(table.rows), ids, status)
  {
    for i := 0 to |ids|
      invariant table.rows == SetStatuses(old(table.rows), ids[..i], status)
    {
      SetStatusesNext(old(table.rows), ids, i, status);
      table.Update(ids[i], status);
    }
    assert ids[..|ids|] == ids;
  }

  /** One gated status write per id. */
  function SetStatusesIfActive(rows: Rows, ids: seq<BundleId>, status: BundleStatus): Rows {
    map id | id in rows :: if id in ids && IsActive(rows[id].status) then rows[id].(status := status) else rows[id]
  }

  lemma GatedStatusesNext(rows: Rows, ids: seq<BundleId>, i: nat, status: BundleStatus)
    requires i < |ids|
    ensures SetStatusIfActive(SetStatusesIfActive(rows, ids[..i], status), ids[i], status)
         == SetStatusesIfActive(rows, ids[..i + 1], status)
  {
    assert forall x :: x in ids[..i + 1] <==> x in ids[..i] || x == ids[i];
  }

  method SetAllIfActive(table: BundleTable, ids: seq<BundleId>, status: BundleStatus)
    modifies table
    ensures table.rows == SetStatusesIfActive(old(table.rows), ids, status)
  {
    for i := 0 to |ids|
      invariant table.rows == SetStatusesIfActive(old(table.rows), ids[..i], status)
    {
      GatedStatusesNext(old(table.rows), ids, i, status);
      ActiveIsStatusIn(table.rows, ids[i]);
      var _ := table.UpdateStatusIfActive(ids[i], status, ACTIVE);
    }
    assert ids[..|ids|] == ids;
  }

  // ---------- Failed attempts, one after the other ----------

  /** A bundle to try again and the retry count it has then. */
  datatype Retry = Retry(bundleId: BundleId, nextRetryCount: nat)

  /** The row a failed attempt writes to; when `gated`, only an active one. */
  predicate CanFail(rows: Rows, id: BundleId, gated: bool) { id in rows && (gated ==> IsActive(rows[id].status)) }

  function FailAt(rows: Rows, id: BundleId, max: int, terminal: bool, gated: bool): Rows {
    if CanFail(rows, id, gated) then rows[id := FailRow(rows[id], max, terminal)] else rows
  }

  /** The rows after a failed attempt for each of `ids` in turn; an id listed twice fails twice. */
  function FailEach(rows: Rows, ids: seq<BundleId>, max: int, terminal: bool, gated: bool): Rows {
    if ids == [] then rows
    else FailAt(FailEach(rows, ids[..|ids| - 1], max, terminal, gated), ids[|ids| - 1], max, terminal, gated)
  }

  predicate RetriesAt(rows: Rows, id: BundleId, max: int, terminal: bool, gated: bool) {
    CanFail(rows, id, gated) && !EndsBundle(rows[id], max, terminal)
  }

  /** Those that get another attempt, in the order they failed. */
  function Retries(rows: Rows, ids: seq<BundleId>, max: int, terminal: bool, gated: bool): seq<Retry> {
    if ids == [] then []
    else
      var front, id := ids[..|ids| - 1], ids[|ids| - 1];
      var done := FailEach(rows, front, max, terminal, gated);
      Retries(rows, front, max, terminal, gated)
      + (if RetriesAt(done, id, max, terminal, gated) then [Retry(id, done[id].retryCount + 1)] else [])
  }

  function RetryIds(list: seq<Retry>): (ids: seq<BundleId>)
    ensures |ids| == |list|
    ensures forall i :: 0 <= i < |list| ==> ids[i] == list[i].bundleId
  {
    seq(|list|, i requires 0 <= i < |list| => list[i].bundleId)
  }

  /** One turn of the execution-failure loop, whose writes are gated. */
  method FailOne(table: BundleTable, id: BundleId, maxRetryAttempts: int, deterministic: bool)
    returns (retry: Option<nat>)
    modifies table
    ensures table.rows == FailAt(old(table.rows), id, maxRetryAttempts, deterministic, true)
    ensures retry == if RetriesAt(old(table.rows), id, maxRetryAttempts, deterministic, true)
                     then Some(old(table.rows)[id].retryCount + 1) else None
  {
    retry := None;
    var bundle := table.FindById(id);
    if bundle.Some? {
      ActiveIsStatusIn(table.rows, id);
      var nextRetryCount := bundle.value.retryCount + 1;
      var isTerminal := deterministic || nextRetryCount >= maxRetryAttempts;
      var data := RowPatch(Some(if isTerminal then Failed else Pending), None, None, None, None, Some(nextRetryCount));
      var updated := table.UpdateIfStatusIn(id, data, ACTIVE);
      if updated && !isTerminal {
        retry := Some(nextRetryCount);
      }
    }
  }

  /** `handleExecutionFailure`: each bundle moves to PENDING with one more retry, or to FAILED when the
      failure is deterministic or was its last attempt; a row no longer active is left alone. */
  method HandleExecutionFailure(table: BundleTable, ids: seq<BundleId>, maxRetryAttempts: int, deterministic: bool)
    returns (bundlesToRetry: seq<Retry>)
    modifies table
    ensures table.rows == FailEach(old(table.rows), ids, maxRetryAttempts, deterministic, true)
    ensures bundlesToRetry == Retries(old(table.rows), ids, maxRetryAttempts, deterministic, true)
  {
    bundlesToRetry := [];
    ghost var rows := table.rows;
    for i := 0 to |ids|
      invariant table.rows == FailEach(rows, ids[..i], maxRetryAttempts, deterministic, true)
      invariant bundlesToRetry == Retries(rows, ids[..i], maxRetryAttempts, deterministic, true)
    {
      assert ids[..i + 1][..i] == ids[..i];
      var retry := FailOne(table, ids[i], maxRetryAttempts, deterministic);
      if retry.Some? {
        bundlesToRetry := bundlesToRetry + [Retry(ids[i], retry.value)];
      }
    }
    assert ids[..|ids|] == ids;
  }

  /** One turn of the verification-failure loop, whose writes are not gated; true when the bundle may be tried again. */
  method FailOneUngated(table: BundleTable, id: BundleId, maxRetryAttempts: int, terminal: bool) returns (again: bool)
    modifies table
    ensures table.rows == FailAt(old(table.rows), id, maxRetryAttempts, terminal, false)
    ensures again <==> RetriesAt(old(table.rows), id, maxRetryAttempts, terminal, false)
  {
    again := false;
    var bundle := table.FindById(id);
    if bundle.Some? {
      var nextRetryCount := bundle.value.retryCount + 1;
      var isTerminal := terminal || nextRetryCount >= maxRetryAttempts;
      table.Put(id, bundle.value.(status := if isTerminal then Failed else Pending, retryCount := nextRetryCount));
      again := !isTerminal;
    }
  }

  /** The row writes of `handleVerificationFailure` and the ids to try again. */
  method FailVerifiedRows(table: BundleTable, ids: seq<BundleId>, maxRetryAttempts: int, terminal: bool)
    returns (retryableBundleIds: seq<BundleId>)
    modifies table
    ensures table.rows == FailEach(old(table.rows), ids, maxRetryAttempts, terminal, false)
    ensures retryableBundleIds == RetryIds(Retries(old(table.rows), ids, maxRetryAttempts, terminal, false))
  {
    retryableBundleIds := [];
    ghost var rows := table.rows;
    for i := 0 to |ids|
      invariant table.rows == FailEach(rows, ids[..i], maxRetryAttempts, terminal, false)
      invariant retryableBundleIds == RetryIds(Retries(rows, ids[..i], maxRetryAttempts, terminal, false))
    {
      assert ids[..i + 1][..i] == ids[..i];
      var again := FailOneUngated(table, ids[i], maxRetryAttempts, terminal);
      if again {
        retryableBundleIds := retryableBundleIds + [ids[i]];
      }
    }
    assert ids[..|ids|] == ids;
  }

  // ---------- Bundles to queue again ----------

  /** The retry count the last entry for `id` gives. */
  function CountFor(list: seq<Retry>, id: BundleId): Option<nat> {
    if list == [] then None
    else if list[|list| - 1].bundleId == id then Some(list[|list| - 1].nextRetryCount)
    else CountFor(list[..|list| - 1], id)
  }

  /** The bundles with an entry in `list`, in order, with their new retry counts. */
  function Enriched(bundles: seq<SlotBundle>, list: seq<Retry>): seq<SlotBundle> {
    if bundles == [] then []
    else
      var b := bundles[|bundles| - 1];
      var count := CountFor(list, b.bundleId);
      Enriched(bundles[..|bundles| - 1], list) + (if count.Some? then [b.(retryCount := count.value)] else [])
  }

  /** The lookup table of a list of entries: a later entry replaces an earlier one. */
  method CountTable(list: seq<Retry>) returns (counts: map<BundleId, nat>)
    ensures forall id :: id in counts <==> CountFor(list, id).Some?
    ensures forall id :: id in counts ==> CountFor(list, id) == Some(counts[id])
  {
    counts := map[];
    for i := 0 to |list|
      invariant forall id :: id in counts <==> CountFor(list[..i], id).Some?
      invariant forall id :: id in counts ==> CountFor(list[..i], id) == Some(counts[id])
    {
      assert list[..i + 1][..i] == list[..i];
      counts := counts[list[i].bundleId := list[i].nextRetryCount];
    }
    assert list[..|list|] == list;
  }

  /** `buildRetryBundles`, for any slot and any list of entries. */
  method BuildRetryBundles(bundles: seq<SlotBundle>, metaList: seq<Retry>) returns (eligible: seq<SlotBundle>)
    ensures eligible == Enriched(bundles, metaList)
  {
    var metaByBundleId := CountTable(metaList);
    eligible := [];
    for i := 0 to |bundles|
      invariant eligible == Enriched(bundles[..i], metaList)
    {
      assert bundles[..i + 1][..i] == bundles[..i];
      if bundles[i].bundleId in metaByBundleId {
        eligible := eligible + [bundles[i].(retryCount := metaByBundleId[bundles[i].bundleId])];
      }
    }
    assert bundles[..|bundles|] == bundles;
  }

  // ---------- When no id is listed twice ----------

  lemma DistinctFront(ids: seq<BundleId>)
    requires ids != [] && NoDuplicates(ids)
    ensures NoDuplicates(ids[..|ids| - 1]) && ids[|ids| - 1] !in ids[..|ids| - 1]
    ensures forall x :: x in ids <==> x in ids[..|ids| - 1] || x == ids[|ids| - 1]
  {
  }

  /** Failing distinct bundles one by one is failing each once. */
  lemma {:induction false} FailEachDistinct(rows: Rows, ids: seq<BundleId>, max: int, terminal: bool, gated: bool)
    requires NoDuplicates(ids)
    ensures FailEach(rows, ids, max, terminal, gated) == FailRows(rows, ids, max, terminal, gated)
  {
    if ids == [] {
    } else {
      DistinctFront(ids);
      FailEachDistinct(rows, ids[..|ids| - 1], max, terminal, gated);
    }
  }

  /** And of distinct bundles exactly those with attempts left are tried again, with one more retry each. */
  lemma {:induction false} RetriesDistinct(rows: Rows, ids: seq<BundleId>, max: int, terminal: bool, gated: bool,
                                           id: BundleId)
    requires NoDuplicates(ids)
    ensures CountFor(Retries(rows, ids, max, terminal, gated), id)
         == if id in ids && RetriesAt(rows, id, max, terminal, gated) then Some(rows[id].retryCount + 1) else None
  {
    if ids == [] {
    } else {
      var front, last := ids[..|ids| - 1], ids[|ids| - 1];
      DistinctFront(ids);
      RetriesDistinct(rows, front, max, terminal, gated, id);
      FailEachDistinct(rows, front, max, terminal, gated);
      var list := Retries(rows, front, max, terminal, gated);
      var more := Retries(rows, ids, max, terminal, gated);
      var done := FailEach(rows, front, max, terminal, gated);
      assert last in done <==> last in rows;
      assert last in rows ==> done[last] == rows[last];
      if RetriesAt(rows, last, max, terminal, gated) {
        assert more == list + [Retry(last, rows[last].retryCount + 1)];
        assert more[..|list|] == list;
      } else {
        assert more == list;
      }
    }
  }

  lemma {:induction false} RetryIdsDistinct(rows: Rows, ids: seq<BundleId>, max: int, terminal: bool)
    requires NoDuplicates(ids)
    ensures RetryIds(Retries(rows, ids, max, terminal, false)) == Filter(ids, RetryableId(rows, max, terminal))
  {
    if ids == [] {
    } else {
      DistinctFront(ids);
      RetryIdsDistinct(rows, ids[..|ids| - 1], max, terminal);
      FailEachDistinct(rows, ids[..|ids| - 1], max, terminal, false);
    }
  }

  /** The copies queued again after a failed slot of distinct bundles: the retryable ones, with the rows' new counts. */
  lemma {:induction false} EnrichedDistinct(rows: Rows, all: seq<BundleId>, bs: seq<SlotBundle>, max: int,
                                            terminal: bool)
    requires NoDuplicates(all) && forall b :: b in bs ==> b.bundleId in all
    ensures Enriched(bs, Retries(rows, all, max, terminal, true))
         == WithRetryCount(Filter(bs, Retryable(rows, max, terminal)), FailRows(rows, all, max, terminal, true))
  {
    if bs == [] {
    } else {
      var front, b := bs[..|bs| - 1], bs[|bs| - 1];
      assert b in bs && forall x :: x in front ==> x in bs;
      EnrichedDistinct(rows, all, front, max, terminal);
      RetriesDistinct(rows, all, max, terminal, true, b.bundleId);
      WithRetryAppend(Filter(front, Retryable(rows, max, terminal)), b, FailRows(rows, all, max, terminal, true));
    }
  }

  lemma WithRetryAppend(bs: seq<SlotBundle>, b: SlotBundle, rows: Rows)
    ensures WithRetryCount(bs + [b], rows) == WithRetryCount(bs, rows) + WithRetryCount([b], rows)
  {
  }
}
