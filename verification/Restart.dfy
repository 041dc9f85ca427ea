/**
 A restart: everything in memory is lost, stale rows may be expired by age, and the mempool is rebuilt from
 the tables. The re-hydration guard looks at whether a PROCESSING row has any transaction, not at that
 transaction's status, so what a restart keeps depends on the tables; here is exactly how, with runs that show it.
 */
module Restart {
  import opened Sequences
  import opened Bundles
  import opened SlotModel
  import opened Cascade
  import opened Ttl
  import opened Pipeline
  import opened PipelineInvariant
  import opened Repository
  import opened MempoolProcess
  import opened HandlerRuns
  import opened Handlers
  import opened Runs
  import opened Losses

  // ---------- When a restart is safe ----------

  lemma RestartPlacedAt(cfg: Config, s: State, cutoff: Option<int>, found: seq<BundleId>, priorities: map<BundleId,
                        real>,
                        id: BundleId)
    requires Placed(s) && Lists(found, StartupRows(s.rows, cutoff))
    ensures Missing(RestartState(cfg, s, cutoff, found, priorities), id) >= 0 <==> RowSafe(s.rows, s.txs, cutoff, id)
  {
    RestartPlaces(cfg, s, cutoff, found, priorities, id);
    AwaitsIffLinked(s, id);
    StartupRowsCounts(s.rows, cutoff, id);
  }

  lemma RestartPlacedExactlyWhen(cfg: Config, s: State, cutoff: Option<int>, found: seq<BundleId>,
                                 priorities: map<BundleId, real>)
    requires Placed(s) && Lists(found, StartupRows(s.rows, cutoff))
    ensures Placed(RestartState(cfg, s, cutoff, found, priorities)) <==> RestartSafe(s.rows, s.txs, cutoff)
  {
    forall id ensures Missing(RestartState(cfg, s, cutoff, found, priorities), id) >= 0
                 <==> RowSafe(s.rows, s.txs, cutoff, id)
    {
      RestartPlacedAt(cfg, s, cutoff, found, priorities, id);
    }
  }

  lemma RestartKeepsRest(cfg: Config, s: State, cutoff: Option<int>, found: seq<BundleId>, priorities: map<BundleId,
                         real>)
    requires Inv(cfg, s) && Lists(found, StartupRows(s.rows, cutoff))
    ensures var s' := RestartState(cfg, s, cutoff, found, priorities);
      Settled(s') && Matched(cfg, s') && Tidy(s') && Sound(cfg, s'.rows)
  {
    var rows := StartupRows(s.rows, cutoff);
    var s' := RestartState(cfg, s, cutoff, found, priorities);
    forall id ensures CompletedCount(rows, id) == CompletedCount(s.rows, id) {
      StartupRowsCounts(s.rows, cutoff, id);
    }
    forall b | InMemory(s', b) ensures Agrees(cfg, rows, b) {
      assert b in Reloaded(cfg, rows, s.txs, found, priorities);
      RehydratedAgrees(cfg, rows, Filter(found, ResubmittableId(rows, s.txs)), priorities, b);
    }
  }

  /** A restart keeps the invariant if and only if no active row that waits for the verifier is PENDING or would be
      expired by age. */
  lemma RestartKeepsInvExactlyWhen(cfg: Config, s: State, cutoff: Option<int>, found: seq<BundleId>,
                                   priorities: map<BundleId, real>)
    requires Inv(cfg, s) && Lists(found, StartupRows(s.rows, cutoff))
    ensures Inv(cfg, RestartState(cfg, s, cutoff, found, priorities)) <==> RestartSafe(s.rows, s.txs, cutoff)
  {
    RestartPlacedExactlyWhen(cfg, s, cutoff, found, priorities);
    RestartKeepsRest(cfg, s, cutoff, found, priorities);
  }

  /** After it every active bundle is in exactly one place if and only if, besides, no PROCESSING row has transactions
      that are all settled; what was missing before does not matter. */
  lemma RestartLosesNothingExactlyWhen(cfg: Config, s: State, cutoff: Option<int>, found: seq<BundleId>,
                                       priorities: map<BundleId, real>)
    requires Placed(s) && Lists(found, StartupRows(s.rows, cutoff))
    ensures (forall id :: Missing(RestartState(cfg, s, cutoff, found, priorities), id) == 0) <==>
      RestartSafe(s.rows, s.txs, cutoff) && forall id :: !Stranded(s, cutoff, id)
  {
    var s' := RestartState(cfg, s, cutoff, found, priorities);
    RestartPlacedExactlyWhen(cfg, s, cutoff, found, priorities);
    if RestartSafe(s.rows, s.txs, cutoff) {
      forall id ensures Missing(s', id) == if Stranded(s, cutoff, id) then 1 else 0 {
        RestartMissing(cfg, s, cutoff, found, priorities, id);
      }
    } else {
      var id :| Missing(s', id) < 0;
    }
  }

  // ---------- Runs after which a restart is not safe ----------

  /** A lone bundle that fits and is not expired goes into a slot of its own. */
  lemma LoneAdd(cfg: Config, s: State, b: SlotBundle)
    requires s.slots == [] && s.entering == [b] && s.marking == multiset{}
    requires !IsBundleExpired(b, s.now) && b.weight <= cfg.capacity
    ensures Apply(cfg, s, AddToMempool(0))
         == s.(slots := [SlotState(b.channel, [b], b.weight)], entering := [], marking := multiset{b.bundleId})
  {
    var slot := SlotState(b.channel, [b], b.weight);
    assert Without([b], 0) == [];
    assert StableSort([b][..0]) == [];
    assert [] + [b] == [b] && StableSort([b]) == [b];
    assert Push(EmptySlot(b.channel), b) == slot;
    assert [] + [slot] == [slot];
    assert AddBundle(cfg.capacity, [], b) == ([slot], Added);
  }

  function PulledState(s: State, b: SlotBundle): State {
    s.(slots := [], flight := Some(Flight(SlotState(b.channel, [b], b.weight), s.now)))
  }

  lemma LonePull(cfg: Config, s: State, b: SlotBundle)
    requires s.slots == [SlotState(b.channel, [b], b.weight)] && s.flight.None? && s.evicting == multiset{}
    requires !IsBundleExpired(b, s.now)
    ensures Apply(cfg, s, Pull) == PulledState(s, b)
  {
    var slot := s.slots[0];
    FilterAll(slot.bundles, Kept(ExpiredAt(s.now)));
    assert Filter(slot.bundles, Selected(ExpiredAt(s.now))) == [];
    assert FilterSlot(slot, Kept(ExpiredAt(s.now))) == slot;
    assert s.slots[1..] == [] && multiset{} + multiset(Ids([])) == multiset{};
  }

  lemma LoneFlight(cfg: Config, s: State, b: SlotBundle)
    requires s.flight.None?
    ensures Apply(cfg, PulledState(s, b), Submit) == SubmittedFrom(cfg, s, b.bundleId)
  {
    assert Ids([b]) == [b.bundleId];
  }

  function SubmittedFrom(cfg: Config, s: State, id: BundleId): State {
    s.(slots := [], txs := s.txs + [Tx(Unverified, s.now + cfg.expirationOffset * LEDGER_CLOSE_TIME_MS, [id])])
  }

  function FirstRow(a: Action, status: BundleStatus): Row
    requires a.Admit?
  {
    var ops := ClassifyOperations(a.operations);
    AdmittedRow(map[], a.id, a.channel, ops, a.balances, a.latestLedger, 0).(status := status)
  }

  function FirstBundle(cfg: Config, a: Action): SlotBundle
    requires a.Admit?
  {
    CreateSlotBundle(a.id, FirstRow(a, Pending), cfg, a.priority)
  }

  function CreatedUtxos(a: Action): set<UtxoId>
    requires a.Admit?
  {
    UtxosOf(ClassifyOperations(a.operations).create)
  }

  /** A first admission that succeeds, of a bundle that fits and is not born expired. */
  ghost predicate Ordinary(cfg: Config, a: Action) {
    && a.Admit? && Admits(INITIAL, a, a.id) && !Aborts(INITIAL, a) && Fits(cfg, a)
    && !IsBundleExpired(FirstBundle(cfg, a), 0)
  }

  function QueueRun(id: BundleId, marked: bool): seq<Action> {
    if marked then [AddToMempool(0), MarkProcessing(id)] else [AddToMempool(0)]
  }

  /** A bundle is admitted, queued and submitted; `marked` tells whether its PROCESSING write came before. */
  function SubmitRun(a: Action, marked: bool): seq<Action>
    requires a.Admit?
  {
    [a] + QueueRun(a.id, marked) + [Pull, Submit]
  }

  function SubmittedState(cfg: Config, a: Action, marked: bool): State
    requires a.Admit?
  {
    INITIAL.(rows := map[a.id := FirstRow(a, if marked then Processing else Pending)], utxos := CreatedUtxos(a),
             txs := [Tx(Unverified, cfg.expirationOffset * LEDGER_CLOSE_TIME_MS, [a.id])],
             marking := if marked then multiset{} else multiset{a.id})
  }

  function AdmittedFirst(cfg: Config, a: Action): State
    requires a.Admit?
  {
    INITIAL.(rows := map[a.id := FirstRow(a, Pending)], utxos := CreatedUtxos(a), entering := [FirstBundle(cfg, a)])
  }

  lemma FirstAdmission(cfg: Config, a: Action)
    requires Ordinary(cfg, a)
    ensures Apply(cfg, INITIAL, a) == AdmittedFirst(cfg, a)
  {
    AdmittedState(cfg, INITIAL, a);
    assert map[][a.id := FirstRow(a, Pending)] == map[a.id := FirstRow(a, Pending)];
    assert {} + CreatedUtxos(a) == CreatedUtxos(a);
  }

  /** The state with the lone entering bundle queued. */
  function QueuedState(s: State, b: SlotBundle, marked: bool): State {
    s.(slots := [SlotState(b.channel, [b], b.weight)], entering := [],
       rows := if marked then SetStatus(s.rows, b.bundleId, Processing) else s.rows,
       marking := if marked then multiset{} else multiset{b.bundleId})
  }

  lemma QueueRunEffect(cfg: Config, s: State, b: SlotBundle, marked: bool)
    requires s.slots == [] && s.entering == [b] && s.marking == multiset{} && ActiveIn(s.rows, b.bundleId)
    requires !IsBundleExpired(b, s.now) && b.weight <= cfg.capacity
    ensures Exec(cfg, s, QueueRun(b.bundleId, marked)) == QueuedState(s, b, marked)
  {
    LoneAdd(cfg, s, b);
    if marked {
      ExecTwo(cfg, s, AddToMempool(0), MarkProcessing(b.bundleId));
      assert multiset{b.bundleId} - multiset{b.bundleId} == multiset{};
    } else {
      ExecOne(cfg, s, AddToMempool(0));
    }
  }

  lemma SubmitQueued(cfg: Config, s: State, b: SlotBundle, run: seq<Action>)
    requires After(cfg, run) == s
    requires s.slots == [SlotState(b.channel, [b], b.weight)] && s.flight.None? && s.evicting == multiset{}
    requires !IsBundleExpired(b, s.now)
    ensures After(cfg, run + [Pull, Submit]) == SubmittedFrom(cfg, s, b.bundleId)
  {
    LonePull(cfg, s, b);
    LoneFlight(cfg, s, b);
    ExecConcat(cfg, INITIAL, run, [Pull, Submit]);
    ExecTwo(cfg, s, Pull, Submit);
  }

  lemma SubmitRunEffect(cfg: Config, a: Action, marked: bool)
    requires Ordinary(cfg, a)
    ensures After(cfg, SubmitRun(a, marked)) == SubmittedState(cfg, a, marked)
  {
    var s, b := AdmittedFirst(cfg, a), FirstBundle(cfg, a);
    FirstAdmission(cfg, a);
    ExecOne(cfg, INITIAL, a);
    QueueRunEffect(cfg, s, b, marked);
    ExecConcat(cfg, INITIAL, [a], QueueRun(a.id, marked));
    SubmitQueued(cfg, QueuedState(s, b, marked), b, [a] + QueueRun(a.id, marked));
  }

  /** The executor submits a bundle before its PROCESSING write: a restart queues it again while its
      transaction may still settle. */
  lemma RestartDuplicates(cfg: Config, a: Action, found: seq<BundleId>, priorities: map<BundleId, real>)
    requires Ordinary(cfg, a) && Lists(found, SubmittedState(cfg, a, false).rows)
    ensures Places(RestartState(cfg, After(cfg, SubmitRun(a, false)), None, found, priorities), a.id) == 2
  {
    var s := SubmittedState(cfg, a, false);
    SubmitRunEffect(cfg, a, false);
    Reachable(cfg, SubmitRun(a, false));
    assert a.id in s.txs[0].bundleIds;
    RestartPlaces(cfg, s, None, found, priorities, a.id);
  }

  /** Age expiry marks a submitted bundle EXPIRED while its transaction may still settle. */
  lemma RestartExpiresSubmitted(cfg: Config, a: Action, cutoff: int, found: seq<BundleId>, priorities: map<BundleId,
                                real>)
    requires Ordinary(cfg, a) && 0 < cutoff
    requires Lists(found, StartupRows(SubmittedState(cfg, a, true).rows, Some(cutoff)))
    ensures var s' := RestartState(cfg, After(cfg, SubmitRun(a, true)), Some(cutoff), found, priorities);
      !ActiveIn(s'.rows, a.id) && Places(s', a.id) == 1
  {
    var s := SubmittedState(cfg, a, true);
    SubmitRunEffect(cfg, a, true);
    Reachable(cfg, SubmitRun(a, true));
    assert a.id in s.txs[0].bundleIds;
    RestartPlaces(cfg, s, Some(cutoff), found, priorities, a.id);
  }

  // ---------- Re-admission after a failed transaction ----------

  /** The run goes on: the transaction fails, the bundle is submitted for admission again and queued. */
  function ReadmitRun(a: Action): seq<Action>
    requires a.Admit?
  {
    SubmitRun(a, true) + [VerifyFailure(0, true, map[]), a] + QueueRun(a.id, true)
  }

  function FailedState(cfg: Config, a: Action): State
    requires a.Admit?
  {
    var s := SubmittedState(cfg, a, true);
    s.(txs := [s.txs[0].(status := TxFailed)],
       rows := map[a.id := FailRow(FirstRow(a, Processing), cfg.maxRetryAttempts, true)])
  }

  function ReadmittedState(cfg: Config, a: Action): State
    requires a.Admit?
  {
    FailedState(cfg, a).(rows := map[a.id := FirstRow(a, Pending)], entering := [FirstBundle(cfg, a)])
  }

  lemma FirstFailure(cfg: Config, a: Action)
    requires Ordinary(cfg, a)
    ensures Apply(cfg, SubmittedState(cfg, a, true), VerifyFailure(0, true, map[])) == FailedState(cfg, a)
  {
    var s := SubmittedState(cfg, a, true);
    var ids, rows := [a.id], FailedState(cfg, a).rows;
    assert Filter(ids, RetryableId(s.rows, cfg.maxRetryAttempts, true)) == [];
    assert FailRows(s.rows, ids, cfg.maxRetryAttempts, true, false) == rows;
    assert Rehydrate([], rows, cfg, map[]) == [];
    FailedTxState(cfg, s, 0, true, map[], rows, []);
  }

  lemma SecondAdmission(cfg: Config, a: Action)
    requires Ordinary(cfg, a)
    ensures Apply(cfg, FailedState(cfg, a), a) == ReadmittedState(cfg, a)
  {
    var s := FailedState(cfg, a);
    AdmittedState(cfg, s, a);
    assert s.rows[a.id := FirstRow(a, Pending)] == map[a.id := FirstRow(a, Pending)];
    assert CreatedUtxos(a) + CreatedUtxos(a) == CreatedUtxos(a) == {} + CreatedUtxos(a);
  }

  lemma ReadmitRunEffect(cfg: Config, a: Action)
    requires Ordinary(cfg, a)
    ensures After(cfg, ReadmitRun(a)) == QueuedState(ReadmittedState(cfg, a), FirstBundle(cfg, a), true)
  {
    var failed := VerifyFailure(0, true, map[]);
    SubmitRunEffect(cfg, a, true);
    FirstFailure(cfg, a);
    SecondAdmission(cfg, a);
    ExecTwo(cfg, SubmittedState(cfg, a, true), failed, a);
    ExecConcat(cfg, INITIAL, SubmitRun(a, true), [failed, a]);
    QueueRunEffect(cfg, ReadmittedState(cfg, a), FirstBundle(cfg, a), true);
    ExecConcat(cfg, INITIAL, SubmitRun(a, true) + [failed, a], QueueRun(a.id, true));
  }

  lemma ReadmittedTables(cfg: Config, a: Action)
    requires a.Admit?
    ensures var s := QueuedState(ReadmittedState(cfg, a), FirstBundle(cfg, a), true);
      s.rows == map[a.id := FirstRow(a, Processing)] && Linked(s.txs, a.id) && !AwaitsVerification(s.txs, a.id)
  {
    var s := QueuedState(ReadmittedState(cfg, a), FirstBundle(cfg, a), true);
    assert a.id in s.txs[0].bundleIds;
  }

  /** After that run the bundle is PROCESSING and in a slot; a restart sees its old failed transaction, leaves
      it to the verifier, and it is nowhere. */
  lemma RestartStrands(cfg: Config, a: Action, found: seq<BundleId>, priorities: map<BundleId, real>)
    requires Ordinary(cfg, a) && Lists(found, map[a.id := FirstRow(a, Processing)])
    ensures var s' := RestartState(cfg, After(cfg, ReadmitRun(a)), None, found, priorities);
      ActiveIn(s'.rows, a.id) && Places(s', a.id) == 0
  {
    ReadmitRunEffect(cfg, a);
    ReadmittedTables(cfg, a);
    Reachable(cfg, ReadmitRun(a));
    RestartPlaces(cfg, After(cfg, ReadmitRun(a)), None, found, priorities, a.id);
  }

  // ---------- Startup in place ----------

  /** `loadPendingBundlesFromDB`: skips PROCESSING rows that have a transaction, rebuilds the others. */
  method LoadPendingBundles(cfg: Config, found: seq<BundleId>, rows: Rows, txs: seq<Tx>, priorities: map<BundleId,
                            real>)
    returns (bundles: seq<SlotBundle>)
    requires Lists(found, rows)
    ensures bundles == Reloaded(cfg, rows, txs, found, priorities)
  {
    var resubmittable: seq<BundleId> := [];
    for i := 0 to |found|
      invariant resubmittable == Filter(found[..i], ResubmittableId(rows, txs))
    {
      FilterNext(found, i, ResubmittableId(rows, txs));
      assert found[i] in found;
      var again := MayResubmit(rows, txs, found[i]);
      if again {
        resubmittable := resubmittable + [found[i]];
      }
    }
    assert found[..|found|] == found;
    bundles := Rehydrate(resubmittable, rows, cfg, priorities);
  }

  /** The guard: a PROCESSING row is left alone when it has any transaction. */
  method MayResubmit(rows: Rows, txs: seq<Tx>, id: BundleId) returns (again: bool)
    requires ActiveIn(rows, id)
    ensures again == Resubmittable(rows, txs, id)
  {
    if rows[id].status.Processing? {
      var links := HasLinks(txs, id);
      return !links;
    }
    return true;
  }

  method HasLinks(txs: seq<Tx>, id: BundleId) returns (found: bool)
    ensures found == Linked(txs, id)
  {
    for k := 0 to |txs|
      invariant forall j :: 0 <= j < k ==> id !in txs[j].bundleIds
    {
      if id in txs[k].bundleIds { return true; }
    }
    return false;
  }

  /** The slots and rows after adding `bs` one by one until SLOT_FULL ends the loop, and whether it got to the end. */
  function AddAll(capacity: int, slots: seq<SlotState>, rows: Rows, bs: seq<SlotBundle>, now: int)
    : (seq<SlotState>, Rows, bool)
    decreases |bs|
  {
    if bs == [] then (slots, rows, true)
    else
      var e := AddEffect(capacity, slots, rows, bs[0], now, false);
      if e.2.SlotFullError? then (e.0, e.1, false) else AddAll(capacity, e.0, e.1, bs[1..], now)
  }

  /** When no bundle is refused this is what re-adding them does. */
  lemma {:induction false} AddAllIsReAdd(capacity: int, slots: seq<SlotState>, rows: Rows, bs: seq<SlotBundle>,
                                         now: int)
    requires AddAll(capacity, slots, rows, bs, now).2
    ensures AddAll(capacity, slots, rows, bs, now).0 == ReAddEffect(capacity, slots, rows, bs, now).0
    ensures AddAll(capacity, slots, rows, bs, now).1 == ReAddEffect(capacity, slots, rows, bs, now).1
    decreases |bs|
  {
    if bs == [] {
    } else {
      var e := AddEffect(capacity, slots, rows, bs[0], now, false);
      AddAllIsReAdd(capacity, e.0, e.1, bs[1..], now);
    }
  }

  /** `initialize` on a platform whose mempool is still empty: age expiry in batches, reload, and one add per
      bundle; a SLOT_FULL error ends it there. */
  method Initialize(p: Platform, cutoff: Option<int>, limit: nat, found: seq<BundleId>, priorities: map<BundleId, real>,
                    now: int)
    returns (ok: bool)
    requires p.Valid() && p.mempool.slots == [] && limit >= 1
    requires Lists(found, StartupRows(p.table.rows, cutoff))
    modifies p.mempool, p.table
    ensures p.Valid()
    ensures var start := RestartState(p.cfg, old(p.Idle(now)), cutoff, found, priorities);
      var r := AddAll(p.cfg.capacity, [], start.rows, start.entering, now);
      p.Idle(now) == start.(slots := r.0, rows := r.1, entering := []) && ok == r.2
  {
    if cutoff.Some? {
      var _ := StartupExpiry(p.table, cutoff.value, limit);
    }
    var bundles := LoadPendingBundles(p.cfg, found, p.table.rows, p.txTable.txs, priorities);
    ok := AddEach(p, bundles, now);
  }

  /** An initialization that finishes is a run of the step system from the restarted state. */
  lemma InitializeIsRun(cfg: Config, s: State)
    requires s.marking == multiset{} && AddAll(cfg.capacity, s.slots, s.rows, s.entering, s.now).2
    ensures var r := AddAll(cfg.capacity, s.slots, s.rows, s.entering, s.now);
      Exec(cfg, s, ReAddRun(cfg, s)) == s.(slots := r.0, rows := r.1, entering := [])
  {
    AddAllIsReAdd(cfg.capacity, s.slots, s.rows, s.entering, s.now);
    ReAddRunEffect(cfg, s);
  }

  method AddEach(p: Platform, bundles: seq<SlotBundle>, now: int) returns (ok: bool)
    requires p.Valid() && p.mempool.slots == []
    modifies p.mempool, p.table
    ensures p.Valid()
    ensures var r := AddAll(p.cfg.capacity, [], old(p.table.rows), bundles, now);
      States(p.mempool.slots) == r.0 && p.table.rows == r.1 && ok == r.2
  {
    ghost var goal := AddAll(p.cfg.capacity, [], p.table.rows, bundles, now);
    assert bundles[0..] == bundles && States(p.mempool.slots) == [];
    for i := 0 to |bundles|
      invariant p.Valid()
      invariant forall k :: 0 <= k < |p.mempool.slots| ==> fresh(p.mempool.slots[k])
      invariant AddAll(p.cfg.capacity, States(p.mempool.slots), p.table.rows, bundles[i..], now) == goal
    {
      assert bundles[i..][0] == bundles[i] && bundles[i..][1..] == bundles[i + 1..];
      var outcome := p.mempool.AddBundle(bundles[i], now, false);
      if outcome.SlotFullError? { return false; }
    }
    return true;
  }

  lemma AddKeepsLight(cfg: Config, s: State, b: SlotBundle)
    requires Light(cfg, s.rows)
    ensures Light(cfg, AddEffect(cfg.capacity, s.slots, s.rows, b, s.now, false).1)
  {
  }

  lemma AddedNotFull(cfg: Config, s: State, b: SlotBundle)
    requires Inv(cfg, s) && Light(cfg, s.rows) && InMemory(s, b)
    ensures !AddEffect(cfg.capacity, s.slots, s.rows, b, s.now, false).2.SlotFullError?
  {
    AddSucceeds(cfg, s, b);
  }

  /** When every active row fits an empty slot no add is refused, so initialization always finishes. */
  lemma {:induction false} StartupFinishes(cfg: Config, s: State)
    requires Inv(cfg, s) && Light(cfg, s.rows) && s.marking == multiset{}
    ensures AddAll(cfg.capacity, s.slots, s.rows, s.entering, s.now).2
    decreases |s.entering|
  {
    if s.entering == [] {
    } else {
      var b := s.entering[0];
      var e := AddEffect(cfg.capacity, s.slots, s.rows, b, s.now, false);
      AddIsRun(cfg, s, b);
      RunKeepsInv(cfg, s, AddRun(e.2, b.bundleId));
      AddKeepsLight(cfg, s, b);
      AddedNotFull(cfg, s, b);
      StartupFinishes(cfg, s.(slots := e.0, rows := e.1, entering := s.entering[1..]));
    }
  }

  /** And it ends with the invariant and with nothing left to queue. */
  lemma StartupEnds(cfg: Config, s: State)
    requires Inv(cfg, s) && Light(cfg, s.rows) && s.marking == multiset{}
    ensures var r := AddAll(cfg.capacity, s.slots, s.rows, s.entering, s.now);
      r.2 && Inv(cfg, s.(slots := r.0, rows := r.1, entering := []))
  {
    StartupFinishes(cfg, s);
    InitializeIsRun(cfg, s);
    RunKeepsInv(cfg, s, ReAddRun(cfg, s));
  }
}
