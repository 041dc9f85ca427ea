/**
 The runs of the step system that the handlers take from start to finish, and what each of them leads to.
 */
module HandlerRuns {
  import opened Sequences
  import opened Bundles
  import opened SlotModel
  import opened Cascade
  import opened Fees
  import opened Pipeline
  import opened PipelineInvariant
  import opened MempoolProcess
  import opened FailureHandling

  /** Result of trying to execute a slot, as far as the pipeline is concerned. */
  datatype ExecutionOutcome = Submitted | InsufficientFees | ExecutionError(deterministic: bool)

  /** What the network says about a transaction. */
  datatype VerificationResult = OnChain | FailedOnChain | NotSeen

  // ---------- Composing runs ----------

  lemma {:induction false} ExecConcat(cfg: Config, s: State, a: seq<Action>, b: seq<Action>)
    ensures Exec(cfg, s, a + b) == Exec(cfg, Exec(cfg, s, a), b)
  {
    if b == [] {
      assert a + b == a;
    } else {
      assert (a + b)[..|a + b| - 1] == a + b[..|b| - 1];
      ExecConcat(cfg, s, a, b[..|b| - 1]);
    }
  }

  lemma ExecNext(cfg: Config, s: State, acts: seq<Action>, a: Action)
    ensures Exec(cfg, s, acts + [a]) == Apply(cfg, Exec(cfg, s, acts), a)
  {
    assert (acts + [a])[..|acts|] == acts;
  }

  /** The steps one `addBundle` call takes on the first entering bundle. */
  function AddRun(outcome: AddOutcome, id: BundleId): seq<Action> {
    if outcome.Queued? || outcome.Purged? then [AddToMempool(0), MarkProcessing(id)] else [AddToMempool(0)]
  }

  lemma AddThenMark(cfg: Config, s: State, b: SlotBundle)
    requires s.entering != [] && s.entering[0] == b && s.marking == multiset{}
    ensures var e := AddEffect(cfg.capacity, s.slots, s.rows, b, s.now, false);
      var after := s.(slots := e.0, rows := e.1, entering := s.entering[1..]);
      if e.2.Queued? || e.2.Purged? then ApplyMark(ApplyAdd(cfg, s, 0), b.bundleId) == after
      else ApplyAdd(cfg, s, 0) == after
  {
    assert Without(s.entering, 0) == s.entering[1..];
    if !IsBundleExpired(b, s.now) && AddBundle(cfg.capacity, s.slots, b).1.Added? {
      MarkAdded(s.(slots := AddBundle(cfg.capacity, s.slots, b).0, entering := s.entering[1..]), b.bundleId);
    }
  }

  lemma MarkAdded(s: State, id: BundleId)
    requires s.marking == multiset{}
    ensures var e := MarkEffect(s.slots, s.rows, id, false);
      ApplyMark(s.(marking := multiset{} + multiset{id}), id) == s.(slots := e.0, rows := e.1)
  {
    assert multiset{} + multiset{id} - multiset{id} == multiset{};
  }

  lemma AddIsRun(cfg: Config, s: State, b: SlotBundle)
    requires s.entering != [] && s.entering[0] == b && s.marking == multiset{}
    ensures var e := AddEffect(cfg.capacity, s.slots, s.rows, b, s.now, false);
      Exec(cfg, s, AddRun(e.2, b.bundleId)) == s.(slots := e.0, rows := e.1, entering := s.entering[1..])
  {
    AddThenMark(cfg, s, b);
    var outcome := AddEffect(cfg.capacity, s.slots, s.rows, b, s.now, false).2;
    if outcome.Queued? || outcome.Purged? {
      ExecTwo(cfg, s, AddToMempool(0), MarkProcessing(b.bundleId));
    } else {
      ExecOne(cfg, s, AddToMempool(0));
    }
  }

  lemma ExecOne(cfg: Config, s: State, a: Action)
    ensures Exec(cfg, s, [a]) == Apply(cfg, s, a)
  {
    assert [] + [a] == [a];
    ExecNext(cfg, s, [], a);
  }

  lemma ExecTwo(cfg: Config, s: State, a: Action, b: Action)
    ensures Exec(cfg, s, [a, b]) == Apply(cfg, Apply(cfg, s, a), b)
  {
    ExecOne(cfg, s, a);
    assert [a] + [b] == [a, b];
    ExecNext(cfg, s, [a], b);
  }

  // ---------- The run of each handler ----------

  /** `reAddBundles` over everything entering. */
  function ReAddRun(cfg: Config, s: State): seq<Action>
    decreases |s.entering|
  {
    if s.entering == [] then []
    else
      var b := s.entering[0];
      var e := AddEffect(cfg.capacity, s.slots, s.rows, b, s.now, false);
      AddRun(e.2, b.bundleId) + ReAddRun(cfg, s.(slots := e.0, rows := e.1, entering := s.entering[1..]))
  }

  function SweptWrites(ids: seq<BundleId>): seq<Action> {
    seq(|ids|, i requires 0 <= i < |ids| => WriteSwept(ids[i]))
  }

  function EvictedWrites(ids: seq<BundleId>): seq<Action> {
    seq(|ids|, i requires 0 <= i < |ids| => WriteEvicted(ids[i]))
  }

  /** The sweep: one removal, then one row write per removed bundle. */
  function SweepRun(s: State): seq<Action> {
    [Sweep] + SweptWrites(Ids(Removed(s.slots, Selected(ExpiredAt(s.now)))))
  }

  /** The executor's gate: the first slot is pulled, then each evicted bundle's row is written. */
  function PullRun(s: State): seq<Action> {
    if s.slots == [] then []
    else [Pull] + EvictedWrites(Ids(Filter(s.slots[0].bundles, Selected(ExpiredAt(s.now)))))
  }

  /** What follows the gate when something is in flight. */
  function SettleRun(cfg: Config, s: State, outcome: ExecutionOutcome): seq<Action> {
    match outcome
    case Submitted => [Submit]
    case InsufficientFees => [RejectFees]
    case ExecutionError(deterministic) =>
      [FailExecution(deterministic)] + ReAddRun(cfg, Apply(cfg, s, FailExecution(deterministic)))
  }

  function ExecutorRun(cfg: Config, s: State, outcome: ExecutionOutcome): seq<Action> {
    var gated := Exec(cfg, s, PullRun(s));
    PullRun(s) + (if gated.flight.None? then [] else SettleRun(cfg, gated, outcome))
  }

  function VerifyFailureRun(cfg: Config, s: State, k: nat, terminal: bool, priorities: map<BundleId,
                            real>): seq<Action> {
    [VerifyFailure(k, terminal, priorities)] + ReAddRun(cfg, Apply(cfg, s, VerifyFailure(k, terminal, priorities)))
  }

  /** One verification: nothing while the transaction may still appear, else success or a terminal failure. */
  function VerifyRun(cfg: Config, s: State, k: nat, result: VerificationResult): seq<Action>
    requires k < |s.txs|
  {
    if s.txs[k].bundleIds == [] || (result.NotSeen? && s.now <= s.txs[k].timeout) then []
    else if result.OnChain? then [VerifySuccess(k)]
    else VerifyFailureRun(cfg, s, k, true, map[])
  }

  function AdmissionRun(cfg: Config, s: State, admit: Action): seq<Action> {
    [admit] + ReAddRun(cfg, Apply(cfg, s, admit))
  }

  // ---------- The effect of each run ----------

  lemma WritesNext(ids: seq<BundleId>, i: nat)
    requires i < |ids|
    ensures SweptWrites(ids[..i + 1]) == SweptWrites(ids[..i]) + [WriteSwept(ids[i])]
    ensures EvictedWrites(ids[..i + 1]) == EvictedWrites(ids[..i]) + [WriteEvicted(ids[i])]
  {
  }

  lemma RestOf(ids: seq<BundleId>, i: nat)
    requires i < |ids|
    ensures ids[i] in multiset(ids[i..]) && multiset(ids[i..]) - multiset{ids[i]} == multiset(ids[i + 1..])
  {
    assert ids[i..] == [ids[i]] + ids[i + 1..];
  }

  /** The state after the first `i` of the sweep's row writes. */
  function SweptUpTo(s: State, ids: seq<BundleId>, i: nat): State
    requires i <= |ids|
  {
    s.(rows := SetStatuses(s.rows, ids[..i], Expired), sweeping := multiset(ids[i..]))
  }

  lemma SweptStart(s: State, ids: seq<BundleId>)
    requires s.sweeping == multiset(ids)
    ensures SweptUpTo(s, ids, 0) == s
  {
    assert ids[0..] == ids && SetStatuses(s.rows, ids[..0], Expired) == s.rows;
  }

  lemma SweptNext(cfg: Config, s: State, ids: seq<BundleId>, i: nat)
    requires i < |ids|
    ensures Apply(cfg, SweptUpTo(s, ids, i), WriteSwept(ids[i])) == SweptUpTo(s, ids, i + 1)
  {
    RestOf(ids, i);
    SetStatusesNext(s.rows, ids, i, Expired);
  }

  lemma ExecSweptNext(cfg: Config, s: State, ids: seq<BundleId>, i: nat)
    requires i < |ids|
    ensures Exec(cfg, s, SweptWrites(ids[..i + 1]))
         == Apply(cfg, Exec(cfg, s, SweptWrites(ids[..i])), WriteSwept(ids[i]))
  {
    WritesNext(ids, i);
    ExecNext(cfg, s, SweptWrites(ids[..i]), WriteSwept(ids[i]));
  }

  lemma {:induction false} SweptWritesEffect(cfg: Config, s: State, ids: seq<BundleId>, i: nat)
    requires s.sweeping == multiset(ids) && i <= |ids|
    ensures Exec(cfg, s, SweptWrites(ids[..i])) == SweptUpTo(s, ids, i)
  {
    if i == 0 {
      SweptWritesNone(cfg, s, ids);
    } else {
      SweptWritesEffect(cfg, s, ids, i - 1);
      SweptWritesOneMore(cfg, s, ids, i - 1);
    }
  }

  lemma SweptWritesNone(cfg: Config, s: State, ids: seq<BundleId>)
    requires s.sweeping == multiset(ids)
    ensures Exec(cfg, s, SweptWrites(ids[..0])) == SweptUpTo(s, ids, 0)
  {
    SweptStart(s, ids);
    assert SweptWrites(ids[..0]) == [];
  }

  lemma SweptWritesOneMore(cfg: Config, s: State, ids: seq<BundleId>, i: nat)
    requires i < |ids| && Exec(cfg, s, SweptWrites(ids[..i])) == SweptUpTo(s, ids, i)
    ensures Exec(cfg, s, SweptWrites(ids[..i + 1])) == SweptUpTo(s, ids, i + 1)
  {
    SweptNext(cfg, s, ids, i);
    ExecSweptNext(cfg, s, ids, i);
  }

  /** The state after the first `i` of the gate's row writes. */
  function EvictedUpTo(s: State, ids: seq<BundleId>, i: nat): State
    requires i <= |ids|
  {
    s.(rows := SetStatusesIfActive(s.rows, ids[..i], Expired), evicting := multiset(ids[i..]))
  }

  lemma EvictedStart(s: State, ids: seq<BundleId>)
    requires s.evicting == multiset(ids)
    ensures EvictedUpTo(s, ids, 0) == s
  {
    assert ids[0..] == ids && SetStatusesIfActive(s.rows, ids[..0], Expired) == s.rows;
  }

  lemma EvictedNext(cfg: Config, s: State, ids: seq<BundleId>, i: nat)
    requires i < |ids|
    ensures Apply(cfg, EvictedUpTo(s, ids, i), WriteEvicted(ids[i])) == EvictedUpTo(s, ids, i + 1)
  {
    RestOf(ids, i);
    GatedStatusesNext(s.rows, ids, i, Expired);
  }

  lemma ExecEvictedNext(cfg: Config, s: State, ids: seq<BundleId>, i: nat)
    requires i < |ids|
    ensures Exec(cfg, s, EvictedWrites(ids[..i + 1]))
         == Apply(cfg, Exec(cfg, s, EvictedWrites(ids[..i])), WriteEvicted(ids[i]))
  {
    WritesNext(ids, i);
    ExecNext(cfg, s, EvictedWrites(ids[..i]), WriteEvicted(ids[i]));
  }

  lemma {:induction false} EvictedWritesEffect(cfg: Config, s: State, ids: seq<BundleId>, i: nat)
    requires s.evicting == multiset(ids) && i <= |ids|
    ensures Exec(cfg, s, EvictedWrites(ids[..i])) == EvictedUpTo(s, ids, i)
  {
    if i == 0 {
      EvictedWritesNone(cfg, s, ids);
    } else {
      EvictedWritesEffect(cfg, s, ids, i - 1);
      EvictedWritesOneMore(cfg, s, ids, i - 1);
    }
  }

  lemma EvictedWritesNone(cfg: Config, s: State, ids: seq<BundleId>)
    requires s.evicting == multiset(ids)
    ensures Exec(cfg, s, EvictedWrites(ids[..0])) == EvictedUpTo(s, ids, 0)
  {
    EvictedStart(s, ids);
    assert EvictedWrites(ids[..0]) == [];
  }

  lemma EvictedWritesOneMore(cfg: Config, s: State, ids: seq<BundleId>, i: nat)
    requires i < |ids| && Exec(cfg, s, EvictedWrites(ids[..i])) == EvictedUpTo(s, ids, i)
    ensures Exec(cfg, s, EvictedWrites(ids[..i + 1])) == EvictedUpTo(s, ids, i + 1)
  {
    EvictedNext(cfg, s, ids, i);
    ExecEvictedNext(cfg, s, ids, i);
  }

  /** The sweep's run leaves the slots filtered and exactly the removed bundles EXPIRED. */
  lemma SweepRunEffect(cfg: Config, s: State)
    requires s.sweeping == multiset{}
    ensures var removed := Removed(s.slots, Selected(ExpiredAt(s.now)));
      Exec(cfg, s, SweepRun(s))
        == s.(slots := FilterSlots(s.slots, Kept(ExpiredAt(s.now))), rows := SetStatuses(s.rows, Ids(removed), Expired))
  {
    var ids := Ids(Removed(s.slots, Selected(ExpiredAt(s.now))));
    ExecOne(cfg, s, Sweep);
    ExecConcat(cfg, s, [Sweep], SweptWrites(ids));
    assert multiset{} + multiset(ids) == multiset(ids);
    SweptWritesEffect(cfg, Apply(cfg, s, Sweep), ids, |ids|);
    assert ids[..|ids|] == ids && ids[|ids|..] == [];
  }

  /** The gate's run: the first slot in flight without its expired bundles, and those EXPIRED if active. */
  lemma PullRunEffect(cfg: Config, s: State)
    requires s.evicting == multiset{} && s.flight.None? && s.slots != []
    ensures var evicted := Filter(s.slots[0].bundles, Selected(ExpiredAt(s.now)));
      var kept := FilterSlot(s.slots[0], Kept(ExpiredAt(s.now)));
      Exec(cfg, s, PullRun(s))
        == s.(slots := s.slots[1..], rows := SetStatusesIfActive(s.rows, Ids(evicted), Expired),
              flight := if kept.bundles == [] then None else Some(Flight(kept, s.now)))
  {
    var ids := Ids(Filter(s.slots[0].bundles, Selected(ExpiredAt(s.now))));
    ExecOne(cfg, s, Pull);
    ExecConcat(cfg, s, [Pull], EvictedWrites(ids));
    assert multiset{} + multiset(ids) == multiset(ids);
    EvictedWritesEffect(cfg, Apply(cfg, s, Pull), ids, |ids|);
    assert ids[..|ids|] == ids && ids[|ids|..] == [];
  }

  /** The slots and rows after re-adding a list of bundles. */
  function ReAddEffect(capacity: int, slots: seq<SlotState>, rows: Rows, bs: seq<SlotBundle>, now: int)
    : (seq<SlotState>, Rows)
    decreases |bs|
  {
    if bs == [] then (slots, rows)
    else
      var e := AddEffect(capacity, slots, rows, bs[0], now, false);
      ReAddEffect(capacity, e.0, e.1, bs[1..], now)
  }

  lemma {:induction false} ReAddRunEffect(cfg: Config, s: State)
    requires s.marking == multiset{}
    ensures var r := ReAddEffect(cfg.capacity, s.slots, s.rows, s.entering, s.now);
      Exec(cfg, s, ReAddRun(cfg, s)) == s.(slots := r.0, rows := r.1, entering := [])
    decreases |s.entering|
  {
    if s.entering == [] {
    } else {
      var b := s.entering[0];
      var e := AddEffect(cfg.capacity, s.slots, s.rows, b, s.now, false);
      var next := s.(slots := e.0, rows := e.1, entering := s.entering[1..]);
      AddIsRun(cfg, s, b);
      ReAddRunEffect(cfg, next);
      ExecConcat(cfg, s, AddRun(e.2, b.bundleId), ReAddRun(cfg, next));
    }
  }

  /** Offering the rest from here ends at `goal`. */
  ghost predicate Offering(capacity: int, slots: seq<SlotState>, rows: Rows, rest: seq<SlotBundle>, now: int,
                           goal: (seq<SlotState>, Rows)) {
    goal == ReAddEffect(capacity, slots, rows, rest, now)
  }

  lemma OfferingNext(capacity: int, slots: seq<SlotState>, rows: Rows, bs: seq<SlotBundle>, i: nat, now: int,
                     goal: (seq<SlotState>, Rows))
    requires i < |bs| && Offering(capacity, slots, rows, bs[i..], now, goal)
    ensures var e := AddEffect(capacity, slots, rows, bs[i], now, false);
      Offering(capacity, e.0, e.1, bs[i + 1..], now, goal)
  {
    assert bs[i..][0] == bs[i] && bs[i..][1..] == bs[i + 1..];
  }

  // ---------- Distinct ids ----------

  /** No slot holds two bundles with one id. */
  ghost predicate DistinctIn(slots: seq<SlotState>) {
    forall s :: s in slots ==> NoDuplicates(Ids(s.bundles))
  }

  lemma DistinctIsSeparable(slots: seq<SlotState>, c: Criterion)
    requires DistinctIn(slots)
    ensures AllSeparable(slots, c)
  {
    forall s | s in slots ensures Separable(s.bundles, c) {
      forall i, j | 0 <= i < j < |s.bundles| ensures s.bundles[i].bundleId != s.bundles[j].bundleId {
        assert Ids(s.bundles)[i] != Ids(s.bundles)[j];
      }
    }
  }

  lemma {:induction false} FilterDistinct(bs: seq<SlotBundle>, keep: SlotBundle -> bool)
    requires NoDuplicates(Ids(bs))
    ensures NoDuplicates(Ids(Filter(bs, keep)))
  {
    DistinctBag(Ids(bs));
    forall x ensures multiset(Ids(Filter(bs, keep)))[x] <= 1 {
      CountFilter(bs, keep, (b: SlotBundle) => !keep(b), x);
      CountIsMultiplicity(bs, x);
      CountIsMultiplicity(Filter(bs, keep), x);
    }
    DistinctBag(Ids(Filter(bs, keep)));
  }

  lemma {:induction false} SlotCountBound(slots: seq<SlotState>, slot: SlotState, x: BundleId)
    requires slot in slots
    ensures CountOf(slot.bundles, x) <= CountOf(Flatten(slots), x)
  {
    CountAppend(slots[0].bundles, Flatten(slots[1..]), x);
    if slot == slots[0] {
    } else {
      SlotCountBound(slots[1..], slot, x);
    }
  }

  /** In every state the invariant allows, ids are distinct in each slot and in each UNVERIFIED transaction. */
  lemma PlacedIsDistinct(s: State)
    requires Placed(s)
    ensures DistinctIn(s.slots)
    ensures forall k :: 0 <= k < |s.txs| && s.txs[k].status.Unverified? ==> NoDuplicates(s.txs[k].bundleIds)
  {
    forall slot | slot in s.slots ensures NoDuplicates(Ids(slot.bundles)) {
      forall x ensures multiset(Ids(slot.bundles))[x] <= 1 {
        SlotCountBound(s.slots, slot, x);
        CountIsMultiplicity(slot.bundles, x);
        assert Missing(s, x) >= 0;
      }
      DistinctBag(Ids(slot.bundles));
    }
    forall k | 0 <= k < |s.txs| && s.txs[k].status.Unverified? ensures NoDuplicates(s.txs[k].bundleIds) {
      forall x ensures multiset(s.txs[k].bundleIds)[x] <= 1 { LinkedAtMostOnce(s, k, x); }
      DistinctBag(s.txs[k].bundleIds);
    }
  }

  /** What admission answers before the mempool is asked: the refusal, or why persisting the spends failed. */
  function AdmissionAnswer(s: State, id: BundleId, ops: ClassifiedOperations, balances: Balances,
                           balancesReadAgain: bool)
    : Option<AdmissionError>
  {
    var refusal := AdmissionRefusal(s.rows, id, ops, balances);
    if refusal.Some? then refusal else PersistFailure(s.utxos + UtxosOf(ops.create), ops.spend, balancesReadAgain)
  }

  lemma AdmittedState(cfg: Config, s: State, a: Action)
    requires a.Admit? && s.entering == []
    requires AdmissionRefusal(s.rows, a.id, ClassifyOperations(a.operations), a.balances).None?
    ensures var ops := ClassifyOperations(a.operations);
      var row := AdmittedRow(s.rows, a.id, a.channel, ops, a.balances, a.latestLedger, s.now);
      var recorded := s.utxos + UtxosOf(ops.create);
      ApplyAdmit(cfg, s, a)
        == s.(rows := s.rows[a.id := row], utxos := recorded,
              entering := if PersistFailure(recorded, ops.spend, a.balancesReadAgain).Some? then []
                          else [CreateSlotBundle(a.id, row, cfg, a.priority)])
  {
    var ops := ClassifyOperations(a.operations);
    var row := AdmittedRow(s.rows, a.id, a.channel, ops, a.balances, a.latestLedger, s.now);
    assert [] + [CreateSlotBundle(a.id, row, cfg, a.priority)] == [CreateSlotBundle(a.id, row, cfg, a.priority)];
  }

  lemma FailedSlotState(cfg: Config, s: State, deterministic: bool, rows: Rows, again: seq<SlotBundle>)
    requires s.flight.Some? && s.entering == []
    requires rows == FailRows(s.rows, Ids(FlightBundles(s)), cfg.maxRetryAttempts, deterministic, true)
    requires again
          == WithRetryCount(Filter(FlightBundles(s), Retryable(s.rows, cfg.maxRetryAttempts, deterministic)), rows)
    ensures Apply(cfg, s, FailExecution(deterministic)) == s.(flight := None, rows := rows, entering := again)
  {
    assert [] + again == again;
  }

  lemma FailedTxState(cfg: Config, s: State, k: nat, terminal: bool, priorities: map<BundleId, real>, rows: Rows,
                      again: seq<SlotBundle>)
    requires k < |s.txs| && s.txs[k].status.Unverified? && s.entering == []
    requires rows == FailRows(s.rows, s.txs[k].bundleIds, cfg.maxRetryAttempts, terminal, false)
    requires var ids := Filter(s.txs[k].bundleIds, RetryableId(s.rows, cfg.maxRetryAttempts, terminal));
      again == Rehydrate(ids, rows, cfg, priorities)
    ensures Apply(cfg, s, VerifyFailure(k, terminal, priorities))
         == s.(txs := s.txs[k := s.txs[k].(status := TxFailed)], rows := rows, entering := again)
  {
    assert [] + again == again;
  }

  /** A step followed by the re-add of whatever it left entering. */
  lemma StepThenReAdd(cfg: Config, s: State, a: Action)
    ensures var s' := Apply(cfg, s, a);
      Exec(cfg, s, [a] + ReAddRun(cfg, s')) == Exec(cfg, s', ReAddRun(cfg, s'))
  {
    ExecOne(cfg, s, a);
    ExecConcat(cfg, s, [a], ReAddRun(cfg, Apply(cfg, s, a)));
  }

  /** Whatever the handlers do, from any state that satisfies it, the invariant is kept. */
  lemma {:induction false} RunKeepsInv(cfg: Config, s: State, run: seq<Action>)
    requires Inv(cfg, s)
    ensures Inv(cfg, Exec(cfg, s, run))
  {
    if run == [] {
    } else {
      var n := |run| - 1;
      RunKeepsInv(cfg, s, run[..n]);
      StepKeepsInv(cfg, Exec(cfg, s, run[..n]), run[n]);
    }
  }
}
