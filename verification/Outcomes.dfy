/**
 What each handler leads to, said of the states before and after it in terms of rows, transactions and contents only.
 */
module Outcomes {
  import opened Sequences
  import opened Bundles
  import opened SlotModel
  import opened Cascade
  import opened Fees
  import opened Ttl
  import opened Pipeline
  import opened PipelineInvariant
  import opened MempoolProcess
  import opened HandlerRuns

  // ---------- One add ----------

  /** Row `id` has the given status and is otherwise as before, and no other row changed. */
  ghost predicate OnlyStatusOf(rows: Rows, rows': Rows, id: BundleId, status: BundleStatus) {
    && rows'.Keys == rows.Keys
    && (forall x :: x in rows && x != id ==> rows'[x] == rows[x])
    && (id in rows ==> rows'[id] == rows[id].(status := status))
  }

  /** SLOT_FULL: one bundle, heavier than an empty slot, is left out. */
  ghost predicate LeftOut(capacity: int, slots: seq<SlotState>, b: SlotBundle, after: seq<SlotState>) {
    exists x: SlotBundle ::
      x.weight > capacity && multiset(Flatten(after)) + multiset{x} == multiset(Flatten(slots)) + multiset{b}
  }

  /** What an add amounts to. A bundle past its TTL only has its row written EXPIRED. Any other that finds room joins
      the mempool's contents and its row becomes PROCESSING, unless the row is not active or that write fails: then
      the rows stay and no bundle with its id is left in a slot. SLOT_FULL leaves the rows alone. */
  ghost predicate AddAmountsTo(capacity: int, slots: seq<SlotState>, rows: Rows, b: SlotBundle, now: int,
                               writeFails: bool, after: seq<SlotState>, rows': Rows, outcome: AddOutcome) {
    && (outcome.EndedExpired? <==> b.ttl <= now)
    && (outcome.EndedExpired? ==> after == slots && OnlyStatusOf(rows, rows', b.bundleId, Expired))
    && (outcome.Queued? ==>
          && ActiveIn(rows, b.bundleId) && !writeFails && OnlyStatusOf(rows, rows', b.bundleId, Processing)
          && multiset(Flatten(after)) == multiset(Flatten(slots)) + multiset{b})
    && (outcome.Purged? ==> !ActiveIn(rows, b.bundleId) && !writeFails)
    && (outcome.WriteError? ==> writeFails)
    && (outcome.Purged? || outcome.WriteError? ==> rows' == rows && CountOf(Flatten(after), b.bundleId) == 0)
    && (outcome.SlotFullError? ==> rows' == rows && LeftOut(capacity, slots, b, after))
  }

  lemma AddOutcomeOf(capacity: int, slots: seq<SlotState>, rows: Rows, b: SlotBundle, now: int, writeFails: bool)
    requires SlotsOk(slots)
    ensures var e := AddEffect(capacity, slots, rows, b, now, writeFails);
      AddAmountsTo(capacity, slots, rows, b, now, writeFails, e.0, e.1, e.2)
  {
    CascadeConserves(capacity, slots, b);
    PurgeCount(AddBundle(capacity, slots, b).0, b.bundleId, b.bundleId);
  }

  // ---------- Several adds ----------

  /** Re-adding bundles may change the status of their rows, of an active one to PROCESSING or EXPIRED, and nothing
      else; to EXPIRED only when one of them is past its TTL. */
  ghost predicate ReAddedRow(row: Row, row': Row, offered: bool, anyExpired: bool) {
    && row' == row.(status := row'.status)
    && (!offered ==> row' == row)
    && (!anyExpired ==> row' == row || (IsActive(row.status) && row'.status.Processing?))
    && (IsActive(row.status) ==> IsActive(row'.status) || row'.status.Expired?)
    && (!IsActive(row.status) ==> row' == row || row'.status.Expired?)
  }

  ghost predicate AnyExpired(bs: seq<SlotBundle>, now: int) { exists b :: b in bs && b.ttl <= now }

  lemma AddedRow(capacity: int, slots: seq<SlotState>, rows: Rows, b: SlotBundle, now: int, id: BundleId)
    requires id in rows
    ensures var rows' := AddEffect(capacity, slots, rows, b, now, false).1;
      rows'.Keys == rows.Keys && ReAddedRow(rows[id], rows'[id], b.bundleId == id, b.ttl <= now)
  {
  }

  lemma {:induction false} ReAddRows(capacity: int, slots: seq<SlotState>, rows: Rows, bs: seq<SlotBundle>, now: int,
                                     id: BundleId)
    requires id in rows
    ensures var rows' := ReAddEffect(capacity, slots, rows, bs, now).1;
      rows'.Keys == rows.Keys && ReAddedRow(rows[id], rows'[id], id in Ids(bs), AnyExpired(bs, now))
    decreases |bs|
  {
    if bs == [] {
    } else {
      var e := AddEffect(capacity, slots, rows, bs[0], now, false);
      AddedRow(capacity, slots, rows, bs[0], now, id);
      ReAddRows(capacity, e.0, e.1, bs[1..], now, id);
      OfferedHead(bs, now, id);
    }
  }

  lemma OfferedHead(bs: seq<SlotBundle>, now: int, id: BundleId)
    requires bs != []
    ensures id in Ids(bs) <==> bs[0].bundleId == id || id in Ids(bs[1..])
    ensures AnyExpired(bs, now) <==> bs[0].ttl <= now || AnyExpired(bs[1..], now)
  {
    assert Ids(bs) == [bs[0].bundleId] + Ids(bs[1..]);
    assert forall b :: b in bs <==> b == bs[0] || b in bs[1..];
  }

  /** Bundles are offered in the order given. */
  lemma {:induction false} ReAddInOrder(capacity: int, slots: seq<SlotState>, rows: Rows, a: seq<SlotBundle>,
                                        b: seq<SlotBundle>, now: int)
    ensures var first := ReAddEffect(capacity, slots, rows, a, now);
      ReAddEffect(capacity, slots, rows, a + b, now) == ReAddEffect(capacity, first.0, first.1, b, now)
    decreases |a|
  {
    if a == [] {
      assert a + b == b;
    } else {
      var e := AddEffect(capacity, slots, rows, a[0], now, false);
      assert (a + b)[0] == a[0] && (a + b)[1..] == a[1..] + b;
      ReAddInOrder(capacity, e.0, e.1, a[1..], b, now);
    }
  }

  // ---------- Verification ----------

  /** Every row linked to the transaction becomes what `linked` says of it, and no other row changes. */
  ghost predicate OnlyLinkedRows(rows: Rows, rows': Rows, ids: seq<BundleId>, linked: Row -> Row) {
    && rows'.Keys == rows.Keys
    && forall id :: id in rows ==> rows'[id] == if id in ids then linked(rows[id]) else rows[id]
  }

  /** Transaction `k` gets the status, and no other transaction changes. */
  ghost predicate OnlyStatusOfTx(txs: seq<Tx>, txs': seq<Tx>, k: nat, status: TxStatus)
    requires k < |txs|
  {
    txs' == txs[k := txs[k].(status := status)]
  }

  /** The network has the transaction: it is VERIFIED and every linked row COMPLETED. */
  ghost predicate Confirmed(s: State, s': State, k: nat)
    requires k < |s.txs|
  {
    && OnlyStatusOfTx(s.txs, s'.txs, k, Verified)
    && OnlyLinkedRows(s.rows, s'.rows, s.txs[k].bundleIds, (row: Row) => row.(status := Completed))
    && s'.slots == s.slots
  }

  /** It failed there, or its deadline has passed: it is FAILED, and so is every linked row, with one more attempt
      used. */
  ghost predicate Ended(s: State, s': State, k: nat)
    requires k < |s.txs|
  {
    && OnlyStatusOfTx(s.txs, s'.txs, k, TxFailed)
    && OnlyLinkedRows(s.rows, s'.rows, s.txs[k].bundleIds,
                      (row: Row) => row.(status := Failed, retryCount := row.retryCount + 1))
    && s'.slots == s.slots
  }

  ghost predicate VerificationOutcome(s: State, s': State, k: nat, result: VerificationResult)
    requires k < |s.txs|
  {
    if s.txs[k].bundleIds == [] then s' == s
    else
      match result
      case OnChain => Confirmed(s, s', k)
      case FailedOnChain => Ended(s, s', k)
      case NotSeen => if s.now > s.txs[k].timeout then Ended(s, s', k) else s' == s
  }

  lemma TerminalRetriesNone(cfg: Config, rows: Rows, ids: seq<BundleId>)
    ensures Filter(ids, RetryableId(rows, cfg.maxRetryAttempts, true)) == []
  {
    FilterNone(ids, RetryableId(rows, cfg.maxRetryAttempts, true));
  }

  lemma TerminalFailureEnds(cfg: Config, s: State, k: nat)
    requires k < |s.txs| && s.txs[k].status.Unverified? && s.entering == []
    ensures Ended(s, Exec(cfg, s, VerifyFailureRun(cfg, s, k, true, map[])), k)
  {
    var ids := s.txs[k].bundleIds;
    var rows := FailRows(s.rows, ids, cfg.maxRetryAttempts, true, false);
    TerminalRetriesNone(cfg, s.rows, ids);
    assert Rehydrate([], rows, cfg, map[]) == [];
    FailedTxState(cfg, s, k, true, map[], rows, []);
    ExecOne(cfg, s, VerifyFailure(k, true, map[]));
    assert [VerifyFailure(k, true, map[])] + [] == [VerifyFailure(k, true, map[])];
  }

  lemma VerificationLeadsTo(cfg: Config, s: State, k: nat, result: VerificationResult)
    requires k < |s.txs| && s.txs[k].status.Unverified? && s.entering == []
    ensures VerificationOutcome(s, Exec(cfg, s, VerifyRun(cfg, s, k, result)), k, result)
  {
    TerminalFailureEnds(cfg, s, k);
    ExecOne(cfg, s, VerifySuccess(k));
  }

  /** A failed verification in general: the transaction is FAILED, every linked row has used one more attempt and is
      FAILED if that was terminal or the last, else it is active or EXPIRED again; no other row changes. */
  ghost predicate FailureOutcome(cfg: Config, s: State, s': State, k: nat, terminal: bool)
    requires k < |s.txs|
  {
    && OnlyStatusOfTx(s.txs, s'.txs, k, TxFailed)
    && s'.rows.Keys == s.rows.Keys
    && forall id :: id in s.rows ==>
         AttemptedRow(cfg, s.rows[id], s'.rows[id], id in s.txs[k].bundleIds, terminal, true)
  }

  /** One attempt used, FAILED exactly when it was terminal or the last; otherwise active, or EXPIRED if it may have run
      out of time meanwhile. */
  ghost predicate AttemptedRow(cfg: Config, row: Row, row': Row, attempted: bool, terminal: bool, mayExpire: bool) {
    if !attempted then row' == row
    else
      && row' == row.(status := row'.status, retryCount := row.retryCount + 1)
      && if terminal || row.retryCount + 1 >= cfg.maxRetryAttempts then row'.status.Failed?
         else IsActive(row'.status) || (mayExpire && row'.status.Expired?)
  }

  lemma FailedRowThenReAdded(cfg: Config, s: State, k: nat, terminal: bool, priorities: map<BundleId, real>,
                             id: BundleId)
    requires k < |s.txs| && id in s.rows
    ensures var ids := s.txs[k].bundleIds;
      var rows := FailRows(s.rows, ids, cfg.maxRetryAttempts, terminal, false);
      var again := Filter(ids, RetryableId(s.rows, cfg.maxRetryAttempts, terminal));
      var bs := Rehydrate(again, rows, cfg, priorities);
      var rows' := ReAddEffect(cfg.capacity, s.slots, rows, bs, s.now).1;
      rows'.Keys == s.rows.Keys && AttemptedRow(cfg, s.rows[id], rows'[id], id in ids, terminal, true)
  {
    var ids := s.txs[k].bundleIds;
    var rows := FailRows(s.rows, ids, cfg.maxRetryAttempts, terminal, false);
    var again := Filter(ids, RetryableId(s.rows, cfg.maxRetryAttempts, terminal));
    var bs := Rehydrate(again, rows, cfg, priorities);
    assert Ids(bs) == again;
    ReAddRows(cfg.capacity, s.slots, rows, bs, s.now, id);
  }

  lemma FailureLeadsTo(cfg: Config, s: State, k: nat, terminal: bool, priorities: map<BundleId, real>)
    requires k < |s.txs| && s.txs[k].status.Unverified? && s.entering == [] && s.marking == multiset{}
    ensures FailureOutcome(cfg, s, Exec(cfg, s, VerifyFailureRun(cfg, s, k, terminal, priorities)), k, terminal)
  {
    var ids := s.txs[k].bundleIds;
    var rows := FailRows(s.rows, ids, cfg.maxRetryAttempts, terminal, false);
    var bs := Rehydrate(Filter(ids, RetryableId(s.rows, cfg.maxRetryAttempts, terminal)), rows, cfg, priorities);
    FailedTxState(cfg, s, k, terminal, priorities, rows, bs);
    StepThenReAdd(cfg, s, VerifyFailure(k, terminal, priorities));
    ReAddRunEffect(cfg, Apply(cfg, s, VerifyFailure(k, terminal, priorities)));
    forall id | id in s.rows
      ensures var rows' := ReAddEffect(cfg.capacity, s.slots, rows, bs, s.now).1;
        rows'.Keys == s.rows.Keys && AttemptedRow(cfg, s.rows[id], rows'[id], id in ids, terminal, true)
    {
      FailedRowThenReAdded(cfg, s, k, terminal, priorities, id);
    }
    ReAddKeys(cfg.capacity, s.slots, rows, bs, s.now);
  }

  lemma {:induction false} ReAddKeys(capacity: int, slots: seq<SlotState>, rows: Rows, bs: seq<SlotBundle>, now: int)
    ensures ReAddEffect(capacity, slots, rows, bs, now).1.Keys == rows.Keys
    decreases |bs|
  {
    if bs == [] {
    } else {
      var e := AddEffect(capacity, slots, rows, bs[0], now, false);
      ReAddKeys(capacity, e.0, e.1, bs[1..], now);
    }
  }

  // ---------- Sweep ----------

  /** Some bundle of `bs` with that id is past its TTL. */
  ghost predicate ExpiresIn(bs: seq<SlotBundle>, now: int, id: BundleId) {
    exists b :: b in bs && b.bundleId == id && b.ttl <= now
  }

  /** Some bundle of `bs` with that id is not. */
  ghost predicate LivesIn(bs: seq<SlotBundle>, now: int, id: BundleId) {
    exists b :: b in bs && b.bundleId == id && b.ttl > now
  }

  lemma ExpiredIds(bs: seq<SlotBundle>, now: int, id: BundleId)
    ensures id in Ids(Filter(bs, Selected(ExpiredAt(now)))) <==> ExpiresIn(bs, now, id)
  {
    IdsOf(Filter(bs, Selected(ExpiredAt(now))), id);
  }

  lemma LivingIds(bs: seq<SlotBundle>, now: int, id: BundleId)
    ensures id in Ids(Filter(bs, Kept(ExpiredAt(now)))) <==> LivesIn(bs, now, id)
  {
    IdsOf(Filter(bs, Kept(ExpiredAt(now))), id);
  }

  lemma IdsOf(bs: seq<SlotBundle>, id: BundleId)
    ensures id in Ids(bs) <==> exists b :: b in bs && b.bundleId == id
  {
    if id in Ids(bs) {
      var i :| 0 <= i < |bs| && Ids(bs)[i] == id;
      assert bs[i] in bs;
    }
    if b :| b in bs && b.bundleId == id {
      CountMember(bs, b);
      CountIsMultiplicity(bs, id);
    }
  }

  /** The sweep leaves exactly the bundles whose TTL is still ahead, in order, writes exactly the rows of the others
      EXPIRED, and touches nothing else. */
  ghost predicate SweepOutcome(s: State, s': State) {
    && Flatten(s'.slots) == Filter(Flatten(s.slots), (b: SlotBundle) => b.ttl > s.now)
    && (forall slot :: slot in s'.slots ==> slot.bundles != [])
    && s'.rows.Keys == s.rows.Keys
    && (forall id :: id in s.rows ==>
          s'.rows[id] == if ExpiresIn(Flatten(s.slots), s.now, id) then s.rows[id].(status := Expired) else s.rows[id])
    && s'.txs == s.txs
  }

  lemma {:induction false} FilterSame(bs: seq<SlotBundle>, f: SlotBundle -> bool, g: SlotBundle -> bool)
    requires forall b :: b in bs ==> f(b) == g(b)
    ensures Filter(bs, f) == Filter(bs, g)
  {
    if bs == [] {
    } else {
      FilterSame(bs[..|bs| - 1], f, g);
      assert bs[|bs| - 1] in bs;
    }
  }

  lemma RemovedIds(slots: seq<SlotState>, now: int, id: BundleId)
    ensures id in Ids(Removed(slots, Selected(ExpiredAt(now)))) <==> ExpiresIn(Flatten(slots), now, id)
  {
    var drop := Selected(ExpiredAt(now));
    RemovedBag(slots, drop);
    CountPermute(Removed(slots, drop), Filter(Flatten(slots), drop), id);
    CountIsMultiplicity(Removed(slots, drop), id);
    CountIsMultiplicity(Filter(Flatten(slots), drop), id);
    ExpiredIds(Flatten(slots), now, id);
  }

  lemma {:induction false} NoEmptySlotLeft(slots: seq<SlotState>, keep: SlotBundle -> bool)
    ensures forall slot :: slot in FilterSlots(slots, keep) ==> slot.bundles != []
  {
    if slots == [] {
    } else {
      NoEmptySlotLeft(slots[1..], keep);
    }
  }

  lemma SweepLeadsTo(cfg: Config, s: State)
    requires s.sweeping == multiset{}
    ensures SweepOutcome(s, Exec(cfg, s, SweepRun(s)))
  {
    SweepRunEffect(cfg, s);
    FilterSlotsFlatten(s.slots, Kept(ExpiredAt(s.now)));
    FilterSame(Flatten(s.slots), Kept(ExpiredAt(s.now)), (b: SlotBundle) => b.ttl > s.now);
    NoEmptySlotLeft(s.slots, Kept(ExpiredAt(s.now)));
    forall id
      ensures id in Ids(Removed(s.slots, Selected(ExpiredAt(s.now)))) <==> ExpiresIn(Flatten(s.slots), s.now, id)
    {
      RemovedIds(s.slots, s.now, id);
    }
  }

  // ---------- Execution ----------

  /** The gate writes EXPIRED to an active row whose bundle is past its TTL. */
  ghost predicate GatedRow(row: Row, row': Row, expired: bool) {
    row' == if expired && IsActive(row.status) then row.(status := Expired) else row
  }

  /** One UNVERIFIED transaction more, with the time to confirm it and exactly the bundles still alive. */
  ghost predicate RecordsOne(cfg: Config, s: State, s': State, bs: seq<SlotBundle>) {
    && |s'.txs| == |s.txs| + 1 && s'.txs[..|s.txs|] == s.txs
    && var t := s'.txs[|s.txs|];
       && t.status.Unverified? && t.timeout == s.now + cfg.expirationOffset * 5 * 1000
       && NoDuplicates(t.bundleIds) && forall id :: id in t.bundleIds <==> LivesIn(bs, s.now, id)
  }

  /** What an executor pass over the first slot leads to. Whatever the outcome the slot is gone and the rows of its
      expired bundles are EXPIRED. Of the others: a submission is recorded and no row changes; a lack of fees makes
      their rows FAILED with the attempts they had; any other failure uses up one attempt each. */
  ghost predicate ExecutionOutcomeOf(cfg: Config, s: State, s': State, outcome: ExecutionOutcome) {
    if s.slots == [] then s' == s
    else
      var bs := s.slots[0].bundles;
      && s'.rows.Keys == s.rows.Keys
      && if (forall b :: b in bs ==> b.ttl <= s.now) then
           && s'.txs == s.txs && s'.slots == s.slots[1..]
           && forall id :: id in s.rows ==> GatedRow(s.rows[id], s'.rows[id], ExpiresIn(bs, s.now, id))
         else match outcome
           case Submitted =>
             && s'.slots == s.slots[1..] && RecordsOne(cfg, s, s', bs)
             && forall id :: id in s.rows ==> GatedRow(s.rows[id], s'.rows[id], ExpiresIn(bs, s.now, id))
           case InsufficientFees =>
             && s'.slots == s.slots[1..] && s'.txs == s.txs
             && forall id :: id in s.rows ==>
                  if LivesIn(bs, s.now, id) then s'.rows[id] == s.rows[id].(status := Failed)
                  else GatedRow(s.rows[id], s'.rows[id], ExpiresIn(bs, s.now, id))
           case ExecutionError(deterministic) =>
             && s'.txs == s.txs
             && forall id :: id in s.rows ==>
                  if LivesIn(bs, s.now, id) then AttemptedRow(cfg, s.rows[id], s'.rows[id], true, deterministic, false)
                  else GatedRow(s.rows[id], s'.rows[id], ExpiresIn(bs, s.now, id))
  }

  /** What the gate leaves: the first slot's living bundles in flight, and the rows of the others written. */
  ghost predicate GatedState(s: State, g: State)
    requires s.slots != []
  {
    var bs := s.slots[0].bundles;
    && g == s.(rows := g.rows, slots := s.slots[1..], flight := g.flight)
    && FlightBundles(g) == Filter(bs, Kept(ExpiredAt(s.now)))
    && (g.flight.None? <==> forall b :: b in bs ==> b.ttl <= s.now)
    && (g.flight.Some? ==> g.flight.value.gateTime == s.now)
    && g.rows.Keys == s.rows.Keys
    && forall id :: id in s.rows ==> GatedRow(s.rows[id], g.rows[id], ExpiresIn(bs, s.now, id))
  }

  lemma GateLeadsTo(cfg: Config, s: State)
    requires s.evicting == multiset{} && s.flight.None? && s.slots != []
    ensures GatedState(s, Exec(cfg, s, PullRun(s)))
  {
    var bs := s.slots[0].bundles;
    PullRunEffect(cfg, s);
    EmptyFilter(bs, s.now);
    forall id ensures id in Ids(Filter(bs, Selected(ExpiredAt(s.now)))) <==> ExpiresIn(bs, s.now, id) {
      ExpiredIds(bs, s.now, id);
    }
  }

  lemma EmptyFilter(bs: seq<SlotBundle>, now: int)
    ensures Filter(bs, Kept(ExpiredAt(now))) == [] <==> forall b :: b in bs ==> b.ttl <= now
  {
    if forall b :: b in bs ==> b.ttl <= now {
      FilterNone(bs, Kept(ExpiredAt(now)));
    } else {
      var b :| b in bs && b.ttl > now;
      assert b in Filter(bs, Kept(ExpiredAt(now)));
    }
  }

  /** A bundle of the first slot that is alive has an active row and no expired copy. */
  lemma LivingIsActive(s: State, id: BundleId)
    requires Placed(s) && s.slots != [] && LivesIn(s.slots[0].bundles, s.now, id)
    ensures ActiveIn(s.rows, id) && !ExpiresIn(s.slots[0].bundles, s.now, id)
  {
    var bs := s.slots[0].bundles;
    var keep, drop := Kept(ExpiredAt(s.now)), Selected(ExpiredAt(s.now));
    CountAppend(bs, Flatten(s.slots[1..]), id);
    CountFilter(bs, keep, drop, id);
    LivingIds(bs, s.now, id);
    ExpiredIds(bs, s.now, id);
    CountIsMultiplicity(Filter(bs, keep), id);
    CountIsMultiplicity(Filter(bs, drop), id);
    HeldIsActive(s, id);
  }

  lemma LivingAreDistinct(s: State)
    requires Placed(s) && s.slots != []
    ensures NoDuplicates(Ids(Filter(s.slots[0].bundles, Kept(ExpiredAt(s.now)))))
  {
    PlacedIsDistinct(s);
    assert s.slots[0] in s.slots;
    FilterDistinct(s.slots[0].bundles, Kept(ExpiredAt(s.now)));
  }

  lemma SubmittedLeadsTo(cfg: Config, s: State, g: State)
    requires Placed(s) && s.slots != [] && GatedState(s, g) && g.flight.Some?
    ensures ExecutionOutcomeOf(cfg, s, Exec(cfg, g, SettleRun(cfg, g, Submitted)), Submitted)
  {
    ExecOne(cfg, g, Submit);
    LivingAreDistinct(s);
    forall id ensures id in Ids(FlightBundles(g)) <==> LivesIn(s.slots[0].bundles, s.now, id) {
      LivingIds(s.slots[0].bundles, s.now, id);
    }
  }

  lemma RejectedLeadsTo(cfg: Config, s: State, g: State)
    requires Placed(s) && s.slots != [] && GatedState(s, g) && g.flight.Some?
    ensures ExecutionOutcomeOf(cfg, s, Exec(cfg, g, SettleRun(cfg, g, InsufficientFees)), InsufficientFees)
  {
    ExecOne(cfg, g, RejectFees);
    var bs := s.slots[0].bundles;
    forall id ensures id in Ids(FlightBundles(g)) <==> LivesIn(bs, s.now, id)
              ensures LivesIn(bs, s.now, id) ==> !ExpiresIn(bs, s.now, id)
    {
      LivingIds(bs, s.now, id);
      if LivesIn(bs, s.now, id) { LivingIsActive(s, id); }
    }
  }

  /** A failed slot's rows once its retryable bundles, none of them past its TTL, have been offered again. */
  lemma FailedSlotRow(cfg: Config, slots: seq<SlotState>, rows: Rows, living: seq<SlotBundle>, deterministic: bool,
                      now: int, id: BundleId)
    requires id in rows && forall b :: b in living ==> b.ttl > now
    requires id in Ids(living) ==> IsActive(rows[id].status)
    ensures var failed := FailRows(rows, Ids(living), cfg.maxRetryAttempts, deterministic, true);
      var again := WithRetryCount(Filter(living, Retryable(rows, cfg.maxRetryAttempts, deterministic)), failed);
      var rows' := ReAddEffect(cfg.capacity, slots, failed, again, now).1;
      rows'.Keys == rows.Keys && AttemptedRow(cfg, rows[id], rows'[id], id in Ids(living), deterministic, false)
  {
    var failed := FailRows(rows, Ids(living), cfg.maxRetryAttempts, deterministic, true);
    var kept := Filter(living, Retryable(rows, cfg.maxRetryAttempts, deterministic));
    var again := WithRetryCount(kept, failed);
    ReAddRows(cfg.capacity, slots, failed, again, now, id);
    NoneExpired(kept, failed, now);
    assert Ids(again) == Ids(kept);
    IdsOf(kept, id);
  }

  lemma NoneExpired(bs: seq<SlotBundle>, rows: Rows, now: int)
    requires forall b :: b in bs ==> b.ttl > now
    ensures !AnyExpired(WithRetryCount(bs, rows), now)
  {
    var again := WithRetryCount(bs, rows);
    forall b | b in again ensures b.ttl > now {
      var i :| 0 <= i < |again| && again[i] == b;
      assert bs[i] in bs;
    }
  }

  lemma FailedLeadsTo(cfg: Config, s: State, g: State, deterministic: bool)
    requires Placed(s) && s.slots != [] && GatedState(s, g) && g.flight.Some?
    requires s.entering == [] && s.marking == multiset{}
    ensures ExecutionOutcomeOf(cfg, s, Exec(cfg, g, SettleRun(cfg, g, ExecutionError(deterministic))),
                               ExecutionError(deterministic))
  {
    var bs, living := s.slots[0].bundles, FlightBundles(g);
    var failed := FailRows(g.rows, Ids(living), cfg.maxRetryAttempts, deterministic, true);
    var again := WithRetryCount(Filter(living, Retryable(g.rows, cfg.maxRetryAttempts, deterministic)), failed);
    FailedSlotState(cfg, g, deterministic, failed, again);
    StepThenReAdd(cfg, g, FailExecution(deterministic));
    ReAddRunEffect(cfg, Apply(cfg, g, FailExecution(deterministic)));
    ReAddKeys(cfg.capacity, g.slots, failed, again, g.now);
    forall id | id in s.rows
      ensures var rows' := ReAddEffect(cfg.capacity, g.slots, failed, again, g.now).1;
        if LivesIn(bs, s.now, id) then AttemptedRow(cfg, s.rows[id], rows'[id], true, deterministic, false)
        else GatedRow(s.rows[id], rows'[id], ExpiresIn(bs, s.now, id))
    {
      LivingIds(bs, s.now, id);
      if LivesIn(bs, s.now, id) { LivingIsActive(s, id); }
      FailedSlotRow(cfg, g.slots, g.rows, living, deterministic, g.now, id);
    }
  }

  lemma ExecutionLeadsTo(cfg: Config, s: State, outcome: ExecutionOutcome)
    requires Placed(s) && s.flight.None? && s.entering == [] && s.evicting == multiset{} && s.marking == multiset{}
    ensures ExecutionOutcomeOf(cfg, s, Exec(cfg, s, ExecutorRun(cfg, s, outcome)), outcome)
  {
    var g := Exec(cfg, s, PullRun(s));
    if s.slots != [] {
      GateLeadsTo(cfg, s);
      if g.flight.Some? {
        ExecConcat(cfg, s, PullRun(s), SettleRun(cfg, g, outcome));
        match outcome
        case Submitted => SubmittedLeadsTo(cfg, s, g);
        case InsufficientFees => RejectedLeadsTo(cfg, s, g);
        case ExecutionError(deterministic) => FailedLeadsTo(cfg, s, g, deterministic);
      } else {
        assert PullRun(s) + [] == PullRun(s);
      }
    }
  }

  // ---------- Admission ----------

  /** The row holds what was submitted, the fee and TTL computed from it, and no used attempt. */
  predicate HoldsAdmission(s: State, a: Action, row: Row)
    requires a.Admit?
  {
    var ops := ClassifyOperations(a.operations);
    && row.channel == a.channel && row.operations == ops && row.fee == BundleFee(ops, a.balances) && row.fee >= 1
    && row.ttl == BundleTtl(s.now, a.latestLedger, ops.spend) && row.retryCount == 0
    && row.createdAt == if a.id in s.rows then s.rows[a.id].createdAt else s.now
  }

  /** The bundle offered to the mempool for a row. */
  function OfferedFor(cfg: Config, a: Action, row: Row): SlotBundle
    requires a.Admit?
  {
    SlotBundle(a.id, a.channel, row.operations, row.fee, TotalWeight(a.operations, cfg), row.ttl, row.createdAt,
               a.priority, 0)
  }

  /** Where an accepted and persisted admission ends: EXPIRED without a slot when it is past its TTL, else PROCESSING
      with its bundle in the mempool, or PENDING after SLOT_FULL. */
  ghost predicate OfferOutcome(cfg: Config, s: State, s': State, a: Action, row: Row)
    requires a.Admit?
  {
    if row.ttl <= s.now then row.status.Expired? && s'.slots == s.slots
    else
      var b := OfferedFor(cfg, a, row);
      || (row.status.Processing? && multiset(Flatten(s'.slots)) == multiset(Flatten(s.slots)) + multiset{b})
      || (row.status.Pending? && LeftOut(cfg.capacity, s.slots, b, s'.slots))
  }

  /** What an admission leads to. A refusal changes nothing. Otherwise the row is written, created UTXOs are recorded,
      no other row changes, and the bundle is offered unless its spends cannot be persisted. */
  ghost predicate AdmissionOutcomeOf(cfg: Config, s: State, s': State, a: Action)
    requires a.Admit?
  {
    var ops := ClassifyOperations(a.operations);
    if AdmissionRefusal(s.rows, a.id, ops, a.balances).Some? then s' == s
    else
      && s'.txs == s.txs && s'.utxos == s.utxos + UtxosOf(ops.create)
      && s'.rows.Keys == s.rows.Keys + {a.id}
      && (forall id :: id in s.rows && id != a.id ==> s'.rows[id] == s.rows[id])
      && HoldsAdmission(s, a, s'.rows[a.id])
      && if PersistFailure(s'.utxos, ops.spend, a.balancesReadAgain).Some?
         then s'.rows[a.id].status.Pending? && s'.slots == s.slots
         else OfferOutcome(cfg, s, s', a, s'.rows[a.id])
  }

  lemma AdmittedHolds(s: State, a: Action)
    requires a.Admit? && AdmissionRefusal(s.rows, a.id, ClassifyOperations(a.operations), a.balances).None?
    ensures var ops := ClassifyOperations(a.operations);
      var row := AdmittedRow(s.rows, a.id, a.channel, ops, a.balances, a.latestLedger, s.now);
      HoldsAdmission(s, a, row) && row.status.Pending?
  {
  }

  lemma OneOffer(capacity: int, slots: seq<SlotState>, rows: Rows, b: SlotBundle, now: int)
    ensures var e := AddEffect(capacity, slots, rows, b, now, false);
      var r := ReAddEffect(capacity, slots, rows, [b], now);
      r.0 == e.0 && r.1 == e.1
  {
    assert [b][1..] == [];
  }

  /** The offer of a freshly written row. */
  lemma OfferLeadsTo(cfg: Config, s: State, a: Action, row: Row, rows: Rows)
    requires a.Admit? && SlotsOk(s.slots) && HoldsAdmission(s, a, row) && row.status.Pending?
    requires rows == s.rows[a.id := row]
    ensures var b := CreateSlotBundle(a.id, row, cfg, a.priority);
      var e := AddEffect(cfg.capacity, s.slots, rows, b, s.now, false);
      && e.1.Keys == rows.Keys && (forall id :: id in rows && id != a.id ==> e.1[id] == rows[id])
      && HoldsAdmission(s, a, e.1[a.id]) && OfferOutcome(cfg, s, s.(slots := e.0), a, e.1[a.id])
  {
    var b := CreateSlotBundle(a.id, row, cfg, a.priority);
    WeightIsSumOfOperations(a.operations, cfg);
    AddOutcomeOf(cfg.capacity, s.slots, rows, b, s.now, false);
    assert b == OfferedFor(cfg, a, row);
  }

  /** The state an accepted admission ends in, before and after the offer. */
  lemma AcceptedEnds(cfg: Config, s: State, a: Action)
    requires a.Admit? && s.entering == [] && s.marking == multiset{}
    requires AdmissionRefusal(s.rows, a.id, ClassifyOperations(a.operations), a.balances).None?
    ensures var ops := ClassifyOperations(a.operations);
      var row := AdmittedRow(s.rows, a.id, a.channel, ops, a.balances, a.latestLedger, s.now);
      var rows, recorded := s.rows[a.id := row], s.utxos + UtxosOf(ops.create);
      var e := AddEffect(cfg.capacity, s.slots, rows, CreateSlotBundle(a.id, row, cfg, a.priority), s.now, false);
      Exec(cfg, s, AdmissionRun(cfg, s, a))
        == if PersistFailure(recorded, ops.spend, a.balancesReadAgain).Some? then s.(rows := rows, utxos := recorded)
           else s.(rows := e.1, utxos := recorded, slots := e.0)
  {
    var ops := ClassifyOperations(a.operations);
    var row := AdmittedRow(s.rows, a.id, a.channel, ops, a.balances, a.latestLedger, s.now);
    AdmittedState(cfg, s, a);
    StepThenReAdd(cfg, s, a);
    ReAddRunEffect(cfg, Apply(cfg, s, a));
    OneOffer(cfg.capacity, s.slots, s.rows[a.id := row], CreateSlotBundle(a.id, row, cfg, a.priority), s.now);
  }

  lemma RefusedEnds(cfg: Config, s: State, a: Action)
    requires a.Admit? && s.entering == []
    requires AdmissionRefusal(s.rows, a.id, ClassifyOperations(a.operations), a.balances).Some?
    ensures Exec(cfg, s, AdmissionRun(cfg, s, a)) == s
  {
    ExecOne(cfg, s, a);
    assert [a] + [] == [a];
  }

  lemma AdmissionLeadsTo(cfg: Config, s: State, a: Action)
    requires a.Admit? && SlotsOk(s.slots) && s.entering == [] && s.marking == multiset{}
    ensures AdmissionOutcomeOf(cfg, s, Exec(cfg, s, AdmissionRun(cfg, s, a)), a)
  {
    var ops := ClassifyOperations(a.operations);
    if AdmissionRefusal(s.rows, a.id, ops, a.balances).Some? {
      RefusedEnds(cfg, s, a);
    } else {
      var row := AdmittedRow(s.rows, a.id, a.channel, ops, a.balances, a.latestLedger, s.now);
      AcceptedEnds(cfg, s, a);
      AdmittedHolds(s, a);
      OfferLeadsTo(cfg, s, a, row, s.rows[a.id := row]);
    }
  }

  /** An executor pass is the executor's run, and from a state the invariant allows it leads to its outcome. */
  ghost predicate ExecutorPass(cfg: Config, s: State, s': State, outcome: ExecutionOutcome) {
    && s' == Exec(cfg, s, ExecutorRun(cfg, s, outcome))
    && (Placed(s) ==> ExecutionOutcomeOf(cfg, s, s', outcome))
  }

  // ---------- For callers that do not know the state is well formed ----------

  lemma ExecutionLeadsToIfPlaced(cfg: Config, s: State, outcome: ExecutionOutcome)
    requires s.flight.None? && s.entering == [] && s.evicting == multiset{} && s.marking == multiset{}
    ensures Placed(s) ==> ExecutionOutcomeOf(cfg, s, Exec(cfg, s, ExecutorRun(cfg, s, outcome)), outcome)
  {
    if Placed(s) { ExecutionLeadsTo(cfg, s, outcome); }
  }

  lemma AdmissionLeadsToIfOk(cfg: Config, s: State, a: Action)
    requires a.Admit? && s.entering == [] && s.marking == multiset{}
    ensures SlotsOk(s.slots) ==> AdmissionOutcomeOf(cfg, s, Exec(cfg, s, AdmissionRun(cfg, s, a)), a)
  {
    if SlotsOk(s.slots) { AdmissionLeadsTo(cfg, s, a); }
  }
}
