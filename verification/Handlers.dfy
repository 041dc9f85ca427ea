/**
 The asynchronous handlers as they run from start to finish: admission, the TTL sweep, one executor pass
 and one verification. Each is proved to be a run of the step system, so what holds over all runs holds
 for the code that changes the tables and the mempool in place.
 */
module Handlers {
  import opened Sequences
  import opened Bundles
  import opened SlotModel
  import opened Cascade
  import opened Fees
  import opened Ttl
  import opened Pipeline
  import opened Repository
  import opened MempoolProcess
  import opened FailureHandling
  import opened HandlerRuns
  import opened Outcomes

  class TransactionTable {
    var txs: seq<Tx>

    constructor ()
      ensures txs == []
    {
      txs := [];
    }

    method Create(timeout: int, bundleIds: seq<BundleId>)
      modifies this
      ensures txs == old(txs) + [Tx(Unverified, timeout, bundleIds)]
    {
      txs := txs + [Tx(Unverified, timeout, bundleIds)];
    }

    method UpdateStatus(k: nat, status: TxStatus)
      requires k < |txs|
      modifies this
      ensures txs == old(txs)[k := old(txs)[k].(status := status)]
    {
      txs := txs[k := txs[k].(status := status)];
    }
  }

  /** The UTXOs this provider has recorded. */
  class UtxoTable {
    var ids: set<UtxoId>

    constructor ()
      ensures ids == {}
    {
      ids := {};
    }
  }

  class Platform {
    const cfg: Config
    const table: BundleTable
    const txTable: TransactionTable
    const mempool: Mempool
    const utxoTable: UtxoTable
    var isProcessing: bool

    ghost predicate Valid()
      reads mempool, mempool.slots
    {
      mempool.table == table && mempool.capacity == cfg.capacity && mempool.Valid()
    }

    /** The step-system state this platform is in, given what handlers currently hold. */
    ghost function World(now: int, flight: Option<Flight>, entering: seq<SlotBundle>,
                         sweeping: multiset<BundleId>, evicting: multiset<BundleId>): State
      reads table, txTable, utxoTable, mempool, mempool.slots
    {
      State(table.rows, txTable.txs, utxoTable.ids, States(mempool.slots), flight, entering, sweeping, evicting,
            multiset{}, now)
    }

    /** The state between handlers. */
    ghost function Idle(now: int): State
      reads table, txTable, utxoTable, mempool, mempool.slots
    {
      World(now, None, [], multiset{}, multiset{})
    }

    constructor (cfg: Config)
      ensures Valid() && !isProcessing && this.cfg == cfg && Idle(0) == INITIAL
    {
      this.cfg := cfg;
      var t := new BundleTable();
      table := t;
      txTable := new TransactionTable();
      mempool := new Mempool(cfg.capacity, t);
      utxoTable := new UtxoTable();
      isProcessing := false;
    }

    /** `reAddBundles`: offers each bundle in turn and goes on when one does not fit. */
    method ReAddBundles(bundles: seq<SlotBundle>, now: int)
      requires Valid()
      modifies mempool, mempool.slots, table
      ensures Valid()
      ensures var start := old(World(now, None, bundles, multiset{}, multiset{}));
        Idle(now) == Exec(cfg, start, ReAddRun(cfg, start))
    {
      ReAddRunEffect(cfg, World(now, None, bundles, multiset{}, multiset{}));
      OfferAll(bundles, now);
    }

    method OfferAll(bundles: seq<SlotBundle>, now: int)
      requires Valid()
      modifies mempool, mempool.slots, table
      ensures Valid()
      ensures (States(mempool.slots), table.rows)
           == ReAddEffect(cfg.capacity, old(States(mempool.slots)), old(table.rows), bundles, now)
    {
      ghost var goal := ReAddEffect(cfg.capacity, States(mempool.slots), table.rows, bundles, now);
      assert bundles[0..] == bundles;
      for i := 0 to |bundles|
        invariant Valid()
        invariant forall k :: 0 <= k < |mempool.slots| ==>
          mempool.slots[k] in old(mempool.slots) || fresh(mempool.slots[k])
        invariant Offering(cfg.capacity, States(mempool.slots), table.rows, bundles[i..], now, goal)
      {
        OfferingNext(cfg.capacity, States(mempool.slots), table.rows, bundles, i, now, goal);
        var _ := mempool.AddBundle(bundles[i], now, false);
      }
    }

    /** The TTL sweep: expired bundles leave their slots, then their rows are written one by one. */
    method ExpireBundles(now: int)
      requires Valid() && AllSeparable(States(mempool.slots), ExpiredAt(now))
      modifies mempool, mempool.slots, table
      ensures Valid()
      ensures Idle(now) == Exec(cfg, old(Idle(now)), SweepRun(old(Idle(now))))
      ensures SweepOutcome(old(Idle(now)), Idle(now))
    {
      SweepLeadsTo(cfg, Idle(now));
      SweepFrom(now, Idle(now));
    }

    method SweepFrom(now: int, ghost start: State)
      requires Valid() && start == Idle(now) && AllSeparable(start.slots, ExpiredAt(now))
      modifies mempool, mempool.slots, table
      ensures Valid() && Idle(now) == Exec(cfg, start, SweepRun(start))
    {
      EvictSlotsIsFilter(start.slots, ExpiredAt(now));
      SweepSlots(now, start.slots, start.rows);
      SweepRunEffect(cfg, start);
    }

    method SweepSlots(now: int, ghost slots: seq<SlotState>, ghost rows: Rows)
      requires Valid() && States(mempool.slots) == slots && table.rows == rows
      modifies mempool, mempool.slots, table
      ensures Valid() && States(mempool.slots) == EvictSlots(slots, ExpiredAt(now))
      ensures table.rows == SetStatuses(rows, Ids(Removed(slots, Selected(ExpiredAt(now)))), Expired)
    {
      var expired := mempool.RemoveMatching(ExpiredAt(now), slots);
      SetAll(table, Ids(expired), Expired);
    }

    // ---------- Executor ----------

    /** Takes the first slot, drops its expired bundles and writes their rows, each only if still active. */
    method PullSlot(now: int) returns (slot: Option<Slot>)
      requires Valid() && DistinctIn(States(mempool.slots))
      modifies mempool, mempool.slots, table
      ensures Valid()
      ensures forall k :: 0 <= k < |mempool.slots| ==> mempool.slots[k] in old(mempool.slots)
      ensures slot.Some? ==> slot.value !in mempool.slots && slot.value.bundles != []
                             && NoDuplicates(Ids(slot.value.bundles))
      ensures World(now, if slot.None? then None else Some(Flight(slot.value.State(), now)), [], multiset{}, multiset{})
           == Exec(cfg, old(Idle(now)), PullRun(old(Idle(now))))
    {
      ghost var start := Idle(now);
      if mempool.slots == [] {
        return None;
      }
      slot := GateFirstSlot(now);
      ghost var first := start.slots[0];
      assert first in start.slots;
      DistinctIsSeparable(start.slots, ExpiredAt(now));
      EvictedIsFilter(first, ExpiredAt(now));
      FilterDistinct(first.bundles, Kept(ExpiredAt(now)));
      PullRunEffect(cfg, start);
    }

    method GateFirstSlot(now: int) returns (slot: Option<Slot>)
      requires Valid() && mempool.slots != []
      modifies mempool, mempool.slots, table
      ensures Valid() && States(mempool.slots) == old(States(mempool.slots))[1..]
      ensures forall k :: 0 <= k < |mempool.slots| ==> mempool.slots[k] in old(mempool.slots)
      ensures slot.Some? ==> slot.value !in mempool.slots && slot.value.bundles != []
      ensures var first := old(States(mempool.slots))[0];
        var kept := Evicted(first, ExpiredAt(now));
        && (slot.None? <==> kept.bundles == [])
        && (slot.Some? ==> slot.value.State() == kept)
        && table.rows
             == SetStatusesIfActive(old(table.rows), Ids(Filter(first.bundles, Selected(ExpiredAt(now)))), Expired)
    {
      slot := mempool.RemoveFirstSlot();
      ExpireSlotBundlesPastTtl(slot.value, now);
      if slot.value.bundles == [] { slot := None; }
    }

    /** `expireSlotBundlesPastTtl`: the gate on a pulled slot. */
    method ExpireSlotBundlesPastTtl(slot: Slot, now: int)
      modifies slot, table
      ensures slot.State() == Evicted(old(slot.State()), ExpiredAt(now))
      ensures table.rows
           == SetStatusesIfActive(old(table.rows), Ids(Filter(old(slot.bundles), Selected(ExpiredAt(now)))), Expired)
    {
      var evicted := EvictMatching(slot, ExpiredAt(now));
      SetAllIfActive(table, Ids(evicted), Expired);
    }

    /** What becomes of the slot once the network has been tried: recorded, failed for good for lack of
        fees, or failed with some of its bundles queued again. */
    method Settle(slot: Slot, now: int, outcome: ExecutionOutcome)
      requires Valid() && slot !in mempool.slots && NoDuplicates(Ids(slot.bundles))
      modifies mempool, mempool.slots, table, txTable
      ensures Valid()
      ensures var start := old(World(now, Some(Flight(slot.State(), now)), [], multiset{}, multiset{}));
        Idle(now) == Exec(cfg, start, SettleRun(cfg, start, outcome))
    {
      ghost var start := World(now, Some(Flight(slot.State(), now)), [], multiset{}, multiset{});
      var bundles := slot.bundles;
      match outcome
      case Submitted =>
        txTable.Create(now + cfg.expirationOffset * LEDGER_CLOSE_TIME_MS, Ids(bundles));
        ExecOne(cfg, start, Submit);
      case InsufficientFees =>
        SetAll(table, Ids(bundles), Failed);
        ExecOne(cfg, start, RejectFees);
      case ExecutionError(deterministic) =>
        RetryOrFail(bundles, now, deterministic, start);
    }

    method RetryOrFail(bundles: seq<SlotBundle>, now: int, deterministic: bool, ghost start: State)
      requires Valid() && start.flight.Some? && start.flight.value.slot.bundles == bundles && NoDuplicates(Ids(bundles))
      requires start == World(now, start.flight, [], multiset{}, multiset{})
      modifies mempool, mempool.slots, table
      ensures Valid()
      ensures Idle(now) == Exec(cfg, start, SettleRun(cfg, start, ExecutionError(deterministic)))
    {
      var again := FailBundles(bundles, deterministic);
      assert World(now, None, again, multiset{}, multiset{})
          == start.(flight := None, rows := table.rows, entering := again);
      FailedSlotState(cfg, start, deterministic, table.rows, again);
      FinishStep(again, now, start, FailExecution(deterministic));
    }

    /** Queues what a step left entering. */
    method FinishStep(bundles: seq<SlotBundle>, now: int, ghost start: State, ghost a: Action)
      requires Valid() && World(now, None, bundles, multiset{}, multiset{}) == Apply(cfg, start, a)
      modifies mempool, mempool.slots, table
      ensures Valid() && Idle(now) == Exec(cfg, start, [a] + ReAddRun(cfg, Apply(cfg, start, a)))
    {
      StepThenReAdd(cfg, start, a);
      ReAddBundles(bundles, now);
    }

    /** The row writes after a failed execution, and the copies to queue again. */
    method FailBundles(bundles: seq<SlotBundle>, deterministic: bool) returns (again: seq<SlotBundle>)
      requires NoDuplicates(Ids(bundles))
      modifies table
      ensures table.rows == FailRows(old(table.rows), Ids(bundles), cfg.maxRetryAttempts, deterministic, true)
      ensures again == WithRetryCount(Filter(bundles, Retryable(old(table.rows), cfg.maxRetryAttempts, deterministic)),
                                      table.rows)
    {
      ghost var rows := table.rows;
      var bundlesToRetry := HandleExecutionFailure(table, Ids(bundles), cfg.maxRetryAttempts, deterministic);
      again := BuildRetryBundles(bundles, bundlesToRetry);
      FailEachDistinct(rows, Ids(bundles), cfg.maxRetryAttempts, deterministic, true);
      forall b | b in bundles ensures b.bundleId in Ids(bundles) {
        CountMember(bundles, b);
        CountIsMultiplicity(bundles, b.bundleId);
      }
      EnrichedDistinct(rows, Ids(bundles), bundles, cfg.maxRetryAttempts, deterministic);
    }

    /** `executeNext`: one pass of the executor over the first slot; it does nothing while another pass runs. */
    method ExecuteNext(now: int, outcome: ExecutionOutcome)
      requires Valid() && DistinctIn(States(mempool.slots))
      modifies this`isProcessing, mempool, mempool.slots, table, txTable
      ensures Valid() && isProcessing == old(isProcessing)
      ensures isProcessing ==> Idle(now) == old(Idle(now))
      ensures !isProcessing ==> ExecutorPass(cfg, old(Idle(now)), Idle(now), outcome)
    {
      if isProcessing {
        return;
      }
      ExecuteGuarded(now, outcome, Idle(now));
    }

    method ExecuteGuarded(now: int, outcome: ExecutionOutcome, ghost start: State)
      requires Valid() && DistinctIn(States(mempool.slots)) && start == Idle(now) && !isProcessing
      modifies this`isProcessing, mempool, mempool.slots, table, txTable
      ensures Valid() && !isProcessing && ExecutorPass(cfg, start, Idle(now), outcome)
    {
      isProcessing := true;
      PullAndSettle(now, outcome, start);
      isProcessing := false;
    }

    method PullAndSettle(now: int, outcome: ExecutionOutcome, ghost start: State)
      requires Valid() && DistinctIn(States(mempool.slots)) && start == Idle(now)
      modifies mempool, mempool.slots, table, txTable
      ensures Valid() && ExecutorPass(cfg, start, Idle(now), outcome)
    {
      ExecutionLeadsToIfPlaced(cfg, start, outcome);
      var slot := PullSlot(now);
      if slot.Some? {
        ExecConcat(cfg, start, PullRun(start), SettleRun(cfg, Exec(cfg, start, PullRun(start)), outcome));
        Settle(slot.value, now, outcome);
      } else {
        assert PullRun(start) + [] == PullRun(start);
      }
    }

    // ---------- Verifier ----------

    /** `verifyTransaction`: success completes the linked bundles, an on-chain failure or a missed deadline
        fails them for good, and anything else is left for a later pass. */
    method VerifyTransaction(k: nat, result: VerificationResult, now: int)
      requires Valid() && k < |txTable.txs| && txTable.txs[k].status.Unverified?
      requires NoDuplicates(txTable.txs[k].bundleIds)
      modifies mempool, mempool.slots, table, txTable
      ensures Valid()
      ensures Idle(now) == Exec(cfg, old(Idle(now)), VerifyRun(cfg, old(Idle(now)), k, result))
      ensures VerificationOutcome(old(Idle(now)), Idle(now), k, result)
    {
      VerificationLeadsTo(cfg, Idle(now), k, result);
      VerifyFrom(k, result, now, Idle(now));
    }

    method VerifyFrom(k: nat, result: VerificationResult, now: int, ghost start: State)
      requires Valid() && k < |txTable.txs| && txTable.txs[k].status.Unverified? && start == Idle(now)
      requires NoDuplicates(txTable.txs[k].bundleIds)
      modifies mempool, mempool.slots, table, txTable
      ensures Valid() && Idle(now) == Exec(cfg, start, VerifyRun(cfg, start, k, result))
    {
      var tx := txTable.txs[k];
      if tx.bundleIds == [] || (result.NotSeen? && now <= tx.timeout) {
      } else if result.OnChain? {
        txTable.UpdateStatus(k, Verified);
        SetAll(table, tx.bundleIds, Completed);
        ExecOne(cfg, start, VerifySuccess(k));
      } else {
        FailTransaction(k, true, map[], now, start);
      }
    }

    /** `handleVerificationFailure`: the transaction is FAILED, each linked bundle uses up an attempt, and
        those with attempts left are rebuilt from their rows and queued again. */
    method HandleVerificationFailure(k: nat, terminal: bool, priorities: map<BundleId, real>, now: int)
      requires Valid() && k < |txTable.txs| && txTable.txs[k].status.Unverified?
      requires NoDuplicates(txTable.txs[k].bundleIds)
      modifies mempool, mempool.slots, table, txTable
      ensures Valid()
      ensures Idle(now) == Exec(cfg, old(Idle(now)), VerifyFailureRun(cfg, old(Idle(now)), k, terminal, priorities))
      ensures FailureOutcome(cfg, old(Idle(now)), Idle(now), k, terminal)
    {
      FailureLeadsTo(cfg, Idle(now), k, terminal, priorities);
      FailTransaction(k, terminal, priorities, now, Idle(now));
    }

    method FailTransaction(k: nat, terminal: bool, priorities: map<BundleId, real>, now: int, ghost start: State)
      requires Valid() && k < |txTable.txs| && txTable.txs[k].status.Unverified? && start == Idle(now)
      requires NoDuplicates(txTable.txs[k].bundleIds)
      modifies mempool, mempool.slots, table, txTable
      ensures Valid() && Idle(now) == Exec(cfg, start, VerifyFailureRun(cfg, start, k, terminal, priorities))
    {
      var ids := txTable.txs[k].bundleIds;
      txTable.UpdateStatus(k, TxFailed);
      var retryableBundleIds := FailVerifiedRows(table, ids, cfg.maxRetryAttempts, terminal);
      FailEachDistinct(start.rows, ids, cfg.maxRetryAttempts, terminal, false);
      RetryIdsDistinct(start.rows, ids, cfg.maxRetryAttempts, terminal);
      var slotBundles := Rehydrate(retryableBundleIds, table.rows, cfg, priorities);
      FailedTxState(cfg, start, k, terminal, priorities, table.rows, slotBundles);
      FinishStep(slotBundles, now, start, VerifyFailure(k, terminal, priorities));
    }

    // ---------- Admission ----------

    /** `P_AddOperationsBundle` past its session checks. An id in use or a fee below one is refused with nothing
        written. Otherwise the row is created or reused and the created UTXOs are recorded; if then the spends cannot
        be persisted the row stays and the bundle goes nowhere, else it is offered to the mempool. */
    method AddOperationsBundle(id: BundleId, channel: ChannelId, operations: seq<Operation>, latestLedger: int,
                               balances: Balances, priority: real, balancesReadAgain: bool, now: int)
      returns (error: Option<AdmissionError>)
      requires Valid()
      modifies utxoTable, mempool, mempool.slots, table
      ensures Valid()
      ensures error == AdmissionAnswer(old(Idle(now)), id, ClassifyOperations(operations), balances, balancesReadAgain)
      ensures var admit := Admit(id, channel, operations, latestLedger, balances, priority, balancesReadAgain);
        && Idle(now) == Exec(cfg, old(Idle(now)), AdmissionRun(cfg, old(Idle(now)), admit))
        && (SlotsOk(old(States(mempool.slots))) ==> AdmissionOutcomeOf(cfg, old(Idle(now)), Idle(now), admit))
    {
      ghost var start := Idle(now);
      ghost var admit := Admit(id, channel, operations, latestLedger, balances, priority, balancesReadAgain);
      AdmissionLeadsToIfOk(cfg, start, admit);
      var bundles;
      error, bundles := Persist(id, channel, operations, latestLedger, balances, priority, balancesReadAgain, now);
      FinishStep(bundles, now, start, admit);
    }

    /** Everything admission does before the mempool is asked, and the bundle to offer to it, if any. */
    method Persist(id: BundleId, channel: ChannelId, operations: seq<Operation>, latestLedger: int,
                   balances: Balances, priority: real, balancesReadAgain: bool, now: int)
      returns (error: Option<AdmissionError>, bundles: seq<SlotBundle>)
      modifies utxoTable, table
      ensures error == AdmissionAnswer(old(Idle(now)), id, ClassifyOperations(operations), balances, balancesReadAgain)
      ensures var admit := Admit(id, channel, operations, latestLedger, balances, priority, balancesReadAgain);
        World(now, None, bundles, multiset{}, multiset{}) == ApplyAdmit(cfg, old(Idle(now)), admit)
    {
      var classified := ClassifyOperations(operations);
      error := AdmissionRefusal(table.rows, id, classified, balances);
      if error.Some? {
        return error, [];
      }
      ghost var start := Idle(now);
      var row;
      error, row := WriteTables(id, channel, classified, latestLedger, balances, balancesReadAgain, now);
      bundles := if error.Some? then [] else [CreateSlotBundle(id, row, cfg, priority)];
      AdmittedState(cfg, start, Admit(id, channel, operations, latestLedger, balances, priority, balancesReadAgain));
    }

    /** The writes of an accepted admission: the row, the created UTXOs, and the spends if they can be persisted. */
    method WriteTables(id: BundleId, channel: ChannelId, classified: ClassifiedOperations, latestLedger: int,
                       balances: Balances, balancesReadAgain: bool, now: int)
      returns (error: Option<AdmissionError>, row: Row)
      modifies utxoTable, table
      ensures row == AdmittedRow(old(table.rows), id, channel, classified, balances, latestLedger, now)
      ensures table.rows == old(table.rows)[id := row]
      ensures utxoTable.ids == old(utxoTable.ids) + UtxosOf(classified.create)
      ensures error == PersistFailure(utxoTable.ids, classified.spend, balancesReadAgain)
    {
      row := WriteAdmittedRow(id, channel, classified, latestLedger, balances, now);
      PersistCreateOperations(classified.create);
      error := PersistSpendOperations(classified.spend, balancesReadAgain);
    }

    /** Creates the row, or reuses the EXPIRED or FAILED one with that id. */
    method WriteAdmittedRow(id: BundleId, channel: ChannelId, classified: ClassifiedOperations, latestLedger: int,
                            balances: Balances, now: int) returns (row: Row)
      modifies table
      ensures row == AdmittedRow(old(table.rows), id, channel, classified, balances, latestLedger, now)
      ensures table.rows == old(table.rows)[id := row]
    {
      var ttl := CalculateBundleTtl(now, Some(classified), Some(latestLedger));
      var existing := table.FindById(id);
      row := Row(Pending, channel, ttl, classified, BundleFee(classified, balances), 0,
                 if existing.Some? then existing.value.createdAt else now);
      table.Put(id, row);
    }

    /** Records the created UTXOs; one that is recorded already is left alone. */
    method PersistCreateOperations(operations: seq<Operation>)
      modifies utxoTable
      ensures utxoTable.ids == old(utxoTable.ids) + UtxosOf(operations)
    {
      for i := 0 to |operations|
        invariant utxoTable.ids == old(utxoTable.ids) + UtxosOf(operations[..i])
      {
        var op := operations[i];
        assert forall x :: x in operations[..i + 1] <==> x in operations[..i] || x == op;
        if op.Create? || op.Spend? {
          if op.utxo in utxoTable.ids { continue; }
          utxoTable.ids := utxoTable.ids + {op.utxo};
        }
      }
      assert operations[..|operations|] == operations;
    }

    /** Looks up each spent UTXO and stops at the first that is not recorded. */
    method PersistSpendOperations(operations: seq<Operation>, balancesReadAgain: bool)
      returns (error: Option<AdmissionError>)
      ensures error == PersistFailure(utxoTable.ids, operations, balancesReadAgain)
      ensures error == Some(ChannelRpcUnavailable) <==> operations != [] && !balancesReadAgain
      ensures error.None? <==> operations == [] || (balancesReadAgain && UtxosOf(operations) <= utxoTable.ids)
    {
      if |operations| == 0 { return None; }
      if !balancesReadAgain { return Some(ChannelRpcUnavailable); }
      assert operations[0..] == operations;
      for i := 0 to |operations|
        invariant FirstUnrecorded(utxoTable.ids, operations[i..]) == FirstUnrecorded(utxoTable.ids, operations)
      {
        var op := operations[i];
        assert operations[i..][0] == op && operations[i..][1..] == operations[i + 1..];
        if (op.Create? || op.Spend?) && op.utxo !in utxoTable.ids {
          return Some(UtxoNotFound(op.utxo));
        }
      }
      return None;
    }
  }
}
