/**
 The bundle pipeline as a step system. One step is what runs between two suspension points of the
 asynchronous code, so admission, the sweep, the executor and the verifier interleave freely.

 A bundle that is not in a slot is in one of these places while some handler holds it:
   entering  admitted or due for a retry, not yet offered to the mempool
   flight    pulled by the executor, not yet submitted or failed
   sweeping  taken out by the TTL sweep, its EXPIRED row write still to come (not status-gated)
   evicting  taken out by the executor's TTL gate, its EXPIRED row write still to come (status-gated)
   txs       linked to a recorded transaction
 `marking` holds the ids whose gated PROCESSING write is still to come after they entered a slot, and `utxos`
 the UTXO ids this provider has recorded.
 */
module Pipeline {
  import opened Sequences
  import opened Bundles
  import opened SlotModel
  import opened Cascade
  import opened Fees
  import opened Ttl

  datatype TxStatus = Unverified | Verified | TxFailed

  /** A transaction record with its bundle links; it is identified by its position. */
  datatype Tx = Tx(status: TxStatus, timeout: int, bundleIds: seq<BundleId>)

  /** The slot the executor works on, and when its TTL gate ran. */
  datatype Flight = Flight(slot: SlotState, gateTime: int)

  datatype State = State(
    rows: Rows, txs: seq<Tx>, utxos: set<UtxoId>, slots: seq<SlotState>, flight: Option<Flight>,
    entering: seq<SlotBundle>, sweeping: multiset<BundleId>, evicting: multiset<BundleId>,
    marking: multiset<BundleId>, now: int)

  const INITIAL := State(map[], [], {}, [], None, [], multiset{}, multiset{}, multiset{}, 0)

  datatype Action =
    | Admit(id: BundleId, channel: ChannelId, operations: seq<Operation>, latestLedger: int,
            balances: Balances, priority: real, balancesReadAgain: bool)
    | AddToMempool(k: nat)
    | MarkProcessing(id: BundleId)
    | FailMark(id: BundleId)
    | Sweep
    | WriteSwept(id: BundleId)
    | Pull
    | WriteEvicted(id: BundleId)
    | Submit
    | FailExecution(deterministic: bool)
    | RejectFees
    | VerifySuccess(tx: nat)
    | VerifyFailure(tx: nat, terminal: bool, priorities: map<BundleId, real>)
    | Tick(ms: nat)
    | Restart(cutoff: Option<int>, found: seq<BundleId>, priorities: map<BundleId, real>)

  // ---------- Row writes ----------

  /** `update`: writes the status whatever the row holds. */
  function SetStatus(rows: Rows, id: BundleId, status: BundleStatus): Rows {
    if id in rows then rows[id := rows[id].(status := status)] else rows
  }

  predicate ActiveIn(rows: Rows, id: BundleId) { id in rows && IsActive(rows[id].status) }

  /** `updateStatusIfActive`: writes the status of a PENDING or PROCESSING row only. */
  function SetStatusIfActive(rows: Rows, id: BundleId, status: BundleStatus): Rows {
    if ActiveIn(rows, id) then SetStatus(rows, id, status) else rows
  }

  /** Active rows created before `cutoff`. */
  function Stale(rows: Rows, cutoff: int): set<BundleId> {
    set id | id in rows && IsActive(rows[id].status) && rows[id].createdAt < cutoff
  }

  function ExpireIds(rows: Rows, ids: set<BundleId>): Rows {
    map id | id in rows :: if id in ids then rows[id].(status := Expired) else rows[id]
  }

  /** One unbounded expiry of everything stale. */
  function ExpireStale(rows: Rows, cutoff: int): Rows { ExpireIds(rows, Stale(rows, cutoff)) }

  /** The status of several rows, as one ungated write each. */
  function SetStatuses(rows: Rows, ids: seq<BundleId>, status: BundleStatus): Rows {
    map id | id in rows :: if id in ids then rows[id].(status := status) else rows[id]
  }

  /** A failure ends the bundle when it is terminal or uses up the last attempt. */
  predicate EndsBundle(row: Row, maxRetryAttempts: int, terminal: bool) {
    terminal || row.retryCount + 1 >= maxRetryAttempts
  }

  function FailRow(row: Row, maxRetryAttempts: int, terminal: bool): Row {
    row.(retryCount := row.retryCount + 1,
         status := if EndsBundle(row, maxRetryAttempts, terminal) then Failed else Pending)
  }

  /** One failed attempt for each of `ids`; when `gated`, rows that are not active are left alone. */
  function FailRows(rows: Rows, ids: seq<BundleId>, maxRetryAttempts: int, terminal: bool, gated: bool): Rows {
    map id | id in rows ::
      if id in ids && (gated ==> IsActive(rows[id].status)) then FailRow(rows[id], maxRetryAttempts, terminal)
      else rows[id]
  }

  // ---------- Admission ----------

  datatype AdmissionError =
    | BundleAlreadyExists
    | InsufficientBalance(covered: int, required: int)
    | ChannelRpcUnavailable
    | UtxoNotFound(utxo: UtxoId)

  /** Why an admission is refused with nothing written: the id is in use, or the fee is not positive. */
  function AdmissionRefusal(rows: Rows, id: BundleId, ops: ClassifiedOperations, balances: Balances)
    : Option<AdmissionError>
  {
    if id in rows && !rows[id].status.Expired? && !rows[id].status.Failed? then Some(BundleAlreadyExists)
    else
      var amounts := CalculateOperationAmounts(ops, balances);
      var fee := CalculateFee(amounts);
      var outflows := amounts.totalCreate + amounts.totalWithdraw;
      if fee < 1 then Some(InsufficientBalance(fee + outflows, outflows)) else None
  }

  function UtxosOf(ops: seq<Operation>): set<UtxoId> {
    set op | op in ops && (op.Create? || op.Spend?) :: op.utxo
  }

  /** The first spend whose UTXO is not recorded. */
  function FirstUnrecorded(recorded: set<UtxoId>, spends: seq<Operation>): (r: Option<UtxoId>)
    ensures r.None? <==> UtxosOf(spends) <= recorded
    ensures r.Some? ==> r.value in UtxosOf(spends) && r.value !in recorded
  {
    if spends == [] then None
    else
      var op, rest := spends[0], spends[1..];
      assert spends == [op] + rest;
      if (op.Create? || op.Spend?) && op.utxo !in recorded then
        assert op.utxo in UtxosOf(spends);
        Some(op.utxo)
      else
        assert UtxosOf(spends) <= UtxosOf(rest) + recorded && UtxosOf(rest) <= UtxosOf(spends);
        FirstUnrecorded(recorded, rest)
  }

  /** It is the first: everything before it is recorded. */
  lemma {:induction false} FirstUnrecordedIsFirst(recorded: set<UtxoId>, spends: seq<Operation>) returns (i: nat)
    requires FirstUnrecorded(recorded, spends).Some?
    ensures i < |spends| && (spends[i].Create? || spends[i].Spend?)
    ensures FirstUnrecorded(recorded, spends) == Some(spends[i].utxo)
    ensures UtxosOf(spends[..i]) <= recorded
  {
    var op, rest := spends[0], spends[1..];
    if (op.Create? || op.Spend?) && op.utxo !in recorded {
      i := 0;
    } else {
      var j := FirstUnrecordedIsFirst(recorded, rest);
      i := j + 1;
      assert spends[..i] == [op] + rest[..j];
    }
  }

  /** Why an admission fails after its row has been written: the balances of the spent UTXOs cannot be read a
      second time, or one of those UTXOs was never recorded by this provider. */
  function PersistFailure(recorded: set<UtxoId>, spends: seq<Operation>, balancesReadAgain: bool)
    : Option<AdmissionError>
  {
    if spends == [] then None
    else if !balancesReadAgain then Some(ChannelRpcUnavailable)
    else
      match FirstUnrecorded(recorded, spends)
      case Some(utxo) => Some(UtxoNotFound(utxo))
      case None => None
  }

  /** The row admission writes; a reused row keeps its creation time. */
  function AdmittedRow(rows: Rows, id: BundleId, channel: ChannelId, ops: ClassifiedOperations,
                       balances: Balances, latestLedger: int, now: int): Row {
    Row(Pending, channel, BundleTtl(now, latestLedger, ops.spend), ops, BundleFee(ops, balances), 0,
        if id in rows then rows[id].createdAt else now)
  }

  // ---------- Retries ----------

  /** Bundles of a failed slot that get another attempt. */
  function Retryable(rows: Rows, maxRetryAttempts: int, terminal: bool): SlotBundle -> bool {
    (b: SlotBundle) => ActiveIn(rows, b.bundleId) && !EndsBundle(rows[b.bundleId], maxRetryAttempts, terminal)
  }

  /** The in-memory copies take over the retry count of the row. */
  function WithRetryCount(bs: seq<SlotBundle>, rows: Rows): (r: seq<SlotBundle>)
    ensures |r| == |bs|
    ensures forall i :: 0 <= i < |bs| ==>
      r[i] == if bs[i].bundleId in rows then bs[i].(retryCount := rows[bs[i].bundleId].retryCount) else bs[i]
  {
    seq(|bs|, i requires 0 <= i < |bs| =>
      if bs[i].bundleId in rows then bs[i].(retryCount := rows[bs[i].bundleId].retryCount) else bs[i])
  }

  function RetryableId(rows: Rows, maxRetryAttempts: int, terminal: bool): BundleId -> bool {
    (id: BundleId) => id in rows && !EndsBundle(rows[id], maxRetryAttempts, terminal)
  }

  /** Slot bundles rebuilt from their rows. */
  function Rehydrate(ids: seq<BundleId>, rows: Rows, cfg: Config, priorities: map<BundleId, real>): (r: seq<SlotBundle>)
    requires forall id :: id in ids ==> id in rows
    ensures |r| == |ids|
    ensures forall i :: 0 <= i < |ids| ==>
      r[i] == CreateSlotBundle(ids[i], rows[ids[i]], cfg, if ids[i] in priorities then priorities[ids[i]] else 0.0)
  {
    seq(|ids|, i requires 0 <= i < |ids| =>
      CreateSlotBundle(ids[i], rows[ids[i]], cfg, if ids[i] in priorities then priorities[ids[i]] else 0.0))
  }

  // ---------- Steps ----------

  function FlightBundles(s: State): seq<SlotBundle> {
    if s.flight.None? then [] else s.flight.value.slot.bundles
  }

  /** Whether an accepted admission fails after its row write. */
  predicate Aborts(s: State, a: Action)
    requires a.Admit?
  {
    var ops := ClassifyOperations(a.operations);
    PersistFailure(s.utxos + UtxosOf(ops.create), ops.spend, a.balancesReadAgain).Some?
  }

  /** Nothing undoes the row and the recorded creates of an admission that fails after writing them. */
  function ApplyAdmit(cfg: Config, s: State, a: Action): State
    requires a.Admit?
  {
    var ops := ClassifyOperations(a.operations);
    if AdmissionRefusal(s.rows, a.id, ops, a.balances).Some? then s
    else
      var row := AdmittedRow(s.rows, a.id, a.channel, ops, a.balances, a.latestLedger, s.now);
      s.(rows := s.rows[a.id := row], utxos := s.utxos + UtxosOf(ops.create),
         entering := if Aborts(s, a) then s.entering else s.entering + [CreateSlotBundle(a.id, row, cfg, a.priority)])
  }

  /** One `addBundle` call up to its gated status write. An expired bundle only has its row written. */
  function ApplyAdd(cfg: Config, s: State, k: nat): State {
    if k >= |s.entering| then s
    else
      var b := s.entering[k];
      var entering := Without(s.entering, k);
      if IsBundleExpired(b, s.now) then s.(rows := SetStatus(s.rows, b.bundleId, Expired), entering := entering)
      else
        var (slots, r) := AddBundle(cfg.capacity, s.slots, b);
        if r.Added? then s.(slots := slots, entering := entering, marking := s.marking + multiset{b.bundleId})
        else s.(slots := slots, entering := entering)
  }

  /** The gated PROCESSING write; when the gate refuses it, the bundle is purged from the slots. */
  function ApplyMark(s: State, id: BundleId): State {
    if id !in s.marking then s
    else
      var marking := s.marking - multiset{id};
      if ActiveIn(s.rows, id) then s.(rows := SetStatus(s.rows, id, Processing), marking := marking)
      else s.(slots := FilterSlots(s.slots, Kept(WithId({id}))), marking := marking)
  }

  /** The PROCESSING write itself fails: the bundle is purged from the slots and its row left as it is. */
  function ApplyFailMark(s: State, id: BundleId): State {
    if id !in s.marking then s
    else s.(slots := FilterSlots(s.slots, Kept(WithId({id}))), marking := s.marking - multiset{id})
  }

  function ApplySweep(s: State): State {
    s.(slots := FilterSlots(s.slots, Kept(ExpiredAt(s.now))),
       sweeping := s.sweeping + multiset(Ids(Removed(s.slots, Selected(ExpiredAt(s.now))))))
  }

  /** The sweep's row write, which is not gated. */
  function ApplyWriteSwept(s: State, id: BundleId): State {
    if id in s.sweeping then s.(rows := SetStatus(s.rows, id, Expired), sweeping := s.sweeping - multiset{id}) else s
  }

  /** The gate's row write, which is. */
  function ApplyWriteEvicted(s: State, id: BundleId): State {
    if id in s.evicting
    then s.(rows := SetStatusIfActive(s.rows, id, Expired), evicting := s.evicting - multiset{id}) else s
  }

  /** Takes the first slot and drops its expired bundles; nothing is in flight if none is left. */
  function ApplyPull(s: State): State {
    if s.flight.Some? || s.slots == [] then s
    else
      var slot := FilterSlot(s.slots[0], Kept(ExpiredAt(s.now)));
      var evicted := Filter(s.slots[0].bundles, Selected(ExpiredAt(s.now)));
      s.(slots := s.slots[1..],
         evicting := s.evicting + multiset(Ids(evicted)),
         flight := if slot.bundles == [] then None else Some(Flight(slot, s.now)))
  }

  function ApplySubmit(cfg: Config, s: State): State {
    if s.flight.None? then s
    else s.(flight := None,
            txs := s.txs + [Tx(Unverified, s.now + cfg.expirationOffset * LEDGER_CLOSE_TIME_MS, Ids(FlightBundles(s)))])
  }

  function ApplyFailExecution(cfg: Config, s: State, deterministic: bool): State {
    if s.flight.None? then s
    else
      var bs := FlightBundles(s);
      var rows := FailRows(s.rows, Ids(bs), cfg.maxRetryAttempts, deterministic, true);
      var again := Filter(bs, Retryable(s.rows, cfg.maxRetryAttempts, deterministic));
      s.(flight := None, rows := rows, entering := s.entering + WithRetryCount(again, rows))
  }

  function ApplyRejectFees(s: State): State {
    if s.flight.None? then s
    else s.(flight := None, rows := SetStatuses(s.rows, Ids(FlightBundles(s)), Failed))
  }

  function ApplyVerifySuccess(s: State, k: nat): State {
    if k >= |s.txs| || !s.txs[k].status.Unverified? then s
    else s.(txs := s.txs[k := s.txs[k].(status := Verified)],
            rows := SetStatuses(s.rows, s.txs[k].bundleIds, Completed))
  }

  function ApplyVerifyFailure(cfg: Config, s: State, k: nat, terminal: bool, priorities: map<BundleId, real>): State {
    if k >= |s.txs| || !s.txs[k].status.Unverified? then s
    else
      var ids := s.txs[k].bundleIds;
      var rows := FailRows(s.rows, ids, cfg.maxRetryAttempts, terminal, false);
      var again := Filter(ids, RetryableId(s.rows, cfg.maxRetryAttempts, terminal));
      s.(txs := s.txs[k := s.txs[k].(status := TxFailed)], rows := rows,
         entering := s.entering + Rehydrate(again, rows, cfg, priorities))
  }

  // ---------- Restart ----------

  /** Some transaction, of whatever status, is linked to `id`. */
  predicate Linked(txs: seq<Tx>, id: BundleId) {
    exists k :: 0 <= k < |txs| && id in txs[k].bundleIds
  }

  predicate AwaitsVerification(txs: seq<Tx>, id: BundleId) {
    exists k :: 0 <= k < |txs| && txs[k].status.Unverified? && id in txs[k].bundleIds
  }

  /** Rows the re-hydration guard lets back into the mempool. */
  predicate Resubmittable(rows: Rows, txs: seq<Tx>, id: BundleId) {
    ActiveIn(rows, id) && (rows[id].status.Processing? ==> !Linked(txs, id))
  }

  function ResubmittableId(rows: Rows, txs: seq<Tx>): BundleId -> bool {
    (id: BundleId) => Resubmittable(rows, txs, id)
  }

  /** The table after startup's age expiry; no cutoff means that expiry is disabled. */
  function StartupRows(rows: Rows, cutoff: Option<int>): Rows {
    if cutoff.Some? then ExpireStale(rows, cutoff.value) else rows
  }

  /** `found` lists the PENDING and PROCESSING rows, each once, in the order the query returns them. */
  predicate Lists(found: seq<BundleId>, rows: Rows) {
    && NoDuplicates(found)
    && (forall id :: id in found ==> ActiveIn(rows, id))
    && (forall id :: id in rows && ActiveIn(rows, id) ==> id in found)
  }

  /** The bundles startup offers to the empty mempool. */
  function Reloaded(cfg: Config, rows: Rows, txs: seq<Tx>, found: seq<BundleId>, priorities: map<BundleId, real>)
    : seq<SlotBundle>
  {
    Rehydrate(Filter(found, ResubmittableId(rows, txs)), rows, cfg, priorities)
  }

  /** Everything in memory is lost; the tables, after age expiry, say what is queued again. */
  function RestartState(cfg: Config, s: State, cutoff: Option<int>, found: seq<BundleId>, priorities: map<BundleId,
                        real>)
    : State
  {
    var rows := StartupRows(s.rows, cutoff);
    var entering := Reloaded(cfg, rows, s.txs, found, priorities);
    State(rows, s.txs, s.utxos, [], None, entering, multiset{}, multiset{}, multiset{}, s.now)
  }

  /** A row that waits for the verifier is neither PENDING nor old enough to be expired by age. */
  predicate RowSafe(rows: Rows, txs: seq<Tx>, cutoff: Option<int>, id: BundleId) {
    ActiveIn(rows, id) && AwaitsVerification(txs, id) ==>
      rows[id].status.Processing? && (cutoff.Some? ==> rows[id].createdAt >= cutoff.value)
  }

  /** A restart from these tables neither queues nor expires a bundle that waits for the verifier. */
  predicate RestartSafe(rows: Rows, txs: seq<Tx>, cutoff: Option<int>) {
    forall id :: id in rows ==> RowSafe(rows, txs, cutoff, id)
  }

  /** A restart is a step of the system only when the tables are safe for it. */
  predicate Restarts(s: State, a: Action) {
    a.Restart? && RestartSafe(s.rows, s.txs, a.cutoff) && Lists(a.found, StartupRows(s.rows, a.cutoff))
  }

  // ---------- All steps ----------

  /** One step. An action that is not possible in `s` leaves it unchanged. */
  function Apply(cfg: Config, s: State, a: Action): State {
    match a
    case Admit(_, _, _, _, _, _, _) => ApplyAdmit(cfg, s, a)
    case AddToMempool(k) => ApplyAdd(cfg, s, k)
    case MarkProcessing(id) => ApplyMark(s, id)
    case FailMark(id) => ApplyFailMark(s, id)
    case Sweep => ApplySweep(s)
    case WriteSwept(id) => ApplyWriteSwept(s, id)
    case Pull => ApplyPull(s)
    case WriteEvicted(id) => ApplyWriteEvicted(s, id)
    case Submit => ApplySubmit(cfg, s)
    case FailExecution(deterministic) => ApplyFailExecution(cfg, s, deterministic)
    case RejectFees => ApplyRejectFees(s)
    case VerifySuccess(k) => ApplyVerifySuccess(s, k)
    case VerifyFailure(k, terminal, priorities) => ApplyVerifyFailure(cfg, s, k, terminal, priorities)
    case Tick(ms) => s.(now := s.now + ms)
    case Restart(cutoff, found, priorities) =>
      if Restarts(s, a) then RestartState(cfg, s, cutoff, found, priorities) else s
  }

  /** The state after a sequence of actions. */
  function Exec(cfg: Config, s: State, acts: seq<Action>): State {
    if acts == [] then s else Apply(cfg, Exec(cfg, s, acts[..|acts| - 1]), acts[|acts| - 1])
  }
}
