/**
 What holds over whole runs of the pipeline, from the empty system through any interleaving of steps.
 */
module Runs {
  import opened Sequences
  import opened Bundles
  import opened SlotModel
  import opened Cascade
  import opened Fees
  import opened Ttl
  import opened Pipeline
  import opened PipelineInvariant

  function After(cfg: Config, acts: seq<Action>): State { Exec(cfg, INITIAL, acts) }

  /** The invariant holds in every reachable state. */
  lemma {:induction false} Reachable(cfg: Config, acts: seq<Action>)
    ensures Inv(cfg, After(cfg, acts))
  {
    if acts == [] {
      InitialInv(cfg);
    } else {
      var n := |acts| - 1;
      Reachable(cfg, acts[..n]);
      StepKeepsInv(cfg, After(cfg, acts[..n]), acts[n]);
    }
  }

  // ---------- Where bundles are ----------

  /** What the run did to the places of bundle `id`, counted from its steps: each step since the last restart that
      dropped it, and one if that restart stranded it. */
  function Lost(cfg: Config, acts: seq<Action>, id: BundleId): nat {
    if acts == [] then 0
    else
      var n := |acts| - 1;
      var s, a := After(cfg, acts[..n]), acts[n];
      if Restarts(s, a) then (if Stranded(s, a.cutoff, id) then 1 else 0)
      else Lost(cfg, acts[..n], id) + Drops(cfg, s, a, id)
  }

  /** What is missing is what was lost. */
  lemma {:induction false} LostIsMissing(cfg: Config, acts: seq<Action>, id: BundleId)
    ensures Missing(After(cfg, acts), id) == Lost(cfg, acts, id)
  {
    if acts == [] {
      assert Flatten([]) == [] && FlightBundles(INITIAL) == [];
    } else {
      var n := |acts| - 1;
      Reachable(cfg, acts[..n]);
      LostIsMissing(cfg, acts[..n], id);
      StepMissing(cfg, After(cfg, acts[..n]), acts[n], id);
    }
  }

  /** In every reachable state an active bundle that was not lost is in exactly one place, and any other bundle is in
      none; only an active bundle is lost, and only once; and every bundle in memory has an active row it agrees
      with. */
  lemma ExactlyOnePlace(cfg: Config, acts: seq<Action>, id: BundleId)
    ensures var s := After(cfg, acts);
      && Places(s, id) == (if ActiveIn(s.rows, id) && Lost(cfg, acts, id) == 0 then 1 else 0)
      && Lost(cfg, acts, id) <= ActiveCount(s.rows, id)
      && forall b :: InMemory(s, b) ==> ActiveIn(s.rows, b.bundleId) && Agrees(cfg, s.rows, b)
  {
    Reachable(cfg, acts);
    LostIsMissing(cfg, acts, id);
    var s := After(cfg, acts);
    forall b | InMemory(s, b) ensures ActiveIn(s.rows, b.bundleId) { MemoryIsActive(s, b); }
  }

  /** No handler is holding a bundle between two of its suspension points. */
  predicate Quiescent(s: State) {
    s.entering == [] && s.sweeping == multiset{} && s.evicting == multiset{}
  }

  /** Between handlers, an active bundle that was not lost is in one slot, or in flight, or linked to an unverified
      transaction, and in only one of the three. */
  lemma QuiescentPlaces(cfg: Config, acts: seq<Action>, id: BundleId)
    requires Quiescent(After(cfg, acts)) && ActiveIn(After(cfg, acts).rows, id) && Lost(cfg, acts, id) == 0
    ensures var s := After(cfg, acts);
      CountOf(Flatten(s.slots), id) + CountOf(FlightBundles(s), id) + Links(s.txs, Unverified, id) == 1
  {
    ExactlyOnePlace(cfg, acts, id);
  }

  // ---------- Row history ----------

  lemma ExecSnoc(cfg: Config, all: seq<Action>, front: seq<Action>, a: Action)
    requires all == front + [a]
    ensures After(cfg, all) == Apply(cfg, After(cfg, front), a)
  {
    assert all[..|all| - 1] == front;
  }

  lemma CompletedNext(cfg: Config, s: State, a: Action, id: BundleId)
    requires Inv(cfg, s) && CompletedIn(s.rows, id)
    ensures CompletedIn(Apply(cfg, s, a).rows, id)
  {
    StepRowEffect(cfg, s, a, id);
  }

  lemma FinalNext(cfg: Config, s: State, a: Action, id: BundleId)
    requires Inv(cfg, s) && id in s.rows && Final(s.rows[id].status)
    requires a.Admit? ==> a.id != id
    ensures id in Apply(cfg, s, a).rows && Apply(cfg, s, a).rows[id] == s.rows[id]
  {
    StepRowEffect(cfg, s, a, id);
  }

  /** COMPLETED is never left. */
  lemma {:induction false} CompletedIsFinal(cfg: Config, acts: seq<Action>, more: seq<Action>, id: BundleId)
    requires CompletedIn(After(cfg, acts).rows, id)
    ensures CompletedIn(After(cfg, acts + more).rows, id)
  {
    if more == [] {
      assert acts + more == acts;
    } else {
      var front := more[..|more| - 1];
      CompletedIsFinal(cfg, acts, front, id);
      Reachable(cfg, acts + front);
      ExecSnoc(cfg, acts + more, acts + front, more[|more| - 1]);
      CompletedNext(cfg, After(cfg, acts + front), more[|more| - 1], id);
    }
  }

  /** EXPIRED and FAILED are left only by re-admission, which starts over as PENDING with no retries used:
      while no action admits `id`, its row does not change at all. */
  lemma {:induction false} FinalUntilReadmitted(cfg: Config, acts: seq<Action>, more: seq<Action>, id: BundleId)
    requires id in After(cfg, acts).rows && Final(After(cfg, acts).rows[id].status)
    requires forall a :: a in more && a.Admit? ==> a.id != id
    ensures id in After(cfg, acts + more).rows
    ensures After(cfg, acts + more).rows[id] == After(cfg, acts).rows[id]
  {
    if more == [] {
      assert acts + more == acts;
    } else {
      var front := more[..|more| - 1];
      FinalUntilReadmitted(cfg, acts, front, id);
      Reachable(cfg, acts + front);
      ExecSnoc(cfg, acts + more, acts + front, more[|more| - 1]);
      assert more[|more| - 1] in more;
      FinalNext(cfg, After(cfg, acts + front), more[|more| - 1], id);
    }
  }

  lemma ReadmissionStartsOver(cfg: Config, acts: seq<Action>, a: Action, id: BundleId)
    requires id in After(cfg, acts).rows && Admits(After(cfg, acts), a, id)
    ensures var before, after := After(cfg, acts).rows[id], Apply(cfg, After(cfg, acts), a).rows;
      && (before.status.Expired? || before.status.Failed?)
      && id in after && after[id].status.Pending? && after[id].retryCount == 0
      && after[id].createdAt == before.createdAt
  {
    Reachable(cfg, acts);
    StepRowEffect(cfg, After(cfg, acts), a, id);
  }

  /** The rows a step writes without looking at their status. */
  function UngatedWrites(s: State, a: Action): seq<BundleId> {
    match a
    case AddToMempool(k) =>
      if k < |s.entering| && IsBundleExpired(s.entering[k], s.now) then [s.entering[k].bundleId] else []
    case WriteSwept(id) => if id in s.sweeping then [id] else []
    case RejectFees => Ids(FlightBundles(s))
    case VerifySuccess(k) => if k < |s.txs| && s.txs[k].status.Unverified? then s.txs[k].bundleIds else []
    case VerifyFailure(k, _, _) => if k < |s.txs| && s.txs[k].status.Unverified? then s.txs[k].bundleIds else []
    case _ => []
  }

  /** No write that skips the status gate ever lands on a row that is already EXPIRED, FAILED or COMPLETED. */
  lemma UngatedWritesHitActiveRows(cfg: Config, acts: seq<Action>, a: Action, id: BundleId)
    requires id in UngatedWrites(After(cfg, acts), a)
    ensures ActiveIn(After(cfg, acts).rows, id)
  {
    Reachable(cfg, acts);
    var s := After(cfg, acts);
    match a
    case AddToMempool(k) => MemoryIsActive(s, s.entering[k]);
    case WriteSwept(x) => HeldIsActive(s, x);
    case RejectFees => FlightIsActive(s);
    case VerifySuccess(k) => LinkedIsActive(s, k, id);
    case VerifyFailure(k, _, _) => LinkedIsActive(s, k, id);
    case _ =>
  }

  // ---------- Transactions ----------

  lemma {:induction false} LinksOfTwo(txs: seq<Tx>, i: nat, j: nat, id: BundleId)
    requires i < j < |txs| && txs[i].status == txs[j].status
    ensures Links(txs, txs[i].status, id) >= multiset(txs[i].bundleIds)[id] + multiset(txs[j].bundleIds)[id]
  {
    var n := |txs| - 1;
    if j == n {
      LinksContains(txs[..n], i, id);
    } else {
      LinksOfTwo(txs[..n], i, j, id);
    }
  }

  /** Two live transactions of one bundle: either of the same status, or one UNVERIFIED and one VERIFIED. */
  lemma LiveLinks(s: State, id: BundleId, i: nat, j: nat)
    requires i < j < |s.txs| && id in s.txs[i].bundleIds && id in s.txs[j].bundleIds
    requires !s.txs[i].status.TxFailed? && !s.txs[j].status.TxFailed?
    ensures Links(s.txs, Unverified, id) + Links(s.txs, Verified, id) >= 2
  {
    assert id in multiset(s.txs[i].bundleIds) && id in multiset(s.txs[j].bundleIds);
    if s.txs[i].status == s.txs[j].status {
      LinksOfTwo(s.txs, i, j, id);
    } else {
      LinksContains(s.txs, i, id);
      LinksContains(s.txs, j, id);
    }
  }

  /** A bundle never has two linked transactions that are not FAILED, so it is never settled twice. */
  lemma OneLiveTransaction(cfg: Config, acts: seq<Action>, id: BundleId, i: nat, j: nat)
    requires var txs := After(cfg, acts).txs;
      && i < j < |txs| && id in txs[i].bundleIds && id in txs[j].bundleIds
    ensures After(cfg, acts).txs[i].status.TxFailed? || After(cfg, acts).txs[j].status.TxFailed?
  {
    Reachable(cfg, acts);
    var s := After(cfg, acts);
    assert Missing(s, id) >= 0;
    assert Links(s.txs, Verified, id) == CompletedCount(s.rows, id);
    if !s.txs[i].status.TxFailed? && !s.txs[j].status.TxFailed? {
      LiveLinks(s, id, i, j);
      assert false;
    }
  }

  /** A row is COMPLETED exactly when one of its linked transactions is VERIFIED. */
  lemma CompletedIffVerified(cfg: Config, acts: seq<Action>, id: BundleId)
    ensures var s := After(cfg, acts);
      CompletedIn(s.rows, id) <==>
      exists k :: 0 <= k < |s.txs| && s.txs[k].status.Verified? && id in s.txs[k].bundleIds
  {
    Reachable(cfg, acts);
    var s := After(cfg, acts);
    assert Links(s.txs, Verified, id) == CompletedCount(s.rows, id);
    if CompletedIn(s.rows, id) {
      var k := LinkedSomewhere(s.txs, Verified, id);
    }
    if k :| 0 <= k < |s.txs| && s.txs[k].status.Verified? && id in s.txs[k].bundleIds {
      LinksContains(s.txs, k, id);
      assert id in multiset(s.txs[k].bundleIds);
    }
  }

  /** Admission is refused for an id in use exactly when the bundle is somewhere in the pipeline, was lost, or was
      settled by a VERIFIED transaction. */
  lemma AlreadyExistsExactlyWhen(cfg: Config, acts: seq<Action>, id: BundleId, ops: ClassifiedOperations,
                                 balances: Balances)
    ensures var s := After(cfg, acts);
      AdmissionRefusal(s.rows, id, ops, balances) == Some(BundleAlreadyExists) <==>
      || Places(s, id) == 1 || Lost(cfg, acts, id) == 1
      || exists k :: 0 <= k < |s.txs| && s.txs[k].status.Verified? && id in s.txs[k].bundleIds
  {
    ExactlyOnePlace(cfg, acts, id);
    CompletedIffVerified(cfg, acts, id);
  }

  // ---------- Retries ----------

  /** Whether a failing action leaves no further attempt whatever the count. */
  predicate Terminal(a: Action) { (a.FailExecution? && a.deterministic) || (a.VerifyFailure? && a.terminal) }

  /** A failed attempt ends the bundle, FAILED and nowhere, exactly when it is terminal or uses up the last attempt;
      otherwise the bundle is PENDING and waits to be queued again, there and nowhere else. */
  ghost predicate AttemptEffect(cfg: Config, s: State, s': State, terminal: bool, id: BundleId) {
    && id in s.rows && id in s'.rows && Places(s', id) == CountOf(s'.entering, id)
    && if terminal || s.rows[id].retryCount + 1 >= cfg.maxRetryAttempts
       then s'.rows[id].status.Failed? && Places(s', id) == 0
       else s'.rows[id].status.Pending? && Places(s', id) == 1
  }

  lemma ExecutionAttempt(cfg: Config, s: State, deterministic: bool, id: BundleId)
    requires Placed(s) && id in Ids(FlightBundles(s))
    ensures AttemptEffect(cfg, s, ApplyFailExecution(cfg, s, deterministic), deterministic, id)
  {
    CountIsMultiplicity(FlightBundles(s), id);
    HeldIsActive(s, id);
    FailExecutionMissing(cfg, s, deterministic, id);
  }

  lemma VerificationAttempt(cfg: Config, s: State, k: nat, terminal: bool, priorities: map<BundleId, real>,
                            id: BundleId)
    requires Placed(s) && k < |s.txs| && s.txs[k].status.Unverified? && id in s.txs[k].bundleIds
    ensures AttemptEffect(cfg, s, ApplyVerifyFailure(cfg, s, k, terminal, priorities), terminal, id)
  {
    LinkedIsActive(s, k, id);
    VerifyFailureMissing(cfg, s, k, terminal, priorities, id);
    LinksUpdate(s.txs, k, s.txs[k].(status := TxFailed), Unverified, id);
  }

  /** The same, for a step that fails `id`. */
  ghost predicate StepAttempt(cfg: Config, s: State, a: Action, id: BundleId) {
    AttemptEffect(cfg, s, Apply(cfg, s, a), Terminal(a), id)
  }

  lemma ExecutionStepAttempt(cfg: Config, s: State, a: Action, id: BundleId)
    requires Placed(s) && a.FailExecution? && FailsBundle(s, a, id)
    ensures StepAttempt(cfg, s, a, id)
  {
    ExecutionAttempt(cfg, s, a.deterministic, id);
  }

  lemma VerificationStepAttempt(cfg: Config, s: State, a: Action, id: BundleId)
    requires Placed(s) && a.VerifyFailure? && FailsBundle(s, a, id)
    ensures StepAttempt(cfg, s, a, id)
  {
    VerificationAttempt(cfg, s, a.tx, a.terminal, a.priorities, id);
  }

  lemma FailedAttempt(cfg: Config, acts: seq<Action>, a: Action, id: BundleId)
    requires FailsBundle(After(cfg, acts), a, id)
    ensures StepAttempt(cfg, After(cfg, acts), a, id)
  {
    Reachable(cfg, acts);
    if a.FailExecution? {
      ExecutionStepAttempt(cfg, After(cfg, acts), a, id);
    } else {
      VerificationStepAttempt(cfg, After(cfg, acts), a, id);
    }
  }

  /** Failed attempts of `id` since it was last admitted, counted from the run itself. */
  function Failures(cfg: Config, acts: seq<Action>, id: BundleId): nat {
    if acts == [] then 0
    else
      var n := |acts| - 1;
      var s := After(cfg, acts[..n]);
      if Admits(s, acts[n], id) then 0
      else Failures(cfg, acts[..n], id) + (if FailsBundle(s, acts[n], id) then 1 else 0)
  }

  /** The stored retry count is the number of failed attempts since the last admission; an active bundle
      has attempts left; and a bundle whose attempts are used up is FAILED. So `maxRetryAttempts` failures
      always end a bundle. */
  lemma {:induction false} RetryCountIsFailures(cfg: Config, acts: seq<Action>, id: BundleId)
    ensures var rows := After(cfg, acts).rows;
      && (id in rows ==> rows[id].retryCount == Failures(cfg, acts, id))
      && (id !in rows ==> Failures(cfg, acts, id) == 0)
      && Failures(cfg, acts, id) <= cfg.maxRetryAttempts
      && (ActiveIn(rows, id) ==> Failures(cfg, acts, id) < cfg.maxRetryAttempts)
      && (Failures(cfg, acts, id) == cfg.maxRetryAttempts ==> id in rows && rows[id].status.Failed?)
  {
    if acts == [] {
    } else {
      var n := |acts| - 1;
      var s := After(cfg, acts[..n]);
      RetryCountIsFailures(cfg, acts[..n], id);
      Reachable(cfg, acts[..n]);
      Reachable(cfg, acts);
      if id in s.rows {
        StepRowEffect(cfg, s, acts[n], id);
      } else {
        NoRowNoFailure(s, acts[n], id);
        if id in Apply(cfg, s, acts[n]).rows { StepNewRow(cfg, s, acts[n], id); }
      }
    }
  }

  lemma NoRowNoFailure(s: State, a: Action, id: BundleId)
    requires Placed(s) && id !in s.rows
    ensures !FailsBundle(s, a, id)
  {
    FlightIsActive(s);
    if a.VerifyFailure? && a.tx < |s.txs| && s.txs[a.tx].status.Unverified? { AllLinkedActive(s, a.tx); }
  }

  // ---------- Admission to submission ----------

  /** What the last admission of a bundle computed its row from. */
  datatype Admission = Admission(time: int, channel: ChannelId, latestLedger: int, submitted: seq<Operation>,
                                 balances: Balances) {
    function operations(): ClassifiedOperations { ClassifyOperations(submitted) }
  }

  function LastAdmission(cfg: Config, acts: seq<Action>, id: BundleId): Option<Admission> {
    if acts == [] then None
    else
      var n := |acts| - 1;
      var s, a := After(cfg, acts[..n]), acts[n];
      if Admits(s, a, id) then Some(Admission(s.now, a.channel, a.latestLedger, a.operations, a.balances))
      else LastAdmission(cfg, acts[..n], id)
  }

  predicate FromAdmission(row: Row, adm: Admission) {
    && row.channel == adm.channel
    && row.operations == adm.operations()
    && row.ttl == BundleTtl(adm.time, adm.latestLedger, adm.operations().spend)
    && row.fee == BundleFee(adm.operations(), adm.balances)
    && row.fee >= 1
  }

  lemma {:induction false} RowsComeFromAdmission(cfg: Config, acts: seq<Action>, id: BundleId)
    requires id in After(cfg, acts).rows
    ensures var adm := LastAdmission(cfg, acts, id);
      adm.Some? && FromAdmission(After(cfg, acts).rows[id], adm.value)
  {
    if acts == [] {
    } else {
      var n := |acts| - 1;
      var s := After(cfg, acts[..n]);
      Reachable(cfg, acts[..n]);
      if id in s.rows {
        StepRowEffect(cfg, s, acts[n], id);
        RowsComeFromAdmission(cfg, acts[..n], id);
      } else {
        StepNewRow(cfg, s, acts[n], id);
      }
    }
  }

  /** When `id` was admitted for the first time. */
  function FirstAdmissionTime(cfg: Config, acts: seq<Action>, id: BundleId): Option<int> {
    if acts == [] then None
    else
      var n := |acts| - 1;
      var earlier := FirstAdmissionTime(cfg, acts[..n], id);
      var s := After(cfg, acts[..n]);
      if earlier.Some? then earlier else if Admits(s, acts[n], id) then Some(s.now) else None
  }

  lemma AdmittedCreation(cfg: Config, s: State, a: Action, id: BundleId)
    requires Admits(s, a, id)
    ensures id in Apply(cfg, s, a).rows
    ensures Apply(cfg, s, a).rows[id].createdAt == if id in s.rows then s.rows[id].createdAt else s.now
  {
  }

  /** A row exists exactly when its bundle was admitted, and its creation time is that of the first admission. */
  lemma {:induction false} CreatedAtFirstAdmission(cfg: Config, acts: seq<Action>, id: BundleId)
    ensures var first := FirstAdmissionTime(cfg, acts, id);
      var rows := After(cfg, acts).rows;
      (id in rows <==> first.Some?) && (id in rows ==> rows[id].createdAt == first.value)
  {
    if acts == [] {
    } else {
      var n := |acts| - 1;
      var s := After(cfg, acts[..n]);
      Reachable(cfg, acts[..n]);
      CreatedAtFirstAdmission(cfg, acts[..n], id);
      if Admits(s, acts[n], id) { AdmittedCreation(cfg, s, acts[n], id); }
      if id in s.rows { StepRowEffect(cfg, s, acts[n], id); }
      else if id in Apply(cfg, s, acts[n]).rows { StepNewRow(cfg, s, acts[n], id); }
    }
  }

  /** Whatever is in memory was last admitted for its channel with its operations, carries the fee and TTL computed
      then, and weighs what those operations weigh. */
  lemma MemoryComesFromAdmission(cfg: Config, acts: seq<Action>, b: SlotBundle)
    requires InMemory(After(cfg, acts), b)
    ensures var adm := LastAdmission(cfg, acts, b.bundleId);
      && adm.Some? && b.channel == adm.value.channel && b.operations == adm.value.operations()
      && b.fee == BundleFee(b.operations, adm.value.balances) && b.fee >= 1
      && b.weight == TotalWeight(adm.value.submitted, cfg)
      && Safe(b.ttl, adm.value.time, adm.value.latestLedger, b.operations.spend)
  {
    Reachable(cfg, acts);
    var s := After(cfg, acts);
    MemoryIsActive(s, b);
    assert Agrees(cfg, s.rows, b);
    RowsComeFromAdmission(cfg, acts, b.bundleId);
    var adm := LastAdmission(cfg, acts, b.bundleId).value;
    TtlIsGreatestSafe(adm.time, adm.latestLedger, adm.operations().spend, 0);
    WeightIsSumOfOperations(adm.submitted, cfg);
  }

  /** Every slot in the queue or in flight serves one channel: that of each of its bundles' last admissions. */
  lemma SlotsServeTheirChannel(cfg: Config, acts: seq<Action>, slot: SlotState, b: SlotBundle)
    requires var s := After(cfg, acts);
      slot in s.slots || (s.flight.Some? && slot == s.flight.value.slot)
    requires b in slot.bundles
    ensures var adm := LastAdmission(cfg, acts, b.bundleId);
      adm.Some? && slot.channel == b.channel == adm.value.channel
  {
    Reachable(cfg, acts);
    var s := After(cfg, acts);
    if slot in s.slots { FlattenHolds(s.slots, slot, b); }
    MemoryComesFromAdmission(cfg, acts, b);
  }

  lemma {:induction false} FlattenHolds(slots: seq<SlotState>, slot: SlotState, b: SlotBundle)
    requires slot in slots && b in slot.bundles
    ensures b in Flatten(slots)
  {
    if slot == slots[0] {
    } else {
      FlattenHolds(slots[1..], slot, b);
    }
  }

  // ---------- Recorded UTXOs ----------

  /** Some accepted admission among the run's first `n` actions created the UTXO. */
  predicate CreatedBefore(cfg: Config, acts: seq<Action>, n: nat, utxo: UtxoId)
    requires n <= |acts|
  {
    exists i :: 0 <= i < n && RecordsAt(cfg, acts, i, utxo)
  }

  predicate RecordsAt(cfg: Config, acts: seq<Action>, i: nat, utxo: UtxoId)
    requires i < |acts|
  {
    Records(After(cfg, acts[..i]), acts[i], utxo)
  }

  /** The step is an accepted admission with an operation that creates the UTXO. */
  predicate Records(s: State, a: Action, utxo: UtxoId) {
    && a.Admit? && AdmissionRefusal(s.rows, a.id, ClassifyOperations(a.operations), a.balances).None?
    && exists op :: op in a.operations && op.Create? && op.utxo == utxo
  }

  lemma StepRecords(cfg: Config, s: State, a: Action, utxo: UtxoId)
    ensures utxo in Apply(cfg, s, a).utxos <==> utxo in s.utxos || Records(s, a, utxo)
  {
    if a.Admit? {
      var creates := ClassifyOperations(a.operations).create;
      assert forall op :: op in creates <==> op in a.operations && op.Create?;
    }
  }

  lemma {:induction false} RecordedSoFar(cfg: Config, acts: seq<Action>, n: nat, utxo: UtxoId)
    requires n <= |acts|
    ensures utxo in After(cfg, acts[..n]).utxos <==> CreatedBefore(cfg, acts, n, utxo)
  {
    if n > 0 {
      RecordedSoFar(cfg, acts, n - 1, utxo);
      RecordedNext(cfg, acts, n, utxo);
      CreatedBeforeNext(cfg, acts, n, utxo);
    }
  }

  lemma RecordedNext(cfg: Config, acts: seq<Action>, n: nat, utxo: UtxoId)
    requires 0 < n <= |acts|
    ensures utxo in After(cfg, acts[..n]).utxos
      <==> utxo in After(cfg, acts[..n - 1]).utxos || RecordsAt(cfg, acts, n - 1, utxo)
  {
    ExecSnoc(cfg, acts[..n], acts[..n - 1], acts[n - 1]);
    StepRecords(cfg, After(cfg, acts[..n - 1]), acts[n - 1], utxo);
  }

  lemma CreatedBeforeNext(cfg: Config, acts: seq<Action>, n: nat, utxo: UtxoId)
    requires 0 < n <= |acts|
    ensures CreatedBefore(cfg, acts, n, utxo)
      <==> CreatedBefore(cfg, acts, n - 1, utxo) || RecordsAt(cfg, acts, n - 1, utxo)
  {
  }

  /** Exactly the UTXOs created by accepted admissions are recorded. */
  lemma RecordedExactlyWhen(cfg: Config, acts: seq<Action>, utxo: UtxoId)
    ensures utxo in After(cfg, acts).utxos <==> CreatedBefore(cfg, acts, |acts|, utxo)
  {
    RecordedSoFar(cfg, acts, |acts|, utxo);
    assert acts[..|acts|] == acts;
  }

  // ---------- Refusals ----------

  /** An admission whose id is free is refused exactly when what its deposits, or without deposits its spends, bring in
      does not exceed what its creates and withdrawals take out, and the refusal names the two amounts. */
  lemma RefusedForFeeExactlyWhen(rows: Rows, id: BundleId, ops: ClassifiedOperations, balances: Balances)
    requires id in rows ==> rows[id].status.Expired? || rows[id].status.Failed?
    ensures var deposits, spends := Total(ops.deposit, balances), Total(ops.spend, balances);
      var covered := if deposits > 0 then deposits else spends;
      var required := Total(ops.create, balances) + Total(ops.withdraw, balances);
      AdmissionRefusal(rows, id, ops, balances)
        == if covered <= required then Some(InsufficientBalance(covered, required)) else None
  {
  }

  // ---------- The clock ----------

  /** The time that passed in a run. */
  function Elapsed(acts: seq<Action>): nat {
    if acts == [] then 0
    else
      var a := acts[|acts| - 1];
      Elapsed(acts[..|acts| - 1]) + if a.Tick? then a.ms else 0
  }

  lemma {:induction false} ClockIsElapsed(cfg: Config, acts: seq<Action>)
    ensures After(cfg, acts).now == Elapsed(acts)
  {
    if acts == [] {
    } else {
      ClockIsElapsed(cfg, acts[..|acts| - 1]);
    }
  }

  // ---------- Submission ----------

  /** The gate time of what is in flight is the time of one of the run's pulls. */
  lemma {:induction false} GatedWhenPulled(cfg: Config, acts: seq<Action>)
    requires After(cfg, acts).flight.Some?
    ensures exists i :: 0 <= i < |acts| && acts[i].Pull? && After(cfg, acts).flight.value.gateTime == Elapsed(acts[..i])
  {
    var n := |acts| - 1;
    var s := After(cfg, acts[..n]);
    if acts[n].Pull? && s.flight.None? {
      ClockIsElapsed(cfg, acts[..n]);
    } else {
      FlightStays(cfg, s, acts[n]);
      GatedWhenPulled(cfg, acts[..n]);
      var i :| 0 <= i < n && acts[..n][i].Pull? && s.flight.value.gateTime == Elapsed(acts[..n][..i]);
      assert acts[..n][..i] == acts[..i];
    }
  }

  lemma FlightStays(cfg: Config, s: State, a: Action)
    requires Apply(cfg, s, a).flight.Some? && !(a.Pull? && s.flight.None?)
    ensures Apply(cfg, s, a).flight == s.flight
  {
  }

  /** TTL end to end: whatever is in flight, and so whatever is submitted, passed the executor's TTL gate
      strictly before the estimated expiry of each of its spend signatures and before the end of the
      24-hour window of its last admission. */
  lemma FlightBeatsSignatures(cfg: Config, acts: seq<Action>, b: SlotBundle, op: Operation)
    requires b in FlightBundles(After(cfg, acts))
    ensures var adm := LastAdmission(cfg, acts, b.bundleId);
      var gateTime := After(cfg, acts).flight.value.gateTime;
      && adm.Some? && b.operations == adm.value.operations()
      && gateTime < adm.value.time + 24 * 60 * 60 * 1000
      && (op in b.operations.spend && op.Spend? && op.expiration.Some? ==>
            gateTime < adm.value.time + (op.expiration.value - adm.value.latestLedger) * 5 * 1000)
  {
    Reachable(cfg, acts);
    var s := After(cfg, acts);
    MemoryIsActive(s, b);
    assert Agrees(cfg, s.rows, b);
    RowsComeFromAdmission(cfg, acts, b.bundleId);
    var adm := LastAdmission(cfg, acts, b.bundleId).value;
    TtlIsGreatestSafe(adm.time, adm.latestLedger, adm.operations().spend, 0);
  }

  /** Everything in flight carries the operations and the positive fee of its last admission. */
  lemma FlightPaysItsFee(cfg: Config, acts: seq<Action>, b: SlotBundle)
    requires b in FlightBundles(After(cfg, acts))
    ensures var adm := LastAdmission(cfg, acts, b.bundleId);
      && adm.Some? && b.operations == adm.value.operations()
      && b.fee == BundleFee(b.operations, adm.value.balances) && b.fee >= 1
  {
    Reachable(cfg, acts);
    var s := After(cfg, acts);
    MemoryIsActive(s, b);
    assert Agrees(cfg, s.rows, b);
    RowsComeFromAdmission(cfg, acts, b.bundleId);
  }
}
