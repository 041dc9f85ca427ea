/**
 How a bundle comes to have an active row and no place, with the exact condition for each way, and which runs lose
 nothing. Neither admission nor the mempool checks for any of this.
 */
module Losses {
  import opened Sequences
  import opened Bundles
  import opened SlotModel
  import opened Cascade
  import opened Fees
  import opened Pipeline
  import opened PipelineInvariant
  import opened Runs

  // ---------- SLOT_FULL ----------

  lemma DroppedWasInMemory(capacity: int, slots: seq<SlotState>, b: SlotBundle)
    requires SlotsOk(slots) && AddBundle(capacity, slots, b).1.SlotFull?
    ensures AddBundle(capacity, slots, b).1.dropped in Flatten(slots) || AddBundle(capacity, slots, b).1.dropped == b
  {
    CascadeConserves(capacity, slots, b);
    var dropped := AddBundle(capacity, slots, b).1.dropped;
    assert dropped in multiset(Flatten(slots)) + multiset{b};
  }

  /** After SLOT_FULL the bundle carried last, and only it, has an active row and no place any more. */
  lemma SlotFullStrandsOne(cfg: Config, s: State, k: nat, x: BundleId)
    requires Inv(cfg, s) && k < |s.entering| && !IsBundleExpired(s.entering[k], s.now)
    requires AddBundle(cfg.capacity, s.slots, s.entering[k]).1.SlotFull?
    ensures var dropped := AddBundle(cfg.capacity, s.slots, s.entering[k]).1.dropped;
      var s' := ApplyAdd(cfg, s, k);
      && s'.rows == s.rows && ActiveIn(s.rows, dropped.bundleId) && Missing(s, dropped.bundleId) == 0
      && Missing(s', x) == if x == dropped.bundleId then 1 else Missing(s, x)
  {
    var dropped := AddBundle(cfg.capacity, s.slots, s.entering[k]).1.dropped;
    DroppedWasInMemory(cfg.capacity, s.slots, s.entering[k]);
    MemoryIsHeld(s, dropped);
    HeldIsActive(s, dropped.bundleId);
    AddUnexpiredMissing(cfg, s, k, x);
  }

  /** Offering a bundle to the mempool loses nothing if and only if the bundle the scan leaves over, when it leaves
      one, is not heavier than an empty slot. */
  lemma AddLosesNothingExactlyWhen(cfg: Config, s: State, k: nat)
    requires Inv(cfg, s) && k < |s.entering| && !IsBundleExpired(s.entering[k], s.now)
    ensures var left := Scan(cfg.capacity, s.slots, s.entering[k], s.entering[k].channel).1;
      (forall x :: Missing(ApplyAdd(cfg, s, k), x) == Missing(s, x)) <==>
      (left.Some? ==> left.value.weight <= cfg.capacity)
  {
    var r := AddBundle(cfg.capacity, s.slots, s.entering[k]).1;
    CascadeConserves(cfg.capacity, s.slots, s.entering[k]);
    if r.SlotFull? {
      SlotFullStrandsOne(cfg, s, k, r.dropped.bundleId);
    } else {
      forall x ensures Missing(ApplyAdd(cfg, s, k), x) == Missing(s, x) { AddUnexpiredMissing(cfg, s, k, x); }
    }
  }

  /** The one thing admission does not check about weights: that the bundle fits an empty slot. */
  predicate Fits(cfg: Config, a: Action) {
    a.Admit? ==> CalculateBundleWeight(ClassifyOperations(a.operations), cfg) <= cfg.capacity
  }

  /** A lone bundle offered to the empty mempool keeps its place if and only if it fits. */
  lemma LoneOfferPlaces(cfg: Config, s: State, b: SlotBundle)
    requires Inv(cfg, s) && s.slots == [] && s.entering == [b] && !IsBundleExpired(b, s.now)
    ensures Places(ApplyAdd(cfg, s, 0), b.bundleId) == 1 <==> b.weight <= cfg.capacity
  {
    CountOne(b, b.bundleId);
    HeldIsActive(s, b.bundleId);
    AddUnexpiredMissing(cfg, s, 0, b.bundleId);
    EmptyScan(cfg.capacity, b);
  }

  lemma FirstEntering(cfg: Config, a: Action)
    requires a.Admit? && Admits(INITIAL, a, a.id) && !Aborts(INITIAL, a)
    ensures var s := ApplyAdmit(cfg, INITIAL, a);
      && |s.entering| == 1 && s.slots == [] && s.now == 0 && s.entering[0].bundleId == a.id
      && s.entering[0].weight == CalculateBundleWeight(ClassifyOperations(a.operations), cfg)
  {
  }

  /** A bundle admitted first and offered to the empty mempool keeps its place if and only if it fits an empty slot. */
  lemma FittingIsNeeded(cfg: Config, a: Action)
    requires a.Admit? && Admits(INITIAL, a, a.id) && !Aborts(INITIAL, a)
    requires !IsBundleExpired(ApplyAdmit(cfg, INITIAL, a).entering[0], 0)
    ensures Places(Apply(cfg, Apply(cfg, INITIAL, a), AddToMempool(0)), a.id) == 1 <==> Fits(cfg, a)
  {
    var s := Apply(cfg, INITIAL, a);
    InitialInv(cfg);
    StepKeepsInv(cfg, INITIAL, a);
    FirstEntering(cfg, a);
    LoneOfferPlaces(cfg, s, s.entering[0]);
  }

  lemma EmptyScan(capacity: int, b: SlotBundle)
    ensures Scan(capacity, [], b, b.channel).1 == Some(b)
    ensures AddBundle(capacity, [], b).1 == if b.weight <= capacity then Added else SlotFull(b)
  {
  }

  // ---------- Admission that fails after its row write ----------

  /** An accepted admission gives the bundle its place if and only if it has no spends, or the balances of the spent
      UTXOs could be read again and each of them is recorded or among the bundle's own creates. */
  lemma AdmissionPlacesExactlyWhen(cfg: Config, s: State, a: Action)
    requires a.Admit? && Placed(s) && Admits(s, a, a.id)
    ensures var ops := ClassifyOperations(a.operations);
      && ActiveIn(Apply(cfg, s, a).rows, a.id)
      && (Places(Apply(cfg, s, a), a.id) == 1 <==>
            ops.spend == [] || (a.balancesReadAgain && UtxosOf(ops.spend) <= s.utxos + UtxosOf(ops.create)))
  {
    AdmitMissing(cfg, s, a, a.id);
    AdmitsInactive(s, a, a.id);
    assert Missing(s, a.id) >= 0;
  }

  lemma LoneSpend(op: Operation)
    requires op.Spend?
    ensures ClassifyOperations([op]) == ClassifiedOperations([], [op], [], [])
  {
    assert [op][..0] == [];
  }

  lemma LoneSpendFee(op: Operation, balances: Balances)
    requires op.Spend?
    ensures BundleFee(ClassifiedOperations([], [op], [], []), balances) == BalanceOf(balances, op.utxo)
  {
    assert [op][..0] == [];
    assert Total([], balances) == 0 && Total([op], balances) == BalanceOf(balances, op.utxo);
  }

  lemma LoneSpendUnrecorded(op: Operation)
    requires op.Spend?
    ensures !(UtxosOf([op]) <= {} + UtxosOf([]))
  {
    assert op in [op] && op.utxo in UtxosOf([op]);
    assert op.utxo !in UtxosOf([]);
  }

  /** A bundle that only spends a UTXO with a positive balance. */
  function SpendOne(id: BundleId, channel: ChannelId, utxo: UtxoId, balances: Balances): Action {
    Admit(id, channel, [Spend(utxo, None)], 0, balances, 0.0, true)
  }

  lemma ForeignSpendAborts(id: BundleId, channel: ChannelId, utxo: UtxoId, balances: Balances)
    requires BalanceOf(balances, utxo) >= 1
    ensures var a := SpendOne(id, channel, utxo, balances); Admits(INITIAL, a, id) && Aborts(INITIAL, a)
  {
    LoneSpend(Spend(utxo, None));
    LoneSpendFee(Spend(utxo, None), balances);
    LoneSpendUnrecorded(Spend(utxo, None));
  }

  /** A UTXO this provider never recorded, as one created through another provider, is such a spend. The admission is
      refused to the submitter, and yet it leaves a PENDING row that is nowhere and keeps the id in use. */
  lemma ForeignSpendIsStranded(cfg: Config, id: BundleId, channel: ChannelId, utxo: UtxoId, balances: Balances)
    requires BalanceOf(balances, utxo) >= 1
    ensures var s := Apply(cfg, INITIAL, SpendOne(id, channel, utxo, balances));
      && ActiveIn(s.rows, id) && Places(s, id) == 0
      && forall ops, again :: AdmissionRefusal(s.rows, id, ops, again) == Some(BundleAlreadyExists)
  {
    var a := SpendOne(id, channel, utxo, balances);
    ForeignSpendAborts(id, channel, utxo, balances);
    InitialInv(cfg);
    AdmitMissing(cfg, INITIAL, a, id);
    assert Missing(INITIAL, id) == 0;
  }

  lemma LoneRowRestarts(cfg: Config, s: State, id: BundleId)
    requires Placed(s) && s.rows.Keys == {id} && ActiveIn(s.rows, id) && s.txs == []
    ensures Places(Apply(cfg, s, Restart(None, [id], map[])), id) == 1
  {
    RestartPlaces(cfg, s, None, [id], map[], id);
  }

  /** The next restart queues it for execution all the same. */
  lemma ForeignSpendIsRevived(cfg: Config, id: BundleId, channel: ChannelId, utxo: UtxoId, balances: Balances)
    requires BalanceOf(balances, utxo) >= 1
    ensures var s := Apply(cfg, INITIAL, SpendOne(id, channel, utxo, balances));
      Places(Apply(cfg, s, Restart(None, [id], map[])), id) == 1
  {
    var a := SpendOne(id, channel, utxo, balances);
    ForeignSpendIsStranded(cfg, id, channel, utxo, balances);
    InitialInv(cfg);
    StepKeepsPlaced(cfg, INITIAL, a);
    LoneRowRestarts(cfg, Apply(cfg, INITIAL, a), id);
  }

  // ---------- Runs that lose nothing ----------

  /** Every active row fits an empty slot. */
  ghost predicate Light(cfg: Config, rows: Rows) {
    forall id :: ActiveIn(rows, id) ==> CalculateBundleWeight(rows[id].operations, cfg) <= cfg.capacity
  }

  /** An admitted bundle fits an empty slot and has its spends recorded, no PROCESSING write fails, and a restart
      strands nothing. */
  ghost predicate Careful(cfg: Config, s: State, a: Action) {
    && Fits(cfg, a) && (a.Admit? && Admits(s, a, a.id) ==> !Aborts(s, a)) && !a.FailMark?
    && (Restarts(s, a) ==> forall id :: !Stranded(s, a.cutoff, id))
  }

  ghost predicate CarefulRun(cfg: Config, acts: seq<Action>) {
    acts == [] || (var n := |acts| - 1; CarefulRun(cfg, acts[..n]) && Careful(cfg, After(cfg, acts[..n]), acts[n]))
  }

  lemma AdmittedRowFits(cfg: Config, s: State, a: Action, id: BundleId)
    requires Admits(s, a, id) && Fits(cfg, a)
    ensures id in Apply(cfg, s, a).rows
    ensures CalculateBundleWeight(Apply(cfg, s, a).rows[id].operations, cfg) <= cfg.capacity
  {
  }

  lemma StepKeepsLight(cfg: Config, s: State, a: Action)
    requires Placed(s) && Light(cfg, s.rows) && Fits(cfg, a)
    ensures Light(cfg, Apply(cfg, s, a).rows)
  {
    var rows := Apply(cfg, s, a).rows;
    forall id | ActiveIn(rows, id) ensures CalculateBundleWeight(rows[id].operations, cfg) <= cfg.capacity {
      if id in s.rows { StepRowEffect(cfg, s, a, id); } else { StepNewRow(cfg, s, a, id); }
      if Admits(s, a, id) { AdmittedRowFits(cfg, s, a, id); }
    }
  }

  lemma LightInMemory(cfg: Config, s: State, b: SlotBundle)
    requires Placed(s) && Matched(cfg, s) && Light(cfg, s.rows) && InMemory(s, b)
    ensures b.weight <= cfg.capacity
  {
    MemoryIsActive(s, b);
    assert Agrees(cfg, s.rows, b);
  }

  /** When every active row fits, no add is ever refused for lack of room. */
  lemma AddSucceeds(cfg: Config, s: State, b: SlotBundle)
    requires Inv(cfg, s) && Light(cfg, s.rows) && InMemory(s, b)
    ensures AddBundle(cfg.capacity, s.slots, b).1.Added?
  {
    forall x | x in Flatten(s.slots) ensures x.weight <= cfg.capacity { LightInMemory(cfg, s, x); }
    LightInMemory(cfg, s, b);
    CascadeSucceeds(cfg.capacity, s.slots, b);
  }

  lemma CarefulDropsNothing(cfg: Config, s: State, a: Action, id: BundleId)
    requires Inv(cfg, s) && Light(cfg, s.rows) && Careful(cfg, s, a)
    ensures Drops(cfg, s, a, id) == 0
  {
    if a.AddToMempool? && a.k < |s.entering| { AddSucceeds(cfg, s, s.entering[a.k]); }
  }

  lemma {:induction false} CarefulRunIsLight(cfg: Config, acts: seq<Action>)
    requires CarefulRun(cfg, acts)
    ensures Light(cfg, After(cfg, acts).rows)
  {
    if acts == [] {
    } else {
      var n := |acts| - 1;
      CarefulRunIsLight(cfg, acts[..n]);
      Reachable(cfg, acts[..n]);
      StepKeepsLight(cfg, After(cfg, acts[..n]), acts[n]);
    }
  }

  /** A careful run loses nothing, so every active bundle is in exactly one place throughout. */
  lemma {:induction false} CarefulRunLosesNothing(cfg: Config, acts: seq<Action>, id: BundleId)
    requires CarefulRun(cfg, acts)
    ensures Lost(cfg, acts, id) == 0
    ensures Places(After(cfg, acts), id) == if ActiveIn(After(cfg, acts).rows, id) then 1 else 0
  {
    ExactlyOnePlace(cfg, acts, id);
    if acts == [] {
    } else {
      var n := |acts| - 1;
      CarefulRunLosesNothing(cfg, acts[..n], id);
      CarefulRunIsLight(cfg, acts[..n]);
      Reachable(cfg, acts[..n]);
      CarefulDropsNothing(cfg, After(cfg, acts[..n]), acts[n], id);
    }
  }
}
