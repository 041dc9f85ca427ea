/**
 The whole-system invariant: no bundle is in two places, only active bundles are in one, every in-memory copy
 agrees with its row, and completed bundles are exactly those with a verified transaction. An active bundle that
 is in no place is missing; every step but a restart makes missing exactly what `Drops` says.
 */
module PipelineInvariant {
  import opened Sequences
  import opened Bundles
  import opened SlotModel
  import opened Cascade
  import opened Pipeline

  // ---------- Statement ----------

  /** How often `id` is linked to transactions of the given status. */
  function Links(txs: seq<Tx>, status: TxStatus, id: BundleId): nat {
    if txs == [] then 0
    else
      var n := |txs| - 1;
      Links(txs[..n], status, id) + (if txs[n].status == status then multiset(txs[n].bundleIds)[id] else 0)
  }

  /** In how many places the pipeline holds bundle `id`. */
  function Places(s: State, id: BundleId): nat {
    CountOf(Flatten(s.slots), id) + CountOf(FlightBundles(s), id) + CountOf(s.entering, id)
    + s.sweeping[id] + s.evicting[id] + Links(s.txs, Unverified, id)
  }

  function ActiveCount(rows: Rows, id: BundleId): nat { if ActiveIn(rows, id) then 1 else 0 }

  /** One for an active bundle that is nowhere, zero for any other when all is well. */
  function Missing(s: State, id: BundleId): int { ActiveCount(s.rows, id) - Places(s, id) }

  /** An active bundle is in at most one place, any other in none. */
  ghost predicate Placed(s: State) { forall id :: Missing(s, id) >= 0 }

  predicate CompletedIn(rows: Rows, id: BundleId) { id in rows && rows[id].status.Completed? }

  function CompletedCount(rows: Rows, id: BundleId): nat { if CompletedIn(rows, id) then 1 else 0 }

  /** A completed bundle has exactly one verified transaction, any other none. */
  ghost predicate Settled(s: State) {
    forall id :: Links(s.txs, Verified, id) == CompletedCount(s.rows, id)
  }

  predicate InMemory(s: State, b: SlotBundle) {
    b in Flatten(s.slots) || b in FlightBundles(s) || b in s.entering
  }

  /** The copy carries the channel, operations, fee, times and retry count of its row, and their weight. */
  predicate Agrees(cfg: Config, rows: Rows, b: SlotBundle) {
    && b.bundleId in rows
    && var row := rows[b.bundleId];
       && b.channel == row.channel && b.operations == row.operations && b.fee == row.fee
       && b.ttl == row.ttl && b.createdAt == row.createdAt && b.retryCount == row.retryCount
       && b.weight == CalculateBundleWeight(row.operations, cfg)
  }

  /** Every copy in memory is what its row would be rebuilt into, retry count included. */
  ghost predicate Matched(cfg: Config, s: State) {
    forall b :: InMemory(s, b) ==> Agrees(cfg, s.rows, b)
  }

  /** What is in flight is well formed and passed the TTL gate. */
  ghost predicate FlightOk(f: Flight, now: int) {
    && SlotOk(f.slot) && f.slot.bundles != [] && f.gateTime <= now
    && forall b :: b in f.slot.bundles ==> !IsBundleExpired(b, f.gateTime)
  }

  /** Slots are well formed and never empty. */
  ghost predicate Tidy(s: State) {
    SlotsOk(s.slots) && (s.flight.Some? ==> FlightOk(s.flight.value, s.now))
  }

  /** An active row has attempts left. */
  ghost predicate Sound(cfg: Config, rows: Rows) {
    forall id :: ActiveIn(rows, id) ==> rows[id].retryCount < cfg.maxRetryAttempts
  }

  ghost predicate Inv(cfg: Config, s: State) {
    Placed(s) && Settled(s) && Matched(cfg, s) && Tidy(s) && Sound(cfg, s.rows)
  }

  // ---------- What a step drops ----------

  /** Action `a` admits or re-admits `id` in `s`: the row is written, whether or not the admission then fails. */
  predicate Admits(s: State, a: Action, id: BundleId) {
    a.Admit? && a.id == id
    && AdmissionRefusal(s.rows, id, ClassifyOperations(a.operations), a.balances).None?
  }

  /** Bundle `id` is what SLOT_FULL leaves without a slot when `b` is added. */
  predicate LeavesOut(capacity: int, slots: seq<SlotState>, b: SlotBundle, id: BundleId) {
    var r := AddBundle(capacity, slots, b).1;
    r.SlotFull? && r.dropped.bundleId == id
  }

  /** Offering the k-th entering bundle leaves `id` without a slot. */
  predicate Overflows(cfg: Config, s: State, k: nat, id: BundleId) {
    && k < |s.entering| && !IsBundleExpired(s.entering[k], s.now)
    && LeavesOut(cfg.capacity, s.slots, s.entering[k], id)
  }

  /** A step other than a restart leaves bundle `id` active and nowhere in three ways: its admission fails after
      the row write, the cascade ends in SLOT_FULL with it, or its PROCESSING write fails while it is in a slot. */
  function Drops(cfg: Config, s: State, a: Action, id: BundleId): nat {
    match a
    case Admit(_, _, _, _, _, _, _) => if Admits(s, a, id) && Aborts(s, a) then 1 else 0
    case AddToMempool(k) => if Overflows(cfg, s, k, id) then 1 else 0
    case FailMark(x) => if x == id && x in s.marking then CountOf(Flatten(s.slots), id) else 0
    case _ => 0
  }

  /** Left PROCESSING with a transaction, none of them UNVERIFIED: neither queued nor waiting for the verifier. */
  predicate Stranded(s: State, cutoff: Option<int>, id: BundleId) {
    && ActiveIn(s.rows, id) && s.rows[id].status.Processing? && (cutoff.Some? ==> s.rows[id].createdAt >= cutoff.value)
    && Linked(s.txs, id) && !AwaitsVerification(s.txs, id)
  }

  // ---------- Counting ----------

  lemma HeldIsActive(s: State, id: BundleId)
    requires Placed(s) && Places(s, id) >= 1
    ensures ActiveIn(s.rows, id) && Places(s, id) == 1
  {
    assert Missing(s, id) >= 0;
  }

  lemma MemoryIsHeld(s: State, b: SlotBundle)
    requires InMemory(s, b)
    ensures b in Flatten(s.slots) ==> CountOf(Flatten(s.slots), b.bundleId) >= 1
    ensures b in FlightBundles(s) ==> CountOf(FlightBundles(s), b.bundleId) >= 1
    ensures b in s.entering ==> CountOf(s.entering, b.bundleId) >= 1
  {
    if b in Flatten(s.slots) { CountMember(Flatten(s.slots), b); }
    if b in FlightBundles(s) { CountMember(FlightBundles(s), b); }
    if b in s.entering { CountMember(s.entering, b); }
  }

  lemma MemoryIsActive(s: State, b: SlotBundle)
    requires Placed(s) && InMemory(s, b)
    ensures ActiveIn(s.rows, b.bundleId)
  {
    MemoryIsHeld(s, b);
    HeldIsActive(s, b.bundleId);
  }

  lemma FlightIsActive(s: State)
    requires Placed(s)
    ensures forall id :: id in Ids(FlightBundles(s)) ==> ActiveIn(s.rows, id)
  {
    forall id | id in Ids(FlightBundles(s)) ensures ActiveIn(s.rows, id) {
      CountIsMultiplicity(FlightBundles(s), id);
      HeldIsActive(s, id);
    }
  }

  lemma LinksAppend(txs: seq<Tx>, t: Tx, status: TxStatus, id: BundleId)
    ensures Links(txs + [t], status, id)
         == Links(txs, status, id) + (if t.status == status then multiset(t.bundleIds)[id] else 0)
  {
    assert (txs + [t])[..|txs|] == txs;
  }

  /** Changing one transaction's status moves exactly its links. */
  lemma {:induction false} LinksUpdate(txs: seq<Tx>, k: nat, t: Tx, status: TxStatus, id: BundleId)
    requires k < |txs| && t.bundleIds == txs[k].bundleIds
    ensures Links(txs[k := t], status, id) + (if txs[k].status == status then multiset(t.bundleIds)[id] else 0)
         == Links(txs, status, id) + (if t.status == status then multiset(t.bundleIds)[id] else 0)
  {
    var n := |txs| - 1;
    if k == n {
      assert txs[k := t][..n] == txs[..n];
    } else {
      LinksUpdate(txs[..n], k, t, status, id);
      assert txs[k := t][..n] == txs[..n][k := t];
    }
  }

  lemma {:induction false} LinksContains(txs: seq<Tx>, k: nat, id: BundleId)
    requires k < |txs|
    ensures Links(txs, txs[k].status, id) >= multiset(txs[k].bundleIds)[id]
  {
    var n := |txs| - 1;
    if k == n {
    } else {
      LinksContains(txs[..n], k, id);
    }
  }

  lemma {:induction false} LinkedSomewhere(txs: seq<Tx>, status: TxStatus, id: BundleId) returns (k: nat)
    requires Links(txs, status, id) > 0
    ensures k < |txs| && txs[k].status == status && id in txs[k].bundleIds
  {
    var n := |txs| - 1;
    if txs[n].status == status && id in txs[n].bundleIds {
      k := n;
    } else {
      assert id !in multiset(txs[n].bundleIds) || txs[n].status != status;
      k := LinkedSomewhere(txs[..n], status, id);
    }
  }

  /** The bundles of an UNVERIFIED transaction are active, linked once, and nowhere in memory. */
  lemma LinkedIsActive(s: State, k: nat, id: BundleId)
    requires Placed(s) && k < |s.txs| && s.txs[k].status.Unverified? && id in s.txs[k].bundleIds
    ensures ActiveIn(s.rows, id) && multiset(s.txs[k].bundleIds)[id] == 1
    ensures Places(s, id) == 1 == Links(s.txs, Unverified, id)
  {
    LinksContains(s.txs, k, id);
    assert id in multiset(s.txs[k].bundleIds);
    HeldIsActive(s, id);
  }

  lemma LinkedNotInMemory(s: State, k: nat, b: SlotBundle)
    requires Placed(s) && k < |s.txs| && s.txs[k].status.Unverified? && InMemory(s, b)
    ensures b.bundleId !in s.txs[k].bundleIds
  {
    MemoryIsHeld(s, b);
    if b.bundleId in s.txs[k].bundleIds {
      LinkedIsActive(s, k, b.bundleId);
      assert false;
    }
  }

  /** A filter that looks at ids only keeps every copy of some ids and none of the others. */
  lemma {:induction false} CountFilterById(bs: seq<SlotBundle>, keep: SlotBundle -> bool, keepId: BundleId -> bool,
                                           id: BundleId)
    requires forall b :: b in bs ==> (keep(b) <==> keepId(b.bundleId))
    ensures CountOf(Filter(bs, keep), id) == if keepId(id) then CountOf(bs, id) else 0
  {
    if bs == [] {
    } else {
      var n := |bs| - 1;
      var front := Filter(bs[..n], keep);
      CountFilterById(bs[..n], keep, keepId, id);
      assert bs[n] in bs;
      if keep(bs[n]) { assert (front + [bs[n]])[..|front|] == front; }
    }
  }

  lemma CountSameIds(a: seq<SlotBundle>, b: seq<SlotBundle>, id: BundleId)
    requires Ids(a) == Ids(b)
    ensures CountOf(a, id) == CountOf(b, id)
  {
    CountIsMultiplicity(a, id);
    CountIsMultiplicity(b, id);
  }

  // ---------- Row writes ----------

  lemma SetStatusFacts(rows: Rows, id: BundleId, status: BundleStatus, x: BundleId)
    requires ActiveIn(rows, id) && !status.Completed?
    ensures var rows' := SetStatus(rows, id, status);
      && CompletedCount(rows', x) == CompletedCount(rows, x)
      && ActiveCount(rows', x) == if x == id && !IsActive(status) then 0 else ActiveCount(rows, x)
  {
  }

  lemma SetStatusesFacts(rows: Rows, ids: seq<BundleId>, status: BundleStatus, x: BundleId)
    requires !IsActive(status) && forall id :: id in ids ==> ActiveIn(rows, id)
    ensures var rows' := SetStatuses(rows, ids, status);
      && ActiveCount(rows', x) == (if x in ids then 0 else ActiveCount(rows, x))
      && CompletedCount(rows', x) == (if x in ids && status.Completed? then 1 else CompletedCount(rows, x))
  {
  }

  /** One failed attempt for an active row: it stays active exactly while it has attempts left. */
  lemma FailRowsCounts(rows: Rows, ids: seq<BundleId>, max: int, terminal: bool, gated: bool, x: BundleId)
    requires forall id :: id in ids ==> ActiveIn(rows, id)
    ensures var rows' := FailRows(rows, ids, max, terminal, gated);
      && CompletedCount(rows', x) == CompletedCount(rows, x)
      && ActiveCount(rows', x)
           == if x in ids && x in rows then (if EndsBundle(rows[x], max, terminal) then 0 else 1)
              else ActiveCount(rows, x)
  {
  }

  lemma StartupRowsCounts(rows: Rows, cutoff: Option<int>, x: BundleId)
    ensures var rows' := StartupRows(rows, cutoff);
      && CompletedCount(rows', x) == CompletedCount(rows, x)
      && (ActiveIn(rows', x) <==>
            ActiveIn(rows, x) && (cutoff.Some? ==> rows[x].createdAt >= cutoff.value))
      && (ActiveIn(rows', x) ==> rows'[x] == rows[x])
  {
  }

  // ---------- What each step makes missing ----------

  /** Exact accounting: a step makes missing what it drops, and a restart what it strands. */
  ghost predicate Accounted(cfg: Config, s: State, a: Action, x: BundleId) {
    Missing(Apply(cfg, s, a), x)
      == if Restarts(s, a) then (if Stranded(s, a.cutoff, x) then 1 else 0) else Missing(s, x) + Drops(cfg, s, a, x)
  }

  lemma AdmitsInactive(s: State, a: Action, id: BundleId)
    requires Admits(s, a, id)
    ensures !ActiveIn(s.rows, id) && !CompletedIn(s.rows, id)
  {
  }

  /** A PENDING row is written over one that is not active, and its bundle enters or does not. */
  lemma EnterMissing(s: State, s': State, row: Row, b: SlotBundle, enters: bool, x: BundleId)
    requires Placed(s) && !ActiveIn(s.rows, b.bundleId) && row.status.Pending?
    requires s' == s.(rows := s.rows[b.bundleId := row], utxos := s'.utxos,
                      entering := if enters then s.entering + [b] else s.entering)
    ensures Missing(s', x) == Missing(s, x) + if enters || x != b.bundleId then 0 else 1
  {
    assert Missing(s, x) >= 0;
    CountAppend(s.entering, [b], x);
    CountOne(b, x);
  }

  lemma AdmitMissing(cfg: Config, s: State, a: Action, x: BundleId)
    requires Placed(s) && a.Admit?
    ensures Accounted(cfg, s, a, x)
  {
    if Admits(s, a, a.id) {
      var ops := ClassifyOperations(a.operations);
      var row := AdmittedRow(s.rows, a.id, a.channel, ops, a.balances, a.latestLedger, s.now);
      AdmitsInactive(s, a, a.id);
      EnterMissing(s, ApplyAdmit(cfg, s, a), row, CreateSlotBundle(a.id, row, cfg, a.priority), !Aborts(s, a), x);
    }
  }

  lemma AddedCount(after: seq<SlotBundle>, before: seq<SlotBundle>, b: SlotBundle, x: BundleId)
    requires multiset(after) == multiset(before) + multiset{b}
    ensures CountOf(after, x) == CountOf(before, x) + (if b.bundleId == x then 1 else 0)
  {
    CountPermute(after, before + [b], x);
    CountAppend(before, [b], x);
    CountOne(b, x);
  }

  lemma SwappedCount(after: seq<SlotBundle>, dropped: SlotBundle, before: seq<SlotBundle>, b: SlotBundle, x: BundleId)
    requires multiset(after) + multiset{dropped} == multiset(before) + multiset{b}
    ensures CountOf(after, x) + (if dropped.bundleId == x then 1 else 0)
         == CountOf(before, x) + (if b.bundleId == x then 1 else 0)
  {
    CountPermute(after + [dropped], before + [b], x);
    CountAppend(before, [b], x);
    CountAppend(after, [dropped], x);
    CountOne(b, x);
    CountOne(dropped, x);
  }

  /** The cascade adds one copy of the new bundle and, on SLOT_FULL, takes away one of the bundle it drops. */
  lemma CascadeCount(capacity: int, slots: seq<SlotState>, b: SlotBundle, x: BundleId)
    requires SlotsOk(slots)
    ensures CountOf(Flatten(AddBundle(capacity, slots, b).0), x) + (if LeavesOut(capacity, slots, b, x) then 1 else 0)
         == CountOf(Flatten(slots), x) + (if b.bundleId == x then 1 else 0)
  {
    var added := AddBundle(capacity, slots, b);
    CascadeConserves(capacity, slots, b);
    if added.1.Added? {
      AddedCount(Flatten(added.0), Flatten(slots), b, x);
    } else {
      SwappedCount(Flatten(added.0), added.1.dropped, Flatten(slots), b, x);
    }
  }

  lemma AddExpiredMissing(cfg: Config, s: State, k: nat, x: BundleId)
    requires Placed(s) && k < |s.entering| && IsBundleExpired(s.entering[k], s.now)
    ensures Missing(ApplyAdd(cfg, s, k), x) == Missing(s, x)
  {
    var b := s.entering[k];
    CountWithout(s.entering, k, x);
    MemoryIsActive(s, b);
    SetStatusFacts(s.rows, b.bundleId, Expired, x);
  }

  /** The bundle at `k` leaves `entering`, and the slots become `slots`. */
  lemma OfferMissing(s: State, k: nat, slots: seq<SlotState>, marking: multiset<BundleId>, x: BundleId)
    requires k < |s.entering|
    ensures Missing(s.(slots := slots, entering := Without(s.entering, k), marking := marking), x)
         == Missing(s, x) + CountOf(Flatten(s.slots), x) - CountOf(Flatten(slots), x)
            + (if s.entering[k].bundleId == x then 1 else 0)
  {
    CountWithout(s.entering, k, x);
  }

  lemma AddUnexpiredState(cfg: Config, s: State, k: nat)
    requires k < |s.entering| && !IsBundleExpired(s.entering[k], s.now)
    ensures var s' := ApplyAdd(cfg, s, k);
      s' == s.(slots := AddBundle(cfg.capacity, s.slots, s.entering[k]).0, entering := Without(s.entering, k),
               marking := s'.marking)
  {
  }

  lemma AddUnexpiredMissing(cfg: Config, s: State, k: nat, x: BundleId)
    requires SlotsOk(s.slots) && k < |s.entering| && !IsBundleExpired(s.entering[k], s.now)
    ensures Missing(ApplyAdd(cfg, s, k), x) == Missing(s, x) + if Overflows(cfg, s, k, x) then 1 else 0
  {
    var slots := AddBundle(cfg.capacity, s.slots, s.entering[k]).0;
    AddUnexpiredState(cfg, s, k);
    OfferMissing(s, k, slots, ApplyAdd(cfg, s, k).marking, x);
    CascadeCount(cfg.capacity, s.slots, s.entering[k], x);
  }

  lemma PurgeCount(slots: seq<SlotState>, id: BundleId, x: BundleId)
    ensures CountOf(Flatten(FilterSlots(slots, Kept(WithId({id})))), x)
         == if x == id then 0 else CountOf(Flatten(slots), x)
  {
    FilterSlotsFlatten(slots, Kept(WithId({id})));
    CountFilterById(Flatten(slots), Kept(WithId({id})), (y: BundleId) => y != id, x);
  }

  /** When the PROCESSING gate refuses, the bundle is no longer in any slot: the purge removes nothing. */
  lemma RefusedMarkPurgesNothing(s: State, id: BundleId)
    requires Placed(s) && SlotsOk(s.slots) && !ActiveIn(s.rows, id)
    ensures FilterSlots(s.slots, Kept(WithId({id}))) == s.slots
  {
    forall b | b in Flatten(s.slots) ensures b.bundleId != id { MemoryIsActive(s, b); }
    FilterSlotsKeepsAll(s.slots, Kept(WithId({id})));
  }

  lemma MarkMissing(s: State, id: BundleId, x: BundleId)
    requires Placed(s) && SlotsOk(s.slots)
    ensures Missing(ApplyMark(s, id), x) == Missing(s, x)
  {
    if id in s.marking {
      if ActiveIn(s.rows, id) {
        SetStatusFacts(s.rows, id, Processing, x);
      } else {
        RefusedMarkPurgesNothing(s, id);
      }
    }
  }

  lemma FailMarkMissing(s: State, id: BundleId, x: BundleId)
    requires id in s.marking
    ensures Missing(ApplyFailMark(s, id), x) == Missing(s, x) + if x == id then CountOf(Flatten(s.slots), id) else 0
  {
    PurgeCount(s.slots, id, x);
  }

  lemma SweepMissing(s: State, x: BundleId)
    ensures Missing(ApplySweep(s), x) == Missing(s, x)
  {
    var keep, drop := Kept(ExpiredAt(s.now)), Selected(ExpiredAt(s.now));
    FilterSlotsFlatten(s.slots, keep);
    CountFilter(Flatten(s.slots), keep, drop, x);
    RemovedBag(s.slots, drop);
    CountPermute(Removed(s.slots, drop), Filter(Flatten(s.slots), drop), x);
    CountIsMultiplicity(Removed(s.slots, drop), x);
  }

  lemma WriteSweptMissing(s: State, id: BundleId, x: BundleId)
    requires Placed(s)
    ensures Missing(ApplyWriteSwept(s, id), x) == Missing(s, x)
    ensures id in s.sweeping ==> ActiveIn(s.rows, id)
  {
    if id in s.sweeping {
      HeldIsActive(s, id);
      SetStatusFacts(s.rows, id, Expired, x);
    }
  }

  lemma WriteEvictedMissing(s: State, id: BundleId, x: BundleId)
    requires Placed(s)
    ensures Missing(ApplyWriteEvicted(s, id), x) == Missing(s, x)
    ensures id in s.evicting ==> ActiveIn(s.rows, id)
  {
    if id in s.evicting {
      HeldIsActive(s, id);
      SetStatusFacts(s.rows, id, Expired, x);
    }
  }

  /** Where the bundles of the first slot go: expired ones to `evicting`, the others in flight. */
  lemma PullMissing(s: State, x: BundleId)
    ensures Missing(ApplyPull(s), x) == Missing(s, x)
  {
    if s.flight.None? && s.slots != [] {
      var first := s.slots[0].bundles;
      var keep, drop := Kept(ExpiredAt(s.now)), Selected(ExpiredAt(s.now));
      CountAppend(first, Flatten(s.slots[1..]), x);
      CountFilter(first, keep, drop, x);
      CountIsMultiplicity(Filter(first, drop), x);
    }
  }

  lemma SubmitMissing(cfg: Config, s: State, x: BundleId)
    ensures Missing(ApplySubmit(cfg, s), x) == Missing(s, x)
  {
    if s.flight.Some? {
      var txs := ApplySubmit(cfg, s).txs;
      LinksAppend(s.txs, txs[|s.txs|], Unverified, x);
      CountIsMultiplicity(FlightBundles(s), x);
    }
  }

  /** The ids of a failed slot that get another attempt. */
  function RequeuedId(rows: Rows, max: int, terminal: bool): BundleId -> bool {
    (id: BundleId) => ActiveIn(rows, id) && !EndsBundle(rows[id], max, terminal)
  }

  /** Of a failed slot, exactly the active bundles with attempts left are queued again, each as often as before. */
  lemma RequeuedOnce(rows: Rows, bs: seq<SlotBundle>, max: int, terminal: bool, x: BundleId)
    ensures CountOf(Filter(bs, Retryable(rows, max, terminal)), x)
         == if RequeuedId(rows, max, terminal)(x) then CountOf(bs, x) else 0
  {
    CountFilterById(bs, Retryable(rows, max, terminal), RequeuedId(rows, max, terminal), x);
  }

  /** A failed slot on plain values: a bundle that leaves flight enters again or is no longer active. */
  lemma RetriedSlotCounts(rows: Rows, bs: seq<SlotBundle>, max: int, terminal: bool, x: BundleId)
    requires (forall id :: id in Ids(bs) ==> ActiveIn(rows, id)) && CountOf(bs, x) <= 1
    ensures var rows' := FailRows(rows, Ids(bs), max, terminal, true);
      ActiveCount(rows', x) - CountOf(WithRetryCount(Filter(bs, Retryable(rows, max, terminal)), rows'), x)
        == ActiveCount(rows, x) - CountOf(bs, x)
  {
    var rows' := FailRows(rows, Ids(bs), max, terminal, true);
    var again := Filter(bs, Retryable(rows, max, terminal));
    FailRowsCounts(rows, Ids(bs), max, terminal, true, x);
    CountSameIds(WithRetryCount(again, rows'), again, x);
    RequeuedOnce(rows, bs, max, terminal, x);
    CountIsMultiplicity(bs, x);
  }

  lemma FailExecutionMissing(cfg: Config, s: State, deterministic: bool, x: BundleId)
    requires Placed(s)
    ensures Missing(ApplyFailExecution(cfg, s, deterministic), x) == Missing(s, x)
  {
    if s.flight.Some? {
      var bs := FlightBundles(s);
      var rows := FailRows(s.rows, Ids(bs), cfg.maxRetryAttempts, deterministic, true);
      var again := Filter(bs, Retryable(s.rows, cfg.maxRetryAttempts, deterministic));
      FlightIsActive(s);
      assert Missing(s, x) >= 0;
      RetriedSlotCounts(s.rows, bs, cfg.maxRetryAttempts, deterministic, x);
      CountAppend(s.entering, WithRetryCount(again, rows), x);
    }
  }

  lemma RejectFeesMissing(s: State, x: BundleId)
    requires Placed(s)
    ensures Missing(ApplyRejectFees(s), x) == Missing(s, x)
  {
    if s.flight.Some? {
      FlightIsActive(s);
      SetStatusesFacts(s.rows, Ids(FlightBundles(s)), Failed, x);
      CountIsMultiplicity(FlightBundles(s), x);
      assert Missing(s, x) >= 0;
    }
  }

  lemma AllLinkedActive(s: State, k: nat)
    requires Placed(s) && k < |s.txs| && s.txs[k].status.Unverified?
    ensures forall id :: id in s.txs[k].bundleIds ==> ActiveIn(s.rows, id)
  {
    forall id | id in s.txs[k].bundleIds ensures ActiveIn(s.rows, id) { LinkedIsActive(s, k, id); }
  }

  /** A transaction stops being UNVERIFIED: its links go, the rows become `rows`, and `more` bundles enter. */
  lemma UnlinkMissing(s: State, k: nat, t: Tx, rows: Rows, more: seq<SlotBundle>, x: BundleId)
    requires k < |s.txs| && s.txs[k].status.Unverified? && !t.status.Unverified? && t.bundleIds == s.txs[k].bundleIds
    ensures Missing(s.(txs := s.txs[k := t], rows := rows, entering := s.entering + more), x)
         == ActiveCount(rows, x) - Places(s, x) + multiset(t.bundleIds)[x] - CountOf(more, x)
  {
    LinksUpdate(s.txs, k, t, Unverified, x);
    CountAppend(s.entering, more, x);
  }

  lemma VerifySuccessMissing(s: State, k: nat, x: BundleId)
    requires Placed(s)
    ensures Missing(ApplyVerifySuccess(s, k), x) == Missing(s, x)
  {
    if k < |s.txs| && s.txs[k].status.Unverified? {
      var ids := s.txs[k].bundleIds;
      var rows := SetStatuses(s.rows, ids, Completed);
      AllLinkedActive(s, k);
      SetStatusesFacts(s.rows, ids, Completed, x);
      UnlinkMissing(s, k, s.txs[k].(status := Verified), rows, [], x);
      assert s.entering + [] == s.entering;
      if x in ids { LinkedIsActive(s, k, x); } else { assert multiset(ids)[x] == 0; }
    }
  }

  /** A failed transaction on plain values: a bundle that loses its link enters again or is no longer active. */
  lemma RetriedLinkCounts(cfg: Config, rows: Rows, ids: seq<BundleId>, terminal: bool, priorities: map<BundleId, real>,
                          x: BundleId)
    requires (forall id :: id in ids ==> ActiveIn(rows, id)) && multiset(ids)[x] <= 1
    ensures var rows' := FailRows(rows, ids, cfg.maxRetryAttempts, terminal, false);
      var again := Filter(ids, RetryableId(rows, cfg.maxRetryAttempts, terminal));
      ActiveCount(rows', x) - CountOf(Rehydrate(again, rows', cfg, priorities), x)
        == ActiveCount(rows, x) - multiset(ids)[x]
  {
    var again := Filter(ids, RetryableId(rows, cfg.maxRetryAttempts, terminal));
    FailRowsCounts(rows, ids, cfg.maxRetryAttempts, terminal, false, x);
    RehydratedCount(cfg, FailRows(rows, ids, cfg.maxRetryAttempts, terminal, false), again, priorities, x);
    FilterCount(ids, RetryableId(rows, cfg.maxRetryAttempts, terminal), x);
    assert x in ids <==> x in multiset(ids);
  }

  lemma LinkedAtMostOnce(s: State, k: nat, x: BundleId)
    requires Placed(s) && k < |s.txs| && s.txs[k].status.Unverified?
    ensures multiset(s.txs[k].bundleIds)[x] <= 1
  {
    LinksContains(s.txs, k, x);
    assert Missing(s, x) >= 0;
  }

  lemma VerifyFailureMissing(cfg: Config, s: State, k: nat, terminal: bool, priorities: map<BundleId, real>,
                             x: BundleId)
    requires Placed(s)
    ensures Missing(ApplyVerifyFailure(cfg, s, k, terminal, priorities), x) == Missing(s, x)
  {
    if k < |s.txs| && s.txs[k].status.Unverified? {
      var ids := s.txs[k].bundleIds;
      var rows := FailRows(s.rows, ids, cfg.maxRetryAttempts, terminal, false);
      var again := Filter(ids, RetryableId(s.rows, cfg.maxRetryAttempts, terminal));
      AllLinkedActive(s, k);
      LinkedAtMostOnce(s, k, x);
      RetriedLinkCounts(cfg, s.rows, ids, terminal, priorities, x);
      UnlinkMissing(s, k, s.txs[k].(status := TxFailed), rows, Rehydrate(again, rows, cfg, priorities), x);
    }
  }

  lemma RehydratedCount(cfg: Config, rows: Rows, ids: seq<BundleId>, priorities: map<BundleId, real>, x: BundleId)
    requires forall id :: id in ids ==> id in rows
    ensures CountOf(Rehydrate(ids, rows, cfg, priorities), x) == multiset(ids)[x]
  {
    assert Ids(Rehydrate(ids, rows, cfg, priorities)) == ids;
    CountIsMultiplicity(Rehydrate(ids, rows, cfg, priorities), x);
  }

  // ---------- Restart ----------

  lemma AwaitsIffLinked(s: State, id: BundleId)
    requires Placed(s)
    ensures Links(s.txs, Unverified, id) == if AwaitsVerification(s.txs, id) then 1 else 0
    ensures AwaitsVerification(s.txs, id) ==> ActiveIn(s.rows, id) && Linked(s.txs, id)
  {
    assert Missing(s, id) >= 0;
    if Links(s.txs, Unverified, id) > 0 {
      var k := LinkedSomewhere(s.txs, Unverified, id);
    }
    if k :| 0 <= k < |s.txs| && s.txs[k].status.Unverified? && id in s.txs[k].bundleIds {
      LinkedIsActive(s, k, id);
    }
  }

  /** Where a restart leaves a bundle: queued if the guard lets it, and wherever it waits for the verifier. */
  lemma RestartPlaces(cfg: Config, s: State, cutoff: Option<int>, found: seq<BundleId>, priorities: map<BundleId, real>,
                      id: BundleId)
    requires Placed(s) && Lists(found, StartupRows(s.rows, cutoff))
    ensures Places(RestartState(cfg, s, cutoff, found, priorities), id)
         == (if Resubmittable(StartupRows(s.rows, cutoff), s.txs, id) then 1 else 0)
            + (if AwaitsVerification(s.txs, id) then 1 else 0)
  {
    var rows := StartupRows(s.rows, cutoff);
    var again := Filter(found, ResubmittableId(rows, s.txs));
    RehydratedCount(cfg, rows, again, priorities, id);
    FilterCount(found, ResubmittableId(rows, s.txs), id);
    DistinctBag(found);
    assert id in found <==> id in multiset(found);
    AwaitsIffLinked(s, id);
  }

  /** A safe restart leaves missing exactly what it strands; it brings back everything else that was missing. */
  lemma RestartMissing(cfg: Config, s: State, cutoff: Option<int>, found: seq<BundleId>, priorities: map<BundleId,
                       real>,
                       id: BundleId)
    requires Placed(s) && Lists(found, StartupRows(s.rows, cutoff)) && RestartSafe(s.rows, s.txs, cutoff)
    ensures Missing(RestartState(cfg, s, cutoff, found, priorities), id) == if Stranded(s, cutoff, id) then 1 else 0
  {
    RestartPlaces(cfg, s, cutoff, found, priorities, id);
    AwaitsIffLinked(s, id);
    StartupRowsCounts(s.rows, cutoff, id);
  }

  // ---------- Every step, bundle by bundle ----------

  /** The step makes nothing missing. */
  ghost predicate Quiet(cfg: Config, s: State, a: Action, x: BundleId) {
    Missing(Apply(cfg, s, a), x) == Missing(s, x)
  }

  lemma MarkQuiet(cfg: Config, s: State, id: BundleId, x: BundleId)
    requires Placed(s) && SlotsOk(s.slots)
    ensures Quiet(cfg, s, MarkProcessing(id), x)
  {
    MarkMissing(s, id, x);
  }

  lemma SweepQuiet(cfg: Config, s: State, x: BundleId)
    ensures Quiet(cfg, s, Sweep, x)
  {
    SweepMissing(s, x);
  }

  lemma WriteSweptQuiet(cfg: Config, s: State, id: BundleId, x: BundleId)
    requires Placed(s)
    ensures Quiet(cfg, s, WriteSwept(id), x)
  {
    WriteSweptMissing(s, id, x);
  }

  lemma PullQuiet(cfg: Config, s: State, x: BundleId)
    ensures Quiet(cfg, s, Pull, x)
  {
    PullMissing(s, x);
  }

  lemma WriteEvictedQuiet(cfg: Config, s: State, id: BundleId, x: BundleId)
    requires Placed(s)
    ensures Quiet(cfg, s, WriteEvicted(id), x)
  {
    WriteEvictedMissing(s, id, x);
  }

  lemma SubmitQuiet(cfg: Config, s: State, x: BundleId)
    ensures Quiet(cfg, s, Submit, x)
  {
    SubmitMissing(cfg, s, x);
  }

  lemma FailExecutionQuiet(cfg: Config, s: State, deterministic: bool, x: BundleId)
    requires Placed(s)
    ensures Quiet(cfg, s, FailExecution(deterministic), x)
  {
    FailExecutionMissing(cfg, s, deterministic, x);
  }

  lemma RejectFeesQuiet(cfg: Config, s: State, x: BundleId)
    requires Placed(s)
    ensures Quiet(cfg, s, RejectFees, x)
  {
    RejectFeesMissing(s, x);
  }

  lemma VerifySuccessQuiet(cfg: Config, s: State, k: nat, x: BundleId)
    requires Placed(s)
    ensures Quiet(cfg, s, VerifySuccess(k), x)
  {
    VerifySuccessMissing(s, k, x);
  }

  lemma VerifyFailureQuiet(cfg: Config, s: State, a: Action, x: BundleId)
    requires Placed(s) && a.VerifyFailure?
    ensures Quiet(cfg, s, a, x)
  {
    VerifyFailureMissing(cfg, s, a.tx, a.terminal, a.priorities, x);
  }

  lemma TickQuiet(cfg: Config, s: State, ms: nat, x: BundleId)
    ensures Quiet(cfg, s, Tick(ms), x)
  {
  }

  predicate DropsNothing(a: Action) { !a.Admit? && !a.AddToMempool? && !a.FailMark? && !a.Restart? }

  lemma QuietStep(cfg: Config, s: State, a: Action, x: BundleId)
    requires Placed(s) && SlotsOk(s.slots) && DropsNothing(a)
    ensures Quiet(cfg, s, a, x)
  {
    match a
    case MarkProcessing(id) => MarkQuiet(cfg, s, id, x);
    case Sweep => SweepQuiet(cfg, s, x);
    case WriteSwept(id) => WriteSweptQuiet(cfg, s, id, x);
    case Pull => PullQuiet(cfg, s, x);
    case WriteEvicted(id) => WriteEvictedQuiet(cfg, s, id, x);
    case Submit => SubmitQuiet(cfg, s, x);
    case FailExecution(deterministic) => FailExecutionQuiet(cfg, s, deterministic, x);
    case RejectFees => RejectFeesQuiet(cfg, s, x);
    case VerifySuccess(k) => VerifySuccessQuiet(cfg, s, k, x);
    case VerifyFailure(_, _, _) => VerifyFailureQuiet(cfg, s, a, x);
    case Tick(ms) => TickQuiet(cfg, s, ms, x);
  }

  lemma QuietAccounted(cfg: Config, s: State, a: Action, x: BundleId)
    requires DropsNothing(a) && Quiet(cfg, s, a, x)
    ensures Accounted(cfg, s, a, x)
  {
  }

  lemma AddAccounted(cfg: Config, s: State, k: nat, x: BundleId)
    requires Placed(s) && SlotsOk(s.slots)
    ensures Accounted(cfg, s, AddToMempool(k), x)
  {
    if k >= |s.entering| {
    } else if IsBundleExpired(s.entering[k], s.now) {
      AddExpiredMissing(cfg, s, k, x);
    } else {
      AddUnexpiredMissing(cfg, s, k, x);
    }
  }

  lemma FailMarkAccounted(cfg: Config, s: State, id: BundleId, x: BundleId)
    ensures Accounted(cfg, s, FailMark(id), x)
  {
    if id in s.marking { FailMarkMissing(s, id, x); }
  }

  lemma RestartAccounted(cfg: Config, s: State, a: Action, x: BundleId)
    requires Placed(s) && a.Restart?
    ensures Accounted(cfg, s, a, x)
  {
    if Restarts(s, a) { RestartMissing(cfg, s, a.cutoff, a.found, a.priorities, x); }
  }

  lemma StepMissing(cfg: Config, s: State, a: Action, x: BundleId)
    requires Placed(s) && SlotsOk(s.slots)
    ensures Accounted(cfg, s, a, x)
  {
    match a
    case Admit(_, _, _, _, _, _, _) => AdmitMissing(cfg, s, a, x);
    case AddToMempool(k) => AddAccounted(cfg, s, k, x);
    case FailMark(id) => FailMarkAccounted(cfg, s, id, x);
    case Restart(_, _, _) => RestartAccounted(cfg, s, a, x);
    case _ =>
      QuietStep(cfg, s, a, x);
      QuietAccounted(cfg, s, a, x);
  }

  lemma StepKeepsPlaced(cfg: Config, s: State, a: Action)
    requires Placed(s) && SlotsOk(s.slots)
    ensures Placed(Apply(cfg, s, a))
  {
    forall x ensures Missing(Apply(cfg, s, a), x) >= 0 {
      StepMissing(cfg, s, a, x);
      assert Missing(s, x) >= 0;
    }
  }

  // ---------- What each step does to a row ----------

  /** Action `a` is a failed attempt, at execution or at verification, for `id` in `s`. */
  predicate FailsBundle(s: State, a: Action, id: BundleId) {
    || (a.FailExecution? && id in Ids(FlightBundles(s)))
    || (a.VerifyFailure? && a.tx < |s.txs| && s.txs[a.tx].status.Unverified? && id in s.txs[a.tx].bundleIds)
  }

  /** Action `a` finds a transaction of `id` on the network. */
  predicate Verifies(s: State, a: Action, id: BundleId) {
    a.VerifySuccess? && a.tx < |s.txs| && s.txs[a.tx].status.Unverified? && id in s.txs[a.tx].bundleIds
  }

  predicate Final(s: BundleStatus) { !IsActive(s) }

  predicate SameContent(a: Row, b: Row) {
    && a.channel == b.channel && a.ttl == b.ttl && a.operations == b.operations && a.fee == b.fee
    && a.createdAt == b.createdAt
  }

  /** What may become of a row. Only admission takes it out of EXPIRED or FAILED, nothing takes it out of COMPLETED,
      and only a failed attempt changes its retry count otherwise. */
  predicate RowChange(max: int, row: Row, row': Row, admitted: bool, failed: bool, verified: bool) {
    && (admitted ==> Final(row.status) && !row.status.Completed? && row'.status.Pending? && row'.retryCount == 0
                     && row'.createdAt == row.createdAt)
    && (!admitted ==> SameContent(row, row') && row'.retryCount == row.retryCount + (if failed then 1 else 0)
                      && (Final(row.status) ==> row' == row))
    && (failed ==> IsActive(row.status) && (row'.retryCount >= max ==> row'.status.Failed?))
    && (verified ==> IsActive(row.status))
    && (row'.status.Completed? <==> row.status.Completed? || verified)
  }

  ghost predicate RowEffect(cfg: Config, s: State, a: Action, id: BundleId)
    requires id in s.rows
  {
    var rows' := Apply(cfg, s, a).rows;
    && id in rows'
    && RowChange(cfg.maxRetryAttempts, s.rows[id], rows'[id],
                 Admits(s, a, id), FailsBundle(s, a, id), Verifies(s, a, id))
  }

  lemma AdmitRowEffect(cfg: Config, s: State, a: Action, id: BundleId)
    requires a.Admit? && id in s.rows
    ensures RowEffect(cfg, s, a, id)
  {
    if Admits(s, a, id) { AdmitsInactive(s, a, id); }
  }

  lemma AddRowEffect(cfg: Config, s: State, k: nat, id: BundleId)
    requires Placed(s) && id in s.rows
    ensures RowEffect(cfg, s, AddToMempool(k), id)
  {
    if k < |s.entering| { MemoryIsActive(s, s.entering[k]); }
  }

  lemma MarkRowEffect(cfg: Config, s: State, a: Action, id: BundleId)
    requires (a.MarkProcessing? || a.FailMark?) && id in s.rows
    ensures RowEffect(cfg, s, a, id)
  {
  }

  lemma StatusChange(max: int, row: Row, status: BundleStatus)
    requires IsActive(row.status) && !status.Completed?
    ensures RowChange(max, row, row.(status := status), false, false, false)
  {
  }

  lemma NoChange(max: int, row: Row)
    ensures RowChange(max, row, row, false, false, false)
  {
  }

  lemma SweptRowEffect(cfg: Config, s: State, x: BundleId, id: BundleId)
    requires Placed(s) && id in s.rows
    ensures RowEffect(cfg, s, WriteSwept(x), id)
  {
    if x in s.sweeping && x == id {
      HeldIsActive(s, x);
      StatusChange(cfg.maxRetryAttempts, s.rows[id], Expired);
    } else {
      NoChange(cfg.maxRetryAttempts, s.rows[id]);
    }
  }

  lemma EvictedRowEffect(cfg: Config, s: State, x: BundleId, id: BundleId)
    requires id in s.rows
    ensures RowEffect(cfg, s, WriteEvicted(x), id)
  {
  }

  lemma MovingRowEffect(cfg: Config, s: State, a: Action, id: BundleId)
    requires (a.Sweep? || a.Pull? || a.Submit? || a.Tick?) && id in s.rows
    ensures RowEffect(cfg, s, a, id)
  {
    assert Apply(cfg, s, a).rows == s.rows;
  }

  lemma ExecutorRowEffect(cfg: Config, s: State, a: Action, id: BundleId)
    requires Placed(s) && (a.FailExecution? || a.RejectFees?) && id in s.rows
    ensures RowEffect(cfg, s, a, id)
  {
    FlightIsActive(s);
  }

  lemma VerifierRowEffect(cfg: Config, s: State, a: Action, id: BundleId)
    requires Placed(s) && (a.VerifySuccess? || a.VerifyFailure?) && id in s.rows
    ensures RowEffect(cfg, s, a, id)
  {
    if a.tx < |s.txs| && s.txs[a.tx].status.Unverified? { AllLinkedActive(s, a.tx); }
  }

  lemma RestartRowEffect(cfg: Config, s: State, a: Action, id: BundleId)
    requires a.Restart? && id in s.rows
    ensures RowEffect(cfg, s, a, id)
  {
    StartupRowsCounts(s.rows, a.cutoff, id);
  }

  lemma StepRowEffect(cfg: Config, s: State, a: Action, id: BundleId)
    requires Placed(s) && id in s.rows
    ensures RowEffect(cfg, s, a, id)
  {
    match a
    case Admit(_, _, _, _, _, _, _) => AdmitRowEffect(cfg, s, a, id);
    case AddToMempool(k) => AddRowEffect(cfg, s, k, id);
    case MarkProcessing(_) => MarkRowEffect(cfg, s, a, id);
    case FailMark(_) => MarkRowEffect(cfg, s, a, id);
    case WriteSwept(x) => SweptRowEffect(cfg, s, x, id);
    case WriteEvicted(x) => EvictedRowEffect(cfg, s, x, id);
    case FailExecution(_) => ExecutorRowEffect(cfg, s, a, id);
    case RejectFees => ExecutorRowEffect(cfg, s, a, id);
    case VerifySuccess(_) => VerifierRowEffect(cfg, s, a, id);
    case VerifyFailure(_, _, _) => VerifierRowEffect(cfg, s, a, id);
    case Restart(_, _, _) => RestartRowEffect(cfg, s, a, id);
    case _ => MovingRowEffect(cfg, s, a, id);
  }

  lemma AddStepKeys(cfg: Config, s: State, a: Action)
    requires a.AddToMempool? || a.MarkProcessing? || a.FailMark?
    ensures Apply(cfg, s, a).rows.Keys == s.rows.Keys
  {
  }

  lemma ExpiryStepKeys(cfg: Config, s: State, a: Action)
    requires a.Sweep? || a.WriteSwept? || a.Pull? || a.WriteEvicted?
    ensures Apply(cfg, s, a).rows.Keys == s.rows.Keys
  {
  }

  lemma OutcomeStepKeys(cfg: Config, s: State, a: Action)
    requires a.Submit? || a.FailExecution? || a.RejectFees? || a.VerifySuccess? || a.VerifyFailure? || a.Tick?
             || a.Restart?
    ensures Apply(cfg, s, a).rows.Keys == s.rows.Keys
  {
  }

  /** Rows come into being only by admission, PENDING and with no attempt used. */
  lemma StepNewRow(cfg: Config, s: State, a: Action, id: BundleId)
    requires id !in s.rows && id in Apply(cfg, s, a).rows
    ensures Admits(s, a, id)
    ensures Apply(cfg, s, a).rows[id].status.Pending? && Apply(cfg, s, a).rows[id].retryCount == 0
  {
    if a.Admit? {
    } else if a.AddToMempool? || a.MarkProcessing? || a.FailMark? {
      AddStepKeys(cfg, s, a);
    } else if a.Sweep? || a.WriteSwept? || a.Pull? || a.WriteEvicted? {
      ExpiryStepKeys(cfg, s, a);
    } else {
      OutcomeStepKeys(cfg, s, a);
    }
  }

  lemma StepKeepsSound(cfg: Config, s: State, a: Action)
    requires Placed(s) && Sound(cfg, s.rows)
    ensures Sound(cfg, Apply(cfg, s, a).rows)
  {
    var rows := Apply(cfg, s, a).rows;
    forall id | ActiveIn(rows, id) ensures rows[id].retryCount < cfg.maxRetryAttempts {
      if id in s.rows { StepRowEffect(cfg, s, a, id); } else { StepNewRow(cfg, s, a, id); }
    }
  }

  // ---------- Verified transactions ----------

  /** What a step adds to the VERIFIED links of `x`. */
  lemma StepLinks(cfg: Config, s: State, a: Action, x: BundleId)
    requires Placed(s)
    ensures Links(Apply(cfg, s, a).txs, Verified, x) == Links(s.txs, Verified, x) + if Verifies(s, a, x) then 1 else 0
  {
    match a
    case Submit =>
      if s.flight.Some? { LinksAppend(s.txs, ApplySubmit(cfg, s).txs[|s.txs|], Verified, x); }
    case VerifySuccess(k) => VerifiedLinks(s, k, x);
    case VerifyFailure(k, _, _) =>
      if k < |s.txs| && s.txs[k].status.Unverified? {
        LinksUpdate(s.txs, k, s.txs[k].(status := TxFailed), Verified, x);
      }
    case _ => assert Apply(cfg, s, a).txs == s.txs;
  }

  lemma VerifiedLinks(s: State, k: nat, x: BundleId)
    requires Placed(s)
    ensures Links(ApplyVerifySuccess(s, k).txs, Verified, x)
         == Links(s.txs, Verified, x) + if Verifies(s, VerifySuccess(k), x) then 1 else 0
  {
    if k < |s.txs| && s.txs[k].status.Unverified? {
      var ids := s.txs[k].bundleIds;
      LinksUpdate(s.txs, k, s.txs[k].(status := Verified), Verified, x);
      if x in ids { LinkedIsActive(s, k, x); } else { assert multiset(ids)[x] == 0; }
    }
  }

  lemma StepCompleted(cfg: Config, s: State, a: Action, x: BundleId)
    requires Placed(s)
    ensures CompletedCount(Apply(cfg, s, a).rows, x) == CompletedCount(s.rows, x) + if Verifies(s, a, x) then 1 else 0
  {
    if x in s.rows {
      StepRowEffect(cfg, s, a, x);
    } else {
      if Verifies(s, a, x) {
        LinkedIsActive(s, a.tx, x);
        assert false;
      }
      if x in Apply(cfg, s, a).rows { StepNewRow(cfg, s, a, x); }
    }
  }

  lemma StepKeepsSettled(cfg: Config, s: State, a: Action)
    requires Placed(s) && Settled(s)
    ensures Settled(Apply(cfg, s, a))
  {
    forall x ensures Links(Apply(cfg, s, a).txs, Verified, x) == CompletedCount(Apply(cfg, s, a).rows, x) {
      StepLinks(cfg, s, a, x);
      StepCompleted(cfg, s, a, x);
    }
  }

  // ---------- Memory agrees with the rows ----------

  /** Where a bundle found in memory after a step comes from: it was there before and its row kept its content, or
      the step built it from the row. */
  ghost predicate Sourced(cfg: Config, s: State, a: Action, b: SlotBundle) {
    InMemory(Apply(cfg, s, a), b) ==>
      || (InMemory(s, b) && !FailsBundle(s, a, b.bundleId))
      || Agrees(cfg, Apply(cfg, s, a).rows, b)
  }

  lemma AdmitSourced(cfg: Config, s: State, a: Action, b: SlotBundle)
    requires a.Admit?
    ensures Sourced(cfg, s, a, b)
  {
  }

  lemma AddSourced(cfg: Config, s: State, k: nat, b: SlotBundle)
    requires SlotsOk(s.slots)
    ensures Sourced(cfg, s, AddToMempool(k), b)
  {
    if k < |s.entering| {
      WithoutBag(s.entering, k);
      CascadeContents(cfg.capacity, s.slots, s.entering[k], b);
    }
  }

  lemma CascadeContents(capacity: int, slots: seq<SlotState>, b: SlotBundle, x: SlotBundle)
    requires SlotsOk(slots)
    ensures x in Flatten(AddBundle(capacity, slots, b).0) ==> x in Flatten(slots) || x == b
  {
    CascadeConserves(capacity, slots, b);
    if x in Flatten(AddBundle(capacity, slots, b).0) {
      assert x in multiset(Flatten(AddBundle(capacity, slots, b).0));
      assert x in multiset(Flatten(slots)) + multiset{b};
    }
  }

  lemma SweepSourced(cfg: Config, s: State, b: SlotBundle)
    ensures Sourced(cfg, s, Sweep, b)
  {
    FilterSlotsFlatten(s.slots, Kept(ExpiredAt(s.now)));
  }

  lemma MarkSourced(cfg: Config, s: State, a: Action, b: SlotBundle)
    requires a.MarkProcessing? || a.FailMark?
    ensures Sourced(cfg, s, a, b)
  {
    FilterSlotsFlatten(s.slots, Kept(WithId({a.id})));
  }

  lemma PullSourced(cfg: Config, s: State, b: SlotBundle)
    ensures Sourced(cfg, s, Pull, b)
  {
    if s.flight.None? && s.slots != [] {
      assert b in FlightBundles(ApplyPull(s)) ==> b in s.slots[0].bundles;
    }
  }

  lemma OtherSourced(cfg: Config, s: State, a: Action, b: SlotBundle)
    requires a.WriteSwept? || a.WriteEvicted? || a.Submit? || a.RejectFees? || a.VerifySuccess? || a.Tick?
    ensures Sourced(cfg, s, a, b)
  {
    assert InMemory(Apply(cfg, s, a), b) ==> InMemory(s, b);
  }

  /** A bundle is not in flight and elsewhere in memory at once. */
  lemma NotAlsoInFlight(s: State, b: SlotBundle)
    requires Placed(s) && (b in Flatten(s.slots) || b in s.entering)
    ensures b.bundleId !in Ids(FlightBundles(s))
  {
    MemoryIsHeld(s, b);
    HeldIsActive(s, b.bundleId);
    CountIsMultiplicity(FlightBundles(s), b.bundleId);
  }

  /** A failed attempt raises the count of the row and of the copy alike. */
  lemma RetriedAgrees(cfg: Config, rows: Rows, bs: seq<SlotBundle>, deterministic: bool, b: SlotBundle)
    requires forall x :: x in bs ==> Agrees(cfg, rows, x)
    requires var rows' := FailRows(rows, Ids(bs), cfg.maxRetryAttempts, deterministic, true);
      b in WithRetryCount(Filter(bs, Retryable(rows, cfg.maxRetryAttempts, deterministic)), rows')
    ensures Agrees(cfg, FailRows(rows, Ids(bs), cfg.maxRetryAttempts, deterministic, true), b)
  {
    var rows' := FailRows(rows, Ids(bs), cfg.maxRetryAttempts, deterministic, true);
    var again := Filter(bs, Retryable(rows, cfg.maxRetryAttempts, deterministic));
    var i :| 0 <= i < |again| && WithRetryCount(again, rows')[i] == b;
    assert again[i] in again;
    CountMember(bs, again[i]);
    CountIsMultiplicity(bs, again[i].bundleId);
  }

  lemma FlightAgrees(cfg: Config, s: State)
    requires Matched(cfg, s)
    ensures forall x :: x in FlightBundles(s) ==> Agrees(cfg, s.rows, x)
  {
    forall x | x in FlightBundles(s) ensures Agrees(cfg, s.rows, x) { assert InMemory(s, x); }
  }

  /** What is in memory after a failed execution. */
  lemma FailExecutionMemory(cfg: Config, s: State, deterministic: bool, b: SlotBundle)
    requires s.flight.Some? && InMemory(ApplyFailExecution(cfg, s, deterministic), b)
    ensures var bs := FlightBundles(s);
      var rows := FailRows(s.rows, Ids(bs), cfg.maxRetryAttempts, deterministic, true);
      || b in Flatten(s.slots) || b in s.entering
      || b in WithRetryCount(Filter(bs, Retryable(s.rows, cfg.maxRetryAttempts, deterministic)), rows)
  {
  }

  lemma FailExecutionAgrees(cfg: Config, s: State, deterministic: bool, b: SlotBundle)
    requires Placed(s) && Matched(cfg, s) && s.flight.Some? && InMemory(ApplyFailExecution(cfg, s, deterministic), b)
    ensures (InMemory(s, b) && b.bundleId !in Ids(FlightBundles(s)))
         || Agrees(cfg, ApplyFailExecution(cfg, s, deterministic).rows, b)
  {
    FailExecutionMemory(cfg, s, deterministic, b);
    if b in Flatten(s.slots) || b in s.entering {
      NotAlsoInFlight(s, b);
    } else {
      FlightAgrees(cfg, s);
      RetriedAgrees(cfg, s.rows, FlightBundles(s), deterministic, b);
    }
  }

  lemma FailExecutionSourced(cfg: Config, s: State, deterministic: bool, b: SlotBundle)
    requires Placed(s) && Matched(cfg, s)
    ensures Sourced(cfg, s, FailExecution(deterministic), b)
  {
    if s.flight.Some? && InMemory(ApplyFailExecution(cfg, s, deterministic), b) {
      FailExecutionAgrees(cfg, s, deterministic, b);
    }
  }

  lemma RehydratedAgrees(cfg: Config, rows: Rows, ids: seq<BundleId>, priorities: map<BundleId, real>, b: SlotBundle)
    requires (forall id :: id in ids ==> id in rows) && b in Rehydrate(ids, rows, cfg, priorities)
    ensures Agrees(cfg, rows, b)
  {
    var i :| 0 <= i < |ids| && Rehydrate(ids, rows, cfg, priorities)[i] == b;
    assert ids[i] in ids;
  }

  lemma VerifyFailureSourced(cfg: Config, s: State, a: Action, b: SlotBundle)
    requires Placed(s) && a.VerifyFailure?
    ensures Sourced(cfg, s, a, b)
  {
    if a.tx < |s.txs| && s.txs[a.tx].status.Unverified? && InMemory(Apply(cfg, s, a), b) {
      if InMemory(s, b) {
        LinkedNotInMemory(s, a.tx, b);
      } else {
        var ids := s.txs[a.tx].bundleIds;
        RehydratedAgrees(cfg, FailRows(s.rows, ids, cfg.maxRetryAttempts, a.terminal, false),
                         Filter(ids, RetryableId(s.rows, cfg.maxRetryAttempts, a.terminal)), a.priorities, b);
      }
    }
  }

  lemma RestartSourced(cfg: Config, s: State, a: Action, b: SlotBundle)
    requires a.Restart?
    ensures Sourced(cfg, s, a, b)
  {
    if Restarts(s, a) && InMemory(Apply(cfg, s, a), b) {
      var rows := StartupRows(s.rows, a.cutoff);
      assert b in Reloaded(cfg, rows, s.txs, a.found, a.priorities);
      RehydratedAgrees(cfg, rows, Filter(a.found, ResubmittableId(rows, s.txs)), a.priorities, b);
    }
  }

  lemma StepSourced(cfg: Config, s: State, a: Action, b: SlotBundle)
    requires Placed(s) && Matched(cfg, s) && SlotsOk(s.slots)
    ensures Sourced(cfg, s, a, b)
  {
    match a
    case Admit(_, _, _, _, _, _, _) => AdmitSourced(cfg, s, a, b);
    case AddToMempool(k) => AddSourced(cfg, s, k, b);
    case MarkProcessing(_) => MarkSourced(cfg, s, a, b);
    case FailMark(_) => MarkSourced(cfg, s, a, b);
    case Sweep => SweepSourced(cfg, s, b);
    case Pull => PullSourced(cfg, s, b);
    case FailExecution(deterministic) => FailExecutionSourced(cfg, s, deterministic, b);
    case VerifyFailure(_, _, _) => VerifyFailureSourced(cfg, s, a, b);
    case Restart(_, _, _) => RestartSourced(cfg, s, a, b);
    case _ => OtherSourced(cfg, s, a, b);
  }

  lemma StepKeepsMatched(cfg: Config, s: State, a: Action)
    requires Placed(s) && Matched(cfg, s) && SlotsOk(s.slots)
    ensures Matched(cfg, Apply(cfg, s, a))
  {
    forall b | InMemory(Apply(cfg, s, a), b) ensures Agrees(cfg, Apply(cfg, s, a).rows, b) {
      StepSourced(cfg, s, a, b);
      if InMemory(s, b) && !FailsBundle(s, a, b.bundleId) {
        MemoryIsActive(s, b);
        StepRowEffect(cfg, s, a, b.bundleId);
      }
    }
  }

  // ---------- Slots stay well formed ----------

  lemma PullTidy(s: State)
    requires Tidy(s)
    ensures Tidy(ApplyPull(s))
  {
    if s.flight.None? && s.slots != [] {
      var first := s.slots[0];
      FilterKeepsSorted(first.bundles, Kept(ExpiredAt(s.now)));
      assert first in s.slots && forall t :: t in s.slots[1..] ==> t in s.slots;
      assert SlotOk(FilterSlot(first, Kept(ExpiredAt(s.now))));
    }
  }

  lemma SlotStepTidy(cfg: Config, s: State, a: Action)
    requires Tidy(s) && (a.AddToMempool? || a.MarkProcessing? || a.FailMark? || a.Sweep?)
    ensures Tidy(Apply(cfg, s, a))
  {
    match a
    case AddToMempool(k) => if k < |s.entering| { CascadeConserves(cfg.capacity, s.slots, s.entering[k]); }
    case MarkProcessing(id) => FilterSlotsOk(s.slots, Kept(WithId({id})));
    case FailMark(id) => FilterSlotsOk(s.slots, Kept(WithId({id})));
    case Sweep => FilterSlotsOk(s.slots, Kept(ExpiredAt(s.now)));
  }

  lemma StepKeepsTidy(cfg: Config, s: State, a: Action)
    requires Tidy(s)
    ensures Tidy(Apply(cfg, s, a))
  {
    if a.AddToMempool? || a.MarkProcessing? || a.FailMark? || a.Sweep? {
      SlotStepTidy(cfg, s, a);
    } else if a.Pull? {
      PullTidy(s);
    }
  }

  // ---------- Every step ----------

  lemma InitialInv(cfg: Config)
    ensures Inv(cfg, INITIAL)
  {
    forall id ensures Missing(INITIAL, id) >= 0 {
    }
  }

  /** Every step of every component keeps the invariant, whatever is admitted. */
  lemma StepKeepsInv(cfg: Config, s: State, a: Action)
    requires Inv(cfg, s)
    ensures Inv(cfg, Apply(cfg, s, a))
  {
    StepKeepsPlaced(cfg, s, a);
    StepKeepsSettled(cfg, s, a);
    StepKeepsMatched(cfg, s, a);
    StepKeepsTidy(cfg, s, a);
    StepKeepsSound(cfg, s, a);
  }
}
