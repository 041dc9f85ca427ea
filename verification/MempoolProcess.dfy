/**
 The mempool's own objects: slots that change in place, and the queue of slots. Every method is tied to
 the value-level operation it performs.
 */
module MempoolProcess {
  import opened Sequences
  import opened Bundles
  import opened SlotModel
  import opened Cascade
  import opened Pipeline
  import opened Repository

  class Slot {
    var bundles: seq<SlotBundle>
    var currentWeight: int
    const capacity: int
    const channel: ChannelId

    function State(): SlotState
      reads this
    {
      SlotState(channel, bundles, currentWeight)
    }

    constructor (capacity: int, channel: ChannelId)
      ensures State() == EmptySlot(channel) && this.capacity == capacity
    {
      this.capacity := capacity;
      this.channel := channel;
      bundles := [];
      currentWeight := 0;
    }

    method Add(bundle: SlotBundle) returns (removed: Option<SlotBundle>)
      modifies this
      ensures (State(), removed) == SlotModel.Add(capacity, old(State()), bundle)
    {
      if currentWeight + bundle.weight <= capacity {
        bundles := StableSort(bundles + [bundle]);
        currentWeight := currentWeight + bundle.weight;
        return None;
      }
      if bundles != [] {
        var lowest := LowestPriorityIndex(bundles);
        if bundle.priority > bundles[lowest].priority {
          removed := Some(bundles[lowest]);
          currentWeight := currentWeight - bundles[lowest].weight;
          bundles := Without(bundles, lowest);
          bundles := StableSort(bundles + [bundle]);
          currentWeight := currentWeight + bundle.weight;
          return;
        }
      }
      return Some(bundle);
    }

    method RemoveFirst() returns (removed: Option<SlotBundle>)
      modifies this
      ensures (State(), removed) == SlotModel.RemoveFirst(old(State()))
    {
      if bundles == [] {
        return None;
      }
      removed := Some(bundles[0]);
      currentWeight := currentWeight - bundles[0].weight;
      bundles := Without(bundles, 0);
    }

    method RemoveBundle(id: BundleId) returns (found: bool)
      modifies this
      ensures (State(), found) == SlotModel.RemoveBundle(old(State()), id)
    {
      var index := FindIndex(bundles, id);
      found := index < |bundles|;
      if found {
        currentWeight := currentWeight - bundles[index].weight;
        bundles := Without(bundles, index);
      }
    }
  }

  /** The values of a list of slots. */
  function States(slots: seq<Slot>): (r: seq<SlotState>)
    reads slots
    ensures |r| == |slots|
    ensures forall i :: 0 <= i < |slots| ==> r[i] == slots[i].State()
  {
    if slots == [] then [] else [slots[0].State()] + States(slots[1..])
  }

  // ---------- Removing bundles while walking a snapshot ----------

  /** The slot after removing, one after the other, the first bundle with each of the ids. */
  function RemoveEach(s: SlotState, ids: seq<BundleId>): SlotState {
    if ids == [] then s else SlotModel.RemoveBundle(RemoveEach(s, ids[..|ids| - 1]), ids[|ids| - 1]).0
  }

  /** What the walk over one slot leaves of it. */
  function Evicted(s: SlotState, c: Criterion): SlotState { RemoveEach(s, Ids(Filter(s.bundles, Selected(c)))) }

  /** What the walk over all slots leaves: slots it empties are dropped. */
  function EvictSlots(slots: seq<SlotState>, c: Criterion): seq<SlotState> {
    if slots == [] then []
    else
      var s := Evicted(slots[0], c);
      var rest := EvictSlots(slots[1..], c);
      if s.bundles == [] then rest else [s] + rest
  }

  /** Walks a snapshot of the slot and removes, by id, every selected bundle; the report lists those bundles. */
  method EvictMatching(slot: Slot, c: Criterion) returns (removed: seq<SlotBundle>)
    modifies slot
    ensures slot.State() == Evicted(old(slot.State()), c)
    ensures removed == Filter(old(slot.bundles), Selected(c))
  {
    removed := [];
    var snapshot := slot.bundles;
    ghost var before := slot.State();
    for i := 0 to |snapshot|
      invariant removed == Filter(snapshot[..i], Selected(c))
      invariant slot.State() == RemoveEach(before, Ids(removed))
    {
      FilterNext(snapshot, i, Selected(c));
      if Selects(c, snapshot[i]) {
        var _ := slot.RemoveBundle(snapshot[i].bundleId);
        RemoveEachNext(before, removed, snapshot[i]);
        removed := removed + [snapshot[i]];
      }
    }
    assert snapshot[..|snapshot|] == snapshot;
  }

  lemma RemoveEachNext(s: SlotState, removed: seq<SlotBundle>, b: SlotBundle)
    ensures RemoveEach(s, Ids(removed + [b])) == SlotModel.RemoveBundle(RemoveEach(s, Ids(removed)), b.bundleId).0
  {
    assert Ids(removed + [b])[..|removed|] == Ids(removed);
  }

  // ---------- When removal by id hits the right bundle ----------

  /** No bundle to remove shares its id with an earlier bundle to keep. */
  ghost predicate Separable(bs: seq<SlotBundle>, c: Criterion) {
    forall i, j :: 0 <= i < j < |bs| && !Selects(c, bs[i]) && Selects(c, bs[j]) ==> bs[i].bundleId != bs[j].bundleId
  }

  ghost predicate AllSeparable(slots: seq<SlotState>, c: Criterion) {
    forall s :: s in slots ==> Separable(s.bundles, c)
  }

  /** The bundles after the first `i` have been looked at: those kept, then those still to look at. */
  function Looked(bs: seq<SlotBundle>, c: Criterion, i: nat): seq<SlotBundle>
    requires i <= |bs|
  {
    Filter(bs[..i], Kept(c)) + bs[i..]
  }

  lemma LookedHead(bs: seq<SlotBundle>, c: Criterion, i: nat)
    requires i < |bs|
    ensures Looked(bs, c, i) == Filter(bs[..i], Kept(c)) + [bs[i]] + bs[i + 1..]
  {
    assert bs[i..] == [bs[i]] + bs[i + 1..];
  }

  lemma LookedNext(bs: seq<SlotBundle>, c: Criterion, i: nat)
    requires i < |bs|
    ensures Selects(c, bs[i]) ==> Looked(bs, c, i + 1) == Filter(bs[..i], Kept(c)) + bs[i + 1..]
    ensures !Selects(c, bs[i]) ==> Looked(bs, c, i + 1) == Filter(bs[..i], Kept(c)) + [bs[i]] + bs[i + 1..]
  {
    FilterNext(bs, i, Kept(c));
  }

  /** A slot left with the bundles `bs`, its running weight changed by the difference. */
  function LeftWith(s: SlotState, bs: seq<SlotBundle>): SlotState {
    s.(bundles := bs, currentWeight := s.currentWeight - SlotWeight(s.bundles) + SlotWeight(bs))
  }

  lemma KeptIdsDiffer(bs: seq<SlotBundle>, i: nat, c: Criterion)
    requires i < |bs| && Separable(bs, c) && Selects(c, bs[i])
    ensures forall b :: b in Filter(bs[..i], Kept(c)) ==> b.bundleId != bs[i].bundleId
  {
    forall b | b in Filter(bs[..i], Kept(c)) ensures b.bundleId != bs[i].bundleId {
      var j :| 0 <= j < i && bs[j] == b;
    }
  }

  lemma FindAfter(kept: seq<SlotBundle>, b: SlotBundle, rest: seq<SlotBundle>)
    requires forall x :: x in kept ==> x.bundleId != b.bundleId
    ensures FindIndex(kept + [b] + rest, b.bundleId) == |kept|
    ensures Without(kept + [b] + rest, |kept|) == kept + rest
  {
    var bs := kept + [b] + rest;
    assert bs[|kept|] == b;
    assert forall j :: 0 <= j < |kept| ==> bs[j] == kept[j] && kept[j] in kept;
  }

  /** Removing by id the bundle right after `kept` removes that bundle. */
  lemma RemoveAfter(s: SlotState, kept: seq<SlotBundle>, b: SlotBundle, rest: seq<SlotBundle>)
    requires forall x :: x in kept ==> x.bundleId != b.bundleId
    ensures SlotModel.RemoveBundle(LeftWith(s, kept + [b] + rest), b.bundleId).0 == LeftWith(s, kept + rest)
  {
    FindAfter(kept, b, rest);
    WithoutWeight(kept + [b] + rest, |kept|);
  }

  /** One look: the bundle goes if it is selected. */
  function Look(s: SlotState, c: Criterion, b: SlotBundle): SlotState {
    if Selects(c, b) then SlotModel.RemoveBundle(s, b.bundleId).0 else s
  }

  lemma LookNext(s: SlotState, c: Criterion, i: nat)
    requires i < |s.bundles| && Separable(s.bundles, c)
    ensures LeftWith(s, Looked(s.bundles, c, i + 1)) == Look(LeftWith(s, Looked(s.bundles, c, i)), c, s.bundles[i])
  {
    LookedHead(s.bundles, c, i);
    LookedNext(s.bundles, c, i);
    if Selects(c, s.bundles[i]) {
      KeptIdsDiffer(s.bundles, i, c);
      RemoveAfter(s, Filter(s.bundles[..i], Kept(c)), s.bundles[i], s.bundles[i + 1..]);
    }
  }

  /** The slot after the walk has removed what it selects among the first `i` bundles. */
  function Walked(s: SlotState, c: Criterion, i: nat): SlotState
    requires i <= |s.bundles|
  {
    RemoveEach(s, Ids(Filter(s.bundles[..i], Selected(c))))
  }

  lemma WalkNext(s: SlotState, c: Criterion, i: nat)
    requires i < |s.bundles|
    ensures Walked(s, c, i + 1) == Look(Walked(s, c, i), c, s.bundles[i])
  {
    FilterNext(s.bundles, i, Selected(c));
    RemoveEachNext(s, Filter(s.bundles[..i], Selected(c)), s.bundles[i]);
  }

  lemma WalkStart(s: SlotState, c: Criterion)
    ensures Walked(s, c, 0) == LeftWith(s, Looked(s.bundles, c, 0))
  {
    assert Looked(s.bundles, c, 0) == s.bundles;
  }

  lemma {:induction false} WalkLooks(s: SlotState, c: Criterion, i: nat)
    requires i <= |s.bundles| && Separable(s.bundles, c)
    ensures Walked(s, c, i) == LeftWith(s, Looked(s.bundles, c, i))
  {
    if i == 0 {
      WalkStart(s, c);
    } else {
      WalkLooks(s, c, i - 1);
      LookNext(s, c, i - 1);
      WalkNext(s, c, i - 1);
    }
  }

  /** Then the walk over a slot is the order-preserving filter. */
  lemma EvictedIsFilter(s: SlotState, c: Criterion)
    requires Separable(s.bundles, c)
    ensures Evicted(s, c) == FilterSlot(s, Kept(c))
  {
    WalkLooks(s, c, |s.bundles|);
    assert s.bundles[..|s.bundles|] == s.bundles;
    assert Looked(s.bundles, c, |s.bundles|) == Filter(s.bundles, Kept(c));
  }

  lemma {:induction false} EvictSlotsIsFilter(slots: seq<SlotState>, c: Criterion)
    requires AllSeparable(slots, c)
    ensures EvictSlots(slots, c) == FilterSlots(slots, Kept(c))
  {
    if slots == [] {
    } else {
      assert slots[0] in slots && forall s :: s in slots[1..] ==> s in slots;
      EvictedIsFilter(slots[0], c);
      EvictSlotsIsFilter(slots[1..], c);
    }
  }

  lemma IdsAlwaysSeparate(slots: seq<SlotState>, ids: set<BundleId>)
    ensures AllSeparable(slots, WithId(ids))
  {
  }

  datatype AddOutcome = EndedExpired | Queued | Purged | SlotFullError | WriteError

  class Mempool {
    var slots: seq<Slot>
    const capacity: int
    const table: BundleTable

    /** The queue holds distinct slots of the configured capacity. */
    ghost predicate Valid()
      reads this, slots
    {
      NoDuplicates(slots) && forall s :: s in slots ==> s.capacity == capacity
    }

    constructor (capacity: int, table: BundleTable)
      ensures Valid() && slots == [] && this.capacity == capacity && this.table == table
    {
      this.capacity := capacity;
      this.table := table;
      slots := [];
    }

    /** `addBundle`: an expired bundle only has its row written; otherwise the cascade runs, and unless the gated
        PROCESSING write changes the row the bundle is purged again. `writeFails` tells whether that write throws. */
    method AddBundle(bundle: SlotBundle, now: int, writeFails: bool) returns (outcome: AddOutcome)
      requires Valid()
      modifies this, slots, table
      ensures Valid() && forall k :: 0 <= k < |slots| ==> slots[k] in old(slots) || fresh(slots[k])
      ensures var e := AddEffect(capacity, old(States(slots)), old(table.rows), bundle, now, writeFails);
        States(slots) == e.0 && table.rows == e.1 && outcome == e.2
    {
      if IsBundleExpired(bundle, now) {
        table.Update(bundle.bundleId, Expired);
        return EndedExpired;
      }
      var added := Place(bundle);
      if !added {
        return SlotFullError;
      }
      outcome := MarkOrPurge(bundle.bundleId, writeFails, States(slots));
    }

    method MarkOrPurge(id: BundleId, writeFails: bool, ghost before: seq<SlotState>) returns (outcome: AddOutcome)
      requires Valid() && before == States(slots)
      modifies this, slots, table
      ensures Valid() && forall k :: 0 <= k < |slots| ==> slots[k] in old(slots)
      ensures var e := MarkEffect(before, old(table.rows), id, writeFails);
        States(slots) == e.0 && table.rows == e.1 && outcome == e.2
    {
      var updated := false;
      if !writeFails {
        updated := MarkRow(id, before);
      }
      if updated {
        return Queued;
      }
      PurgeOne(id, before);
      return if writeFails then WriteError else Purged;
    }

    /** The gated write alone, which leaves the slots as they are. */
    method MarkRow(id: BundleId, ghost before: seq<SlotState>) returns (updated: bool)
      requires Valid() && before == States(slots)
      modifies table
      ensures Valid() && States(slots) == before && updated == ActiveIn(old(table.rows), id)
      ensures table.rows == if updated then SetStatus(old(table.rows), id, Processing) else old(table.rows)
    {
      ActiveIsStatusIn(table.rows, id);
      updated := table.UpdateStatusIfActive(id, Processing, ACTIVE);
    }

    method PurgeOne(id: BundleId, ghost before: seq<SlotState>)
      requires Valid() && before == States(slots)
      modifies this, slots
      ensures Valid() && forall k :: 0 <= k < |slots| ==> slots[k] in old(slots)
      ensures States(slots) == FilterSlots(before, Kept(WithId({id})))
    {
      assert (set x | x in [id]) == {id};
      var _ := PurgeBundles([id]);
    }

    /** The scan of `addBundle` and the new slot it may open. */
    method Place(bundle: SlotBundle) returns (added: bool)
      requires Valid()
      modifies this, slots
      ensures Valid() && forall k :: 0 <= k < |slots| ==> slots[k] in old(slots) || fresh(slots[k])
      ensures States(slots) == Cascade.AddBundle(capacity, old(States(slots)), bundle).0
      ensures added <==> Cascade.AddBundle(capacity, old(States(slots)), bundle).1.Added?
    {
      var bundleToAdd := ScanSlots(bundle);
      if bundleToAdd.None? {
        return true;
      }
      var newSlot, result := OpenSlot(bundleToAdd.value, bundle.channel);
      if result.Some? {
        return false;
      }
      AppendSlot(newSlot);
      return true;
    }

    method AppendSlot(slot: Slot)
      requires Valid() && slot !in slots && slot.capacity == capacity
      modifies this
      ensures Valid() && slots == old(slots) + [slot]
      ensures States(slots) == old(States(slots)) + [slot.State()]
    {
      StatesAppend(slots, slot);
      slots := slots + [slot];
    }

    /** A new slot offered its first bundle. */
    method OpenSlot(bundle: SlotBundle, channel: ChannelId) returns (slot: Slot, result: Option<SlotBundle>)
      ensures fresh(slot) && slot.capacity == capacity
      ensures (slot.State(), result) == SlotModel.Add(capacity, EmptySlot(channel), bundle)
    {
      slot := new Slot(capacity, channel);
      result := slot.Add(bundle);
    }

    /** Offers the bundle, then whatever it displaces, to each slot of its channel in turn. */
    method ScanSlots(bundle: SlotBundle) returns (bundleToAdd: Option<SlotBundle>)
      requires Valid()
      modifies slots
      ensures Valid()
      ensures (States(slots), bundleToAdd) == Scan(capacity, old(States(slots)), bundle, bundle.channel)
    {
      bundleToAdd := Some(bundle);
      ghost var before := States(slots);
      ScanningStart(capacity, before, bundle);
      var i := 0;
      while i < |slots| && bundleToAdd.Some?
        invariant 0 <= i <= |slots| && Valid()
        invariant Scanning(capacity, States(slots), before, i, bundleToAdd, bundle)
      {
        ScanningStep(capacity, States(slots), before, i, bundleToAdd.value, bundle);
        bundleToAdd := OfferTo(i, bundleToAdd.value, bundle.channel);
        i := i + 1;
      }
      ScanningEnd(capacity, States(slots), before, i, bundleToAdd, bundle);
    }

    /** One stop of the scan: a slot of another channel is skipped. */
    method OfferTo(i: nat, carried: SlotBundle, channel: ChannelId) returns (back: Option<SlotBundle>)
      requires Valid() && i < |slots|
      modifies slots[i]
      ensures Valid()
      ensures var stop := Stop(capacity, old(States(slots))[i], carried, channel);
        States(slots) == old(States(slots))[i := stop.0] && back == stop.1
    {
      ghost var before := States(slots);
      if slots[i].channel != channel {
        assert before[i := before[i]] == before;
        return Some(carried);
      }
      back := slots[i].Add(carried);
      assert States(slots) == before[i := slots[i].State()];
    }

    /** Removes and returns the first slot. */
    method RemoveFirstSlot() returns (slot: Option<Slot>)
      requires Valid()
      modifies this`slots
      ensures Valid()
      ensures old(slots) == [] ==> slot == None && slots == []
      ensures old(slots) != [] ==>
        slot == Some(old(slots)[0]) && slots == old(slots)[1..] && slot.value !in slots
    {
      if slots == [] {
        return None;
      }
      slot := Some(slots[0]);
      slots := slots[1..];
    }

    /** Evicts every bundle with one of the given ids from the slots; the table is not touched. */
    method PurgeBundles(bundleIds: seq<BundleId>) returns (removed: nat)
      requires Valid()
      modifies this, slots
      ensures Valid() && forall k :: 0 <= k < |slots| ==> slots[k] in old(slots)
      ensures var c := WithId(set id | id in bundleIds);
        bundleIds != [] ==>
          && States(slots) == FilterSlots(old(States(slots)), Kept(c))
          && removed == |Removed(old(States(slots)), Selected(c))|
      ensures bundleIds == [] ==> removed == 0 && States(slots) == old(States(slots))
    {
      if bundleIds == [] {
        return 0;
      }
      ghost var before := States(slots);
      IdsAlwaysSeparate(before, set id | id in bundleIds);
      EvictSlotsIsFilter(before, WithId(set id | id in bundleIds));
      var dropped := RemoveMatching(WithId(set id | id in bundleIds), before);
      removed := |dropped|;
    }

    /** Walks the slots from the last to the first, removes the selected bundles and splices out emptied slots. */
    method RemoveMatching(c: Criterion, ghost before: seq<SlotState>) returns (removed: seq<SlotBundle>)
      requires Valid() && before == States(slots)
      modifies this, slots
      ensures Valid() && forall k :: 0 <= k < |slots| ==> slots[k] in old(slots)
      ensures States(slots) == EvictSlots(before, c) && removed == Removed(before, Selected(c))
    {
      removed := [];
      var i: nat := |slots|;
      assert before[i..] == [] && States(slots)[i..] == [];
      while i > 0
        invariant Valid() && forall k :: 0 <= k < |slots| ==> slots[k] in old(slots)
        invariant Walking(States(slots), before, i, removed, c)
      {
        i := i - 1;
        WalkingStep(States(slots), before, i, removed, c);
        var fromSlot := RemoveFromSlot(i, c);
        removed := removed + fromSlot;
      }
      assert States(slots)[0..] == States(slots) && before[0..] == before;
    }

    /** One stop of that walk. */
    method RemoveFromSlot(i: nat, c: Criterion) returns (removed: seq<SlotBundle>)
      requires Valid() && i < |slots|
      modifies this`slots, slots[i]
      ensures Valid() && forall k :: 0 <= k < |slots| ==> slots[k] in old(slots)
      ensures removed == Filter(old(States(slots))[i].bundles, Selected(c))
      ensures States(slots) == Replaced(old(States(slots)), i, Evicted(old(States(slots))[i], c))
    {
      removed := EvictAt(i, c);
      DropIfEmpty(i);
    }

    method EvictAt(i: nat, c: Criterion) returns (removed: seq<SlotBundle>)
      requires Valid() && i < |slots|
      modifies slots[i]
      ensures Valid() && removed == Filter(old(States(slots))[i].bundles, Selected(c))
      ensures States(slots) == old(States(slots))[i := Evicted(old(States(slots))[i], c)]
    {
      removed := EvictMatching(slots[i], c);
    }

    method DropIfEmpty(i: nat)
      requires Valid() && i < |slots|
      modifies this`slots
      ensures Valid() && forall k :: 0 <= k < |slots| ==> slots[k] in old(slots)
      ensures States(slots) == Replaced(States(old(slots)), i, States(old(slots))[i])
    {
      if slots[i].bundles == [] {
        StatesWithout(slots, i);
        WithoutKeepsValid(slots, i);
        slots := Without(slots, i);
      } else {
        assert States(slots)[i := States(slots)[i]] == States(slots);
      }
    }
  }

  /** The slots with the i-th replaced by `s`, or dropped when `s` is empty. */
  function Replaced(slots: seq<SlotState>, i: nat, s: SlotState): seq<SlotState>
    requires i < |slots|
  {
    if s.bundles == [] then Without(slots, i) else slots[i := s]
  }

  lemma StatesWithout(slots: seq<Slot>, i: nat)
    requires i < |slots|
    ensures States(Without(slots, i)) == Without(States(slots), i)
  {
    var rest := Without(slots, i);
    forall k | 0 <= k < |rest| ensures States(rest)[k] == Without(States(slots), i)[k] {
      assert rest[k] == slots[if k < i then k else k + 1];
    }
  }

  /** Dropping a slot leaves distinct slots from among the others. */
  lemma WithoutKeepsValid(slots: seq<Slot>, i: nat)
    requires i < |slots| && NoDuplicates(slots)
    ensures NoDuplicates(Without(slots, i))
    ensures forall k :: 0 <= k < |slots| - 1 ==> Without(slots, i)[k] in slots
  {
    var rest := Without(slots, i);
    forall j, k | 0 <= j < k < |rest| ensures rest[j] != rest[k] {
      assert rest[j] == slots[if j < i then j else j + 1] && rest[k] == slots[if k < i then k else k + 1];
    }
    forall k | 0 <= k < |rest| ensures rest[k] in slots {
      assert rest[k] == slots[if k < i then k else k + 1];
    }
  }

  // ---------- What the two walks over the slots keep ----------

  /** The first `i` slots have been offered; the rest are as before and still to be offered what is carried. */
  ghost predicate Scanning(capacity: int, now: seq<SlotState>, before: seq<SlotState>, i: nat,
                           carried: Option<SlotBundle>, b: SlotBundle) {
    && i <= |now| == |before| && now[i..] == before[i..]
    && Scan(capacity, before, b, b.channel) == Resume(capacity, now[..i], before[i..], carried, b.channel)
  }

  lemma ScanningStart(capacity: int, before: seq<SlotState>, b: SlotBundle)
    ensures Scanning(capacity, before, before, 0, Some(b), b)
  {
    ResumeStart(capacity, before, b, b.channel);
    assert before[0..] == before;
  }

  lemma ScanningStep(capacity: int, now: seq<SlotState>, before: seq<SlotState>, i: nat, carried: SlotBundle,
                     b: SlotBundle)
    requires i < |now| && Scanning(capacity, now, before, i, Some(carried), b)
    ensures var stop := Stop(capacity, now[i], carried, b.channel);
      Scanning(capacity, now[i := stop.0], before, i + 1, stop.1, b)
  {
    var t := Stop(capacity, now[i], carried, b.channel).0;
    assert now[i] == now[i..][0] == before[i..][0];
    ResumeStep(capacity, now[..i], before[i..], carried, b.channel);
    assert before[i..][1..] == before[i + 1..];
    assert now[i := t][..i + 1] == now[..i] + [t];
    assert now[i := t][i + 1..] == now[i..][1..];
  }

  lemma ScanningEnd(capacity: int, now: seq<SlotState>, before: seq<SlotState>, i: nat, carried: Option<SlotBundle>,
                    b: SlotBundle)
    requires Scanning(capacity, now, before, i, carried, b) && (i == |now| || carried.None?)
    ensures (now, carried) == Scan(capacity, before, b, b.channel)
  {
    assert now == now[..i] + before[i..];
    assert now[..i] + [] == now[..i];
  }

  /** The slots from `i` on have been walked and what they lost has been reported. */
  ghost predicate Walking(now: seq<SlotState>, before: seq<SlotState>, i: nat, removed: seq<SlotBundle>, c: Criterion) {
    && i <= |now| && i <= |before| && now[..i] == before[..i]
    && now[i..] == EvictSlots(before[i..], c)
    && removed == Removed(before[i..], Selected(c))
  }

  lemma ReplacedTail(now: seq<SlotState>, i: nat, s: SlotState)
    requires i < |now|
    ensures Replaced(now, i, s)[..i] == now[..i]
    ensures Replaced(now, i, s)[i..] == if s.bundles == [] then now[i + 1..] else [s] + now[i + 1..]
  {
  }

  lemma WalkingStep(now: seq<SlotState>, before: seq<SlotState>, i: nat, removed: seq<SlotBundle>, c: Criterion)
    requires Walking(now, before, i + 1, removed, c)
    ensures Walking(Replaced(now, i, Evicted(now[i], c)), before, i, removed + Filter(now[i].bundles, Selected(c)), c)
  {
    assert now[i] == now[..i + 1][i] == before[..i + 1][i] == before[i];
    assert now[..i] == now[..i + 1][..i] && before[..i] == before[..i + 1][..i];
    assert before[i..][1..] == before[i + 1..];
    ReplacedTail(now, i, Evicted(now[i], c));
  }

  /** The effect of the PROCESSING write, and of the purge that follows when it does not change the row. */
  function MarkEffect(slots: seq<SlotState>, rows: Rows, id: BundleId, writeFails: bool): (seq<SlotState>, Rows,
                      AddOutcome)
  {
    if writeFails then (FilterSlots(slots, Kept(WithId({id}))), rows, WriteError)
    else if ActiveIn(rows, id) then (slots, SetStatus(rows, id, Processing), Queued)
    else (FilterSlots(slots, Kept(WithId({id}))), rows, Purged)
  }

  /** The effect of `addBundle` on the slots and the bundle table. */
  function AddEffect(capacity: int, slots: seq<SlotState>, rows: Rows, b: SlotBundle, now: int, writeFails: bool)
    : (seq<SlotState>, Rows, AddOutcome)
  {
    if IsBundleExpired(b, now) then (slots, SetStatus(rows, b.bundleId, Expired), EndedExpired)
    else
      var (after, r) := Cascade.AddBundle(capacity, slots, b);
      if r.SlotFull? then (after, rows, SlotFullError) else MarkEffect(after, rows, b.bundleId, writeFails)
  }

  lemma StatesAppend(slots: seq<Slot>, last: Slot)
    ensures States(slots + [last]) == States(slots) + [last.State()]
  {
  }
}
