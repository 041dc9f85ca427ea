/**
 The displacement cascade of `Mempool.addBundle` on values: a bundle is offered to every slot of its
 channel in turn, a displaced occupant is carried on to the next slot, and whatever is left over opens
 a new slot.
 */
module Cascade {
  import opened Sequences
  import opened Bundles
  import opened SlotModel

  /** The scan: the slots afterwards, and the bundle still carried at the end. */
  function Scan(capacity: int, slots: seq<SlotState>, carried: SlotBundle, channel: ChannelId)
    : (r: (seq<SlotState>, Option<SlotBundle>))
    ensures |r.0| == |slots|
  {
    if slots == [] then ([], Some(carried))
    else if slots[0].channel != channel then
      var (rest, left) := Scan(capacity, slots[1..], carried, channel);
      ([slots[0]] + rest, left)
    else
      var (slot, back) := Add(capacity, slots[0], carried);
      if back.None? then ([slot] + slots[1..], None)
      else
        var (rest, left) := Scan(capacity, slots[1..], back.value, channel);
        ([slot] + rest, left)
  }

  /** A scan interrupted after `done`: the rest is still to be offered what is carried, if anything. */
  function Resume(capacity: int, done: seq<SlotState>, rest: seq<SlotState>, carried: Option<SlotBundle>,
                  channel: ChannelId)
    : (seq<SlotState>, Option<SlotBundle>)
  {
    if carried.None? then (done + rest, None)
    else
      var (after, left) := Scan(capacity, rest, carried.value, channel);
      (done + after, left)
  }

  lemma ResumeStart(capacity: int, slots: seq<SlotState>, b: SlotBundle, channel: ChannelId)
    ensures Resume(capacity, [], slots, Some(b), channel) == Scan(capacity, slots, b, channel)
  {
    var after := Scan(capacity, slots, b, channel).0;
    assert [] + after == after;
  }

  /** One stop of the scan: the slot afterwards, and what is carried on. A slot of another channel is skipped. */
  function Stop(capacity: int, s: SlotState, carried: SlotBundle, channel: ChannelId): (SlotState, Option<SlotBundle>) {
    if s.channel != channel then (s, Some(carried)) else Add(capacity, s, carried)
  }

  lemma ResumeStep(capacity: int, done: seq<SlotState>, rest: seq<SlotState>, carried: SlotBundle, channel: ChannelId)
    requires rest != []
    ensures var stop := Stop(capacity, rest[0], carried, channel);
      Resume(capacity, done, rest, Some(carried), channel)
        == Resume(capacity, done + [stop.0], rest[1..], stop.1, channel)
  {
    var stop := Stop(capacity, rest[0], carried, channel);
    Regroup(done, stop.0, if stop.1.None? then rest[1..] else Scan(capacity, rest[1..], stop.1.value, channel).0);
  }

  lemma Regroup(done: seq<SlotState>, slot: SlotState, after: seq<SlotState>)
    ensures done + ([slot] + after) == (done + [slot]) + after
  {
  }

  datatype AddResult = Added | SlotFull(dropped: SlotBundle)

  /** `addBundle` for an unexpired bundle, up to the status write. */
  function AddBundle(capacity: int, slots: seq<SlotState>, b: SlotBundle): (seq<SlotState>, AddResult) {
    var (scanned, left) := Scan(capacity, slots, b, b.channel);
    if left.None? then (scanned, Added)
    else
      var (slot, back) := Add(capacity, EmptySlot(b.channel), left.value);
      if back.None? then (scanned + [slot], Added) else (scanned, SlotFull(left.value))
  }

  /** Every bundle in the mempool, slot by slot. */
  function Flatten(slots: seq<SlotState>): seq<SlotBundle> {
    if slots == [] then [] else slots[0].bundles + Flatten(slots[1..])
  }

  ghost predicate SlotsOk(slots: seq<SlotState>) {
    forall s :: s in slots ==> SlotOk(s) && s.bundles != []
  }

  lemma {:induction false} FlattenAppend(a: seq<SlotState>, b: seq<SlotState>)
    ensures Flatten(a + b) == Flatten(a) + Flatten(b)
  {
    if a == [] {
      assert a + b == b;
    } else {
      assert (a + b)[1..] == a[1..] + b;
      FlattenAppend(a[1..], b);
    }
  }

  lemma FlattenCons(s: SlotState, rest: seq<SlotState>)
    ensures Flatten([s] + rest) == s.bundles + Flatten(rest)
    ensures multiset(Flatten([s] + rest)) == multiset(s.bundles) + multiset(Flatten(rest))
  {
    assert ([s] + rest)[1..] == rest;
  }

  lemma {:induction false} ScanKeepsSlots(capacity: int, slots: seq<SlotState>, carried: SlotBundle, channel: ChannelId)
    requires SlotsOk(slots) && carried.channel == channel
    ensures var (after, left) := Scan(capacity, slots, carried, channel);
      SlotsOk(after) && (left.Some? ==> left.value.channel == channel)
  {
    if slots == [] {
    } else {
      var s, rest := slots[0], slots[1..];
      assert slots == [s] + rest;
      if s.channel != channel {
        ScanKeepsSlots(capacity, rest, carried, channel);
      } else {
        var (t, back) := Add(capacity, s, carried);
        AddKeepsSlot(capacity, s, carried);
        if back.Some? {
          AddHandsBackTheWorst(capacity, s, carried);
          ScanKeepsSlots(capacity, rest, back.value, channel);
        }
      }
    }
  }

  lemma {:induction false} ScanConserves(capacity: int, slots: seq<SlotState>, carried: SlotBundle, channel: ChannelId)
    ensures var (after, left) := Scan(capacity, slots, carried, channel);
      multiset(Flatten(after)) + Returned(left) == multiset(Flatten(slots)) + multiset{carried}
  {
    if slots == [] {
    } else {
      var s, rest := slots[0], slots[1..];
      if s.channel != channel {
        var (after, left) := Scan(capacity, rest, carried, channel);
        ScanConserves(capacity, rest, carried, channel);
        Carry(multiset(s.bundles), multiset(s.bundles), multiset{carried}, multiset{carried},
              multiset(Flatten(rest)), multiset(Flatten(after)), Returned(left));
        FlattenCons(s, after);
      } else {
        var (t, back) := Add(capacity, s, carried);
        AddConserves(capacity, s, carried);
        if back.None? {
          FlattenCons(t, rest);
          Carry(multiset(s.bundles), multiset(t.bundles), multiset{carried}, multiset{},
                multiset(Flatten(rest)), multiset(Flatten(rest)), multiset{});
        } else {
          var (after, left) := Scan(capacity, rest, back.value, channel);
          ScanConserves(capacity, rest, back.value, channel);
          Carry(multiset(s.bundles), multiset(t.bundles), multiset{carried}, multiset{back.value},
                multiset(Flatten(rest)), multiset(Flatten(after)), Returned(left));
          FlattenCons(t, after);
        }
      }
    }
  }

  /** Bookkeeping of one scan step: what goes in with `before` comes out with `after`. */
  lemma Carry(before: multiset<SlotBundle>, after: multiset<SlotBundle>, given: multiset<SlotBundle>,
              passed: multiset<SlotBundle>, rest: multiset<SlotBundle>, rest': multiset<SlotBundle>,
              left: multiset<SlotBundle>)
    requires after + passed == before + given
    requires rest' + left == rest + passed
    ensures after + rest' + left == before + rest + given
  {
    forall x ensures (after + rest' + left)[x] == (before + rest + given)[x] {
      assert (after + passed)[x] == (before + given)[x];
      assert (rest' + left)[x] == (rest + passed)[x];
    }
  }

  /** Cascade conservation: a successful add turns the mempool's contents M into M + {new}; a SLOT_FULL
      add leaves M + {new} without exactly one bundle, the one that was carried last, and is raised
      exactly when that bundle outweighs an empty slot. No slot is ever left empty. */
  lemma CascadeConserves(capacity: int, slots: seq<SlotState>, b: SlotBundle)
    requires SlotsOk(slots)
    ensures var (after, r) := AddBundle(capacity, slots, b);
      && SlotsOk(after)
      && (r.Added? ==> multiset(Flatten(after)) == multiset(Flatten(slots)) + multiset{b})
      && (r.SlotFull? ==> multiset(Flatten(after)) + multiset{r.dropped} == multiset(Flatten(slots)) + multiset{b})
    ensures var left := Scan(capacity, slots, b, b.channel).1;
      AddBundle(capacity, slots, b).1.SlotFull? <==> left.Some? && left.value.weight > capacity
  {
    ScanConserves(capacity, slots, b, b.channel);
    ScanKeepsSlots(capacity, slots, b, b.channel);
    var (scanned, left) := Scan(capacity, slots, b, b.channel);
    if left.Some? {
      AddKeepsSlot(capacity, EmptySlot(b.channel), left.value);
      var (slot, back) := Add(capacity, EmptySlot(b.channel), left.value);
      if back.None? {
        FlattenAppend(scanned, [slot]);
        FlattenCons(slot, []);
        assert [slot] + [] == [slot];
        assert SlotsOk(scanned + [slot]);
      }
    }
  }

  /** With every bundle light enough for an empty slot, the add always succeeds. */
  lemma CascadeSucceeds(capacity: int, slots: seq<SlotState>, b: SlotBundle)
    requires SlotsOk(slots)
    requires b.weight <= capacity && forall x :: x in Flatten(slots) ==> x.weight <= capacity
    ensures AddBundle(capacity, slots, b).1.Added?
  {
    ScanConserves(capacity, slots, b, b.channel);
    CascadeConserves(capacity, slots, b);
    var left := Scan(capacity, slots, b, b.channel).1;
    if left.Some? {
      assert left.value in Returned(left);
      assert left.value in multiset(Flatten(slots)) + multiset{b};
      assert left.value == b || left.value in Flatten(slots);
    }
  }

  /** Spill dominance: what is still carried at the end of the scan is no better than the new bundle
      nor than any bundle of any slot of its channel, and it is the new bundle or strictly worse. */
  lemma {:induction false} SpillDominance(capacity: int, slots: seq<SlotState>, carried: SlotBundle, channel: ChannelId)
    requires SlotsOk(slots) && carried.channel == channel
    ensures var (after, left) := Scan(capacity, slots, carried, channel);
      left.Some? ==>
        && (left.value == carried || left.value.priority < carried.priority)
        && forall s, x :: s in after && s.channel == channel && x in s.bundles ==> left.value.priority <= x.priority
  {
    if slots == [] {
    } else {
      var s, rest := slots[0], slots[1..];
      assert slots == [s] + rest;
      FlattenCons(s, rest);
      if s.channel != channel {
        SpillDominance(capacity, rest, carried, channel);
      } else {
        var (t, back) := Add(capacity, s, carried);
        AddKeepsSlot(capacity, s, carried);
        if back.Some? {
          AddHandsBackTheWorst(capacity, s, carried);
          SpillDominance(capacity, rest, back.value, channel);
        }
      }
    }
  }

  /** Only slots of the bundle's own channel change. */
  lemma {:induction false} OtherChannelsUntouched(capacity: int, slots: seq<SlotState>, carried: SlotBundle,
                                                  channel: ChannelId)
    ensures var after := Scan(capacity, slots, carried, channel).0;
      forall i :: 0 <= i < |slots| ==>
        && after[i].channel == slots[i].channel
        && (slots[i].channel != channel ==> after[i] == slots[i])
  {
    if slots == [] {
    } else {
      if slots[0].channel != channel {
        OtherChannelsUntouched(capacity, slots[1..], carried, channel);
      } else {
        var (t, back) := Add(capacity, slots[0], carried);
        if back.Some? {
          OtherChannelsUntouched(capacity, slots[1..], back.value, channel);
        }
      }
    }
  }

  // ---------- Where the scan puts a bundle ----------

  /** A slot of the bundle's channel that makes room for it, by free weight or by displacing its worst bundle. */
  predicate Takes(capacity: int, s: SlotState, b: SlotBundle) {
    && s.channel == b.channel
    && (s.currentWeight + b.weight <= capacity || exists x :: x in s.bundles && x.priority < b.priority)
  }

  lemma AddTakes(capacity: int, s: SlotState, b: SlotBundle)
    requires s.channel == b.channel
    ensures Takes(capacity, s, b) ==> b in Add(capacity, s, b).0.bundles
    ensures !Takes(capacity, s, b) ==> Add(capacity, s, b) == (s, Some(b))
  {
    PushHolds(s, b);
    if s.bundles != [] {
      var k := LowestPriorityIndex(s.bundles);
      PushHolds(Splice(s, k), b);
      assert s.bundles[k] in s.bundles;
    }
  }

  lemma PushHolds(s: SlotState, b: SlotBundle)
    ensures b in Push(s, b).bundles
  {
    PushConserves(s, b);
    assert b in multiset(Push(s, b).bundles);
  }

  /** A slot that does not take the bundle is passed over. */
  lemma ScanPasses(capacity: int, slots: seq<SlotState>, b: SlotBundle)
    requires slots != [] && !Takes(capacity, slots[0], b)
    ensures var rest := Scan(capacity, slots[1..], b, b.channel);
      Scan(capacity, slots, b, b.channel) == ([slots[0]] + rest.0, rest.1)
  {
    if slots[0].channel == b.channel { AddTakes(capacity, slots[0], b); }
  }

  lemma ScanStopsOrCarries(capacity: int, slots: seq<SlotState>, b: SlotBundle)
    requires slots != [] && Takes(capacity, slots[0], b)
    ensures var scanned := Scan(capacity, slots, b, b.channel);
      && b in scanned.0[0].bundles
      && (slots[0].currentWeight + b.weight <= capacity ==> scanned.0[1..] == slots[1..] && scanned.1.None?)
  {
    AddTakes(capacity, slots[0], b);
  }

  /** The bundle goes into the first slot that takes it, and the slots before that one do not change; when it goes
      into free room nothing behind changes either. */
  lemma {:induction false} FirstTakerTakes(capacity: int, slots: seq<SlotState>, b: SlotBundle, i: nat)
    requires i < |slots| && Takes(capacity, slots[i], b)
    requires forall j :: 0 <= j < i ==> !Takes(capacity, slots[j], b)
    ensures var scanned := Scan(capacity, slots, b, b.channel);
      && scanned.0[..i] == slots[..i] && b in scanned.0[i].bundles
      && (slots[i].currentWeight + b.weight <= capacity ==> scanned.0[i + 1..] == slots[i + 1..] && scanned.1.None?)
  {
    if i == 0 {
      ScanStopsOrCarries(capacity, slots, b);
    } else {
      assert forall j :: 0 <= j < i - 1 ==> slots[1..][j] == slots[j + 1];
      FirstTakerTakes(capacity, slots[1..], b, i - 1);
      ScanPasses(capacity, slots, b);
      var rest := Scan(capacity, slots[1..], b, b.channel).0;
      ShiftedPrefix(slots[0], rest, slots[1..], i - 1);
      assert slots == [slots[0]] + slots[1..];
    }
  }

  lemma ShiftedPrefix(s: SlotState, a: seq<SlotState>, b: seq<SlotState>, i: nat)
    requires i < |a| == |b| && a[..i] == b[..i]
    ensures ([s] + a)[..i + 1] == ([s] + b)[..i + 1] && ([s] + a)[i + 1] == a[i]
    ensures ([s] + a)[i + 2..] == a[i + 1..] && ([s] + b)[i + 2..] == b[i + 1..]
  {
    assert ([s] + a)[..i + 1] == [s] + a[..i] && ([s] + b)[..i + 1] == [s] + b[..i];
  }

  /** When no slot takes it the scan changes nothing. */
  lemma {:induction false} NoTakerLeavesAll(capacity: int, slots: seq<SlotState>, b: SlotBundle)
    requires forall j :: 0 <= j < |slots| ==> !Takes(capacity, slots[j], b)
    ensures Scan(capacity, slots, b, b.channel) == (slots, Some(b))
  {
    if slots == [] {
    } else {
      assert forall j :: 0 <= j < |slots| - 1 ==> slots[1..][j] == slots[j + 1];
      NoTakerLeavesAll(capacity, slots[1..], b);
      ScanPasses(capacity, slots, b);
      assert slots == [slots[0]] + slots[1..];
    }
  }

  /** A new slot is last, of the bundle's channel, and holds one bundle that is no better than any bundle of an
      earlier slot of that channel. */
  ghost predicate SpilledLast(slots: seq<SlotState>, after: seq<SlotState>, channel: ChannelId)
    requires |after| == |slots| + 1
  {
    var last := after[|slots|];
    && last.channel == channel && |last.bundles| == 1
    && forall i, x :: 0 <= i < |slots| && after[i].channel == channel && x in after[i].bundles ==>
         last.bundles[0].priority <= x.priority
  }

  lemma LoneSlot(capacity: int, channel: ChannelId, b: SlotBundle)
    requires b.weight <= capacity
    ensures Add(capacity, EmptySlot(channel), b) == (SlotState(channel, [b], b.weight), None)
  {
    SortAfterPush([], b);
    assert [] + [b] == [b];
  }

  lemma SpillIsLast(capacity: int, slots: seq<SlotState>, b: SlotBundle)
    requires SlotsOk(slots)
    ensures var after, scanned := AddBundle(capacity, slots, b).0, Scan(capacity, slots, b, b.channel);
      after == if scanned.1.Some? && scanned.1.value.weight <= capacity
               then scanned.0 + [SlotState(b.channel, [scanned.1.value], scanned.1.value.weight)] else scanned.0
  {
    var left := Scan(capacity, slots, b, b.channel).1;
    if left.Some? && left.value.weight <= capacity { LoneSlot(capacity, b.channel, left.value); }
  }

  lemma DominatedSpill(slots: seq<SlotState>, scanned: seq<SlotState>, b: SlotBundle, channel: ChannelId)
    requires |scanned| == |slots|
    requires forall s, x :: s in scanned && s.channel == channel && x in s.bundles ==> b.priority <= x.priority
    ensures SpilledLast(slots, scanned + [SlotState(channel, [b], b.weight)], channel)
  {
    assert forall i :: 0 <= i < |scanned| ==> scanned[i] in scanned;
  }

  /** The queue keeps its slots in place with their channels, slots of other channels unchanged, and grows by at most
      one slot, at its end. */
  lemma CascadeShape(capacity: int, slots: seq<SlotState>, b: SlotBundle)
    requires SlotsOk(slots)
    ensures var after := AddBundle(capacity, slots, b).0;
      && |slots| <= |after| <= |slots| + 1
      && (forall i :: 0 <= i < |slots| ==>
            after[i].channel == slots[i].channel && (slots[i].channel != b.channel ==> after[i] == slots[i]))
      && (|after| == |slots| + 1 ==> SpilledLast(slots, after, b.channel))
  {
    var scanned := Scan(capacity, slots, b, b.channel);
    OtherChannelsUntouched(capacity, slots, b, b.channel);
    SpillIsLast(capacity, slots, b);
    if scanned.1.Some? && scanned.1.value.weight <= capacity {
      SpillDominance(capacity, slots, b, b.channel);
      DominatedSpill(slots, scanned.0, scanned.1.value, b.channel);
    }
  }

  // ---------- Sweep and purge ----------

  function FilterSlot(s: SlotState, keep: SlotBundle -> bool): SlotState {
    var kept := Filter(s.bundles, keep);
    s.(bundles := kept, currentWeight := s.currentWeight - SlotWeight(s.bundles) + SlotWeight(kept))
  }

  /** Filters every slot and drops the ones left empty. */
  function FilterSlots(slots: seq<SlotState>, keep: SlotBundle -> bool): seq<SlotState> {
    if slots == [] then []
    else
      var s := FilterSlot(slots[0], keep);
      var rest := FilterSlots(slots[1..], keep);
      if s.bundles == [] then rest else [s] + rest
  }

  /** What the reverse scan reports: last slot first, each slot front to back. */
  function Removed(slots: seq<SlotState>, drop: SlotBundle -> bool): seq<SlotBundle> {
    if slots == [] then [] else Removed(slots[1..], drop) + Filter(slots[0].bundles, drop)
  }

  lemma {:induction false} FilterKeepsSorted(bs: seq<SlotBundle>, keep: SlotBundle -> bool)
    requires SortedByPriority(bs)
    ensures SortedByPriority(Filter(bs, keep))
  {
    if bs == [] {
    } else {
      var n := |bs| - 1;
      FilterKeepsSorted(bs[..n], keep);
      if keep(bs[n]) { AppendKeepsSorted(Filter(bs[..n], keep), bs[n]); }
    }
  }

  lemma {:induction false} FilterSlotsOk(slots: seq<SlotState>, keep: SlotBundle -> bool)
    requires SlotsOk(slots)
    ensures SlotsOk(FilterSlots(slots, keep))
  {
    if slots == [] {
    } else {
      var s, rest := slots[0], slots[1..];
      assert slots == [s] + rest;
      FilterSlotsOk(rest, keep);
      FilterKeepsSorted(s.bundles, keep);
    }
  }

  lemma {:induction false} FilterSlotsFlatten(slots: seq<SlotState>, keep: SlotBundle -> bool)
    ensures Flatten(FilterSlots(slots, keep)) == Filter(Flatten(slots), keep)
  {
    if slots == [] {
    } else {
      var s, rest := slots[0], slots[1..];
      FilterSlotsFlatten(rest, keep);
      FilterAppend(s.bundles, Flatten(rest), keep);
      FlattenCons(FilterSlot(s, keep), FilterSlots(rest, keep));
    }
  }

  /** The report rearranges what a filter over the whole mempool picks. */
  lemma {:induction false} RemovedBag(slots: seq<SlotState>, drop: SlotBundle -> bool)
    ensures multiset(Removed(slots, drop)) == multiset(Filter(Flatten(slots), drop))
  {
    if slots == [] {
    } else {
      var s, rest := slots[0], slots[1..];
      RemovedBag(rest, drop);
      FilterAppend(s.bundles, Flatten(rest), drop);
    }
  }

  /** A sweep or purge keeps exactly the bundles that satisfy `keep`, in order, reports exactly the
      others, keeps every slot's invariant, and leaves no slot empty. */
  lemma FilterSlotsFacts(slots: seq<SlotState>, keep: SlotBundle -> bool, drop: SlotBundle -> bool)
    requires SlotsOk(slots)
    requires forall b :: keep(b) <==> !drop(b)
    ensures SlotsOk(FilterSlots(slots, keep))
    ensures Flatten(FilterSlots(slots, keep)) == Filter(Flatten(slots), keep)
    ensures multiset(Removed(slots, drop)) + multiset(Flatten(FilterSlots(slots, keep))) == multiset(Flatten(slots))
    ensures forall b :: b in Removed(slots, drop) ==> drop(b)
  {
    FilterSlotsOk(slots, keep);
    FilterSlotsFlatten(slots, keep);
    RemovedBag(slots, drop);
    FilterPartition(Flatten(slots), keep, drop);
    SameMembers(Removed(slots, drop), Filter(Flatten(slots), drop));
  }

  /** Filtering out nothing changes nothing. */
  lemma {:induction false} FilterSlotsKeepsAll(slots: seq<SlotState>, keep: SlotBundle -> bool)
    requires SlotsOk(slots)
    requires forall b :: b in Flatten(slots) ==> keep(b)
    ensures FilterSlots(slots, keep) == slots
  {
    if slots == [] {
    } else {
      var s, rest := slots[0], slots[1..];
      assert slots == [s] + rest;
      FlattenCons(s, rest);
      FilterSlotKeepsAll(s, keep);
      FilterSlotsKeepsAll(rest, keep);
    }
  }

  lemma FilterSlotKeepsAll(s: SlotState, keep: SlotBundle -> bool)
    requires SlotOk(s) && forall b :: b in s.bundles ==> keep(b)
    ensures FilterSlot(s, keep) == s
  {
    FilterAll(s.bundles, keep);
  }
}
