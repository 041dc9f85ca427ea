/**
 A slot as a value: bundles for one channel, kept in descending priority, with a running weight.
 `Add` admits a bundle that fits, or swaps it for the lowest-priority occupant.
 */
module SlotModel {
  import opened Sequences
  import opened Bundles

  datatype SlotState = SlotState(channel: ChannelId, bundles: seq<SlotBundle>, currentWeight: int)

  function EmptySlot(channel: ChannelId): SlotState { SlotState(channel, [], 0) }

  // ---------- Weight ----------

  function SlotWeight(bs: seq<SlotBundle>): nat {
    if bs == [] then 0 else SlotWeight(bs[..|bs| - 1]) + bs[|bs| - 1].weight
  }

  lemma {:induction false} SlotWeightAppend(a: seq<SlotBundle>, b: seq<SlotBundle>)
    ensures SlotWeight(a + b) == SlotWeight(a) + SlotWeight(b)
  {
    if b == [] {
      assert a + b == a;
    } else {
      assert (a + b)[..|a + b| - 1] == a + b[..|b| - 1];
      SlotWeightAppend(a, b[..|b| - 1]);
    }
  }

  // ---------- Priority order ----------

  /** The comparator handed to the sort: negative when `a` comes first. */
  function CompareBundlePriority(a: SlotBundle, b: SlotBundle): real { b.priority - a.priority }

  predicate SortedByPriority(bs: seq<SlotBundle>) {
    forall i, j :: 0 <= i < j < |bs| ==> bs[i].priority >= bs[j].priority
  }

  /** Places `b` behind every bundle that does not compare after it. */
  function InsertByPriority(bs: seq<SlotBundle>, b: SlotBundle): (r: seq<SlotBundle>)
    ensures |r| == |bs| + 1
  {
    if bs == [] || CompareBundlePriority(bs[|bs| - 1], b) <= 0.0 then bs + [b]
    else InsertByPriority(bs[..|bs| - 1], b) + [bs[|bs| - 1]]
  }

  /** The stable sort that `Array.prototype.sort` performs with this comparator. */
  function StableSort(bs: seq<SlotBundle>): (r: seq<SlotBundle>)
    ensures |r| == |bs|
  {
    if bs == [] then [] else InsertByPriority(StableSort(bs[..|bs| - 1]), bs[|bs| - 1])
  }

  lemma {:induction false} InsertIsPermutation(bs: seq<SlotBundle>, b: SlotBundle)
    ensures multiset(InsertByPriority(bs, b)) == multiset(bs) + multiset{b}
    ensures SlotWeight(InsertByPriority(bs, b)) == SlotWeight(bs) + b.weight
  {
    if bs == [] || CompareBundlePriority(bs[|bs| - 1], b) <= 0.0 {
    } else {
      var n := |bs| - 1;
      InsertIsPermutation(bs[..n], b);
      assert bs == bs[..n] + [bs[n]];
    }
  }

  lemma AppendKeepsSorted(bs: seq<SlotBundle>, b: SlotBundle)
    requires SortedByPriority(bs) && forall x :: x in bs ==> x.priority >= b.priority
    ensures SortedByPriority(bs + [b])
  {
    assert forall i :: 0 <= i < |bs| ==> bs[i] in bs;
  }

  lemma {:induction false} InsertKeepsSorted(bs: seq<SlotBundle>, b: SlotBundle)
    requires SortedByPriority(bs)
    ensures SortedByPriority(InsertByPriority(bs, b))
    ensures forall x :: x in InsertByPriority(bs, b) <==> x in bs || x == b
  {
    if bs == [] || CompareBundlePriority(bs[|bs| - 1], b) <= 0.0 {
      AppendKeepsSorted(bs, b);
    } else {
      var n := |bs| - 1;
      InsertKeepsSorted(bs[..n], b);
      assert forall x :: x in bs <==> x in bs[..n] || x == bs[n];
      AppendKeepsSorted(InsertByPriority(bs[..n], b), bs[n]);
    }
  }

  lemma {:induction false} StableSortSorts(bs: seq<SlotBundle>)
    ensures SortedByPriority(StableSort(bs))
  {
    if bs == [] {
    } else {
      StableSortSorts(bs[..|bs| - 1]);
      InsertKeepsSorted(StableSort(bs[..|bs| - 1]), bs[|bs| - 1]);
    }
  }

  lemma SnocBag(bs: seq<SlotBundle>)
    requires bs != []
    ensures multiset(bs) == multiset(bs[..|bs| - 1]) + multiset{bs[|bs| - 1]}
  {
    assert bs == bs[..|bs| - 1] + [bs[|bs| - 1]];
  }

  lemma {:induction false} StableSortPermutes(bs: seq<SlotBundle>)
    ensures multiset(StableSort(bs)) == multiset(bs)
  {
    if bs == [] {
    } else {
      var front, b := bs[..|bs| - 1], bs[|bs| - 1];
      StableSortPermutes(front);
      InsertIsPermutation(StableSort(front), b);
      SnocBag(bs);
    }
  }

  lemma TiesNext(front: seq<SlotBundle>, sorted: seq<SlotBundle>, b: SlotBundle, p: real)
    requires SortedByPriority(sorted) && Ties(sorted, p) == Ties(front, p)
    ensures Ties(InsertByPriority(sorted, b), p) == Ties(front + [b], p)
  {
    InsertKeepsTies(sorted, b, p);
    FilterAppend(sorted, [b], AtPriority(p));
    FilterAppend(front, [b], AtPriority(p));
  }

  lemma {:induction false} StableSortKeepsTies(bs: seq<SlotBundle>, p: real)
    ensures Ties(StableSort(bs), p) == Ties(bs, p)
  {
    if bs == [] {
    } else {
      var front, b := bs[..|bs| - 1], bs[|bs| - 1];
      assert bs == front + [b];
      StableSortKeepsTies(front, p);
      StableSortSorts(front);
      TiesNext(front, StableSort(front), b, p);
    }
  }

  /** `StableSort` is the stable sort: ordered, a rearrangement, and ties keep their order. */
  lemma StableSortIsStable(bs: seq<SlotBundle>, p: real)
    ensures SortedByPriority(StableSort(bs))
    ensures multiset(StableSort(bs)) == multiset(bs)
    ensures Ties(StableSort(bs), p) == Ties(bs, p)
  {
    StableSortSorts(bs);
    StableSortPermutes(bs);
    StableSortKeepsTies(bs, p);
  }

  function AtPriority(p: real): SlotBundle -> bool { (b: SlotBundle) => b.priority == p }

  /** The bundles of one priority, in order. */
  function Ties(bs: seq<SlotBundle>, p: real): seq<SlotBundle> { Filter(bs, AtPriority(p)) }

  lemma {:induction false} InsertKeepsTies(bs: seq<SlotBundle>, b: SlotBundle, p: real)
    requires SortedByPriority(bs)
    ensures Filter(InsertByPriority(bs, b), AtPriority(p)) == Filter(bs + [b], AtPriority(p))
  {
    if bs == [] || CompareBundlePriority(bs[|bs| - 1], b) <= 0.0 {
    } else {
      var n := |bs| - 1;
      InsertKeepsTies(bs[..n], b, p);
      FilterAppend(bs, [b], AtPriority(p));
      FilterAppend(bs[..n], [b], AtPriority(p));
    }
  }

  lemma {:induction false} StableSortOfSorted(bs: seq<SlotBundle>)
    requires SortedByPriority(bs)
    ensures StableSort(bs) == bs
  {
    if bs == [] {
    } else {
      StableSortOfSorted(bs[..|bs| - 1]);
    }
  }

  lemma SortAfterPush(bs: seq<SlotBundle>, b: SlotBundle)
    requires SortedByPriority(bs)
    ensures StableSort(bs + [b]) == InsertByPriority(bs, b)
  {
    assert (bs + [b])[..|bs|] == bs;
    StableSortOfSorted(bs);
  }

  /** Index of the bundle the fold over `priority` selects: the first of the lowest. */
  function LowestPriorityIndex(bs: seq<SlotBundle>): (k: nat)
    requires bs != []
    ensures k < |bs|
    ensures forall i :: 0 <= i < |bs| ==> bs[k].priority <= bs[i].priority
    ensures forall i :: 0 <= i < k ==> bs[k].priority < bs[i].priority
  {
    var n := |bs| - 1;
    if n == 0 then 0
    else
      var k := LowestPriorityIndex(bs[..n]);
      if bs[n].priority < bs[k].priority then n else k
  }

  // ---------- Operations ----------

  /** Pushes a bundle and re-sorts. */
  function Push(s: SlotState, b: SlotBundle): SlotState {
    s.(bundles := StableSort(s.bundles + [b]), currentWeight := s.currentWeight + b.weight)
  }

  function Splice(s: SlotState, k: nat): SlotState
    requires k < |s.bundles|
  {
    s.(bundles := Without(s.bundles, k), currentWeight := s.currentWeight - s.bundles[k].weight)
  }

  /** A bundle that does not fit still enters when it beats the lowest-priority occupant. */
  predicate Displaces(s: SlotState, b: SlotBundle) {
    s.bundles != [] && b.priority > s.bundles[LowestPriorityIndex(s.bundles)].priority
  }

  /** `Slot.add`: the new slot, and the bundle handed back (none when the new one fits). */
  function Add(capacity: int, s: SlotState, b: SlotBundle): (SlotState, Option<SlotBundle>) {
    if s.currentWeight + b.weight <= capacity then
      (Push(s, b), None)
    else if Displaces(s, b) then
      var k := LowestPriorityIndex(s.bundles);
      (Push(Splice(s, k), b), Some(s.bundles[k]))
    else
      (s, Some(b))
  }

  function RemoveFirst(s: SlotState): (SlotState, Option<SlotBundle>) {
    if s.bundles == [] then (s, None) else (Splice(s, 0), Some(s.bundles[0]))
  }

  /** First position holding `id`, or the length when there is none. */
  function FindIndex(bs: seq<SlotBundle>, id: BundleId): (k: nat)
    ensures k <= |bs|
    ensures k < |bs| ==> bs[k].bundleId == id
    ensures forall i :: 0 <= i < k ==> bs[i].bundleId != id
  {
    if bs == [] then 0
    else if bs[0].bundleId == id then 0
    else FindIndex(bs[1..], id) + 1
  }

  function RemoveBundle(s: SlotState, id: BundleId): (SlotState, bool) {
    var k := FindIndex(s.bundles, id);
    if k < |s.bundles| then (Splice(s, k), true) else (s, false)
  }

  // ---------- Invariant ----------

  /** What every slot operation keeps. */
  ghost predicate SlotOk(s: SlotState) {
    && SortedByPriority(s.bundles)
    && s.currentWeight == SlotWeight(s.bundles)
    && forall b :: b in s.bundles ==> b.channel == s.channel
  }

  function Returned(r: Option<SlotBundle>): multiset<SlotBundle> {
    if r.None? then multiset{} else multiset{r.value}
  }

  lemma {:induction false} WithoutWeight(bs: seq<SlotBundle>, k: nat)
    requires k < |bs|
    ensures SlotWeight(Without(bs, k)) == SlotWeight(bs) - bs[k].weight
  {
    var n := |bs| - 1;
    if k == n {
      assert Without(bs, k) == bs[..n];
    } else {
      WithoutWeight(bs[..n], k);
      assert Without(bs, k)[..n - 1] == Without(bs[..n], k);
    }
  }

  lemma PushKeepsSlot(s: SlotState, b: SlotBundle)
    requires SlotOk(s) && b.channel == s.channel
    ensures SlotOk(Push(s, b))
    ensures multiset(Push(s, b).bundles) == multiset(s.bundles) + multiset{b} && Push(s, b).bundles != []
    ensures forall x :: x in Push(s, b).bundles <==> x in s.bundles || x == b
  {
    SortAfterPush(s.bundles, b);
    InsertKeepsSorted(s.bundles, b);
    InsertIsPermutation(s.bundles, b);
  }

  /** `Slot.add` loses no bundle: what the slot holds afterwards and what it hands back are what it held
      before and what was offered. */
  lemma AddConserves(capacity: int, s: SlotState, b: SlotBundle)
    ensures var (t, r) := Add(capacity, s, b);
      multiset(t.bundles) + Returned(r) == multiset(s.bundles) + multiset{b}
  {
    if s.currentWeight + b.weight <= capacity {
      PushConserves(s, b);
    } else if Displaces(s, b) {
      var k := LowestPriorityIndex(s.bundles);
      WithoutBag(s.bundles, k);
      PushConserves(Splice(s, k), b);
    }
  }

  lemma PushConserves(s: SlotState, b: SlotBundle)
    ensures multiset(Push(s, b).bundles) == multiset(s.bundles) + multiset{b}
  {
    StableSortIsStable(s.bundles + [b], 0.0);
  }

  lemma SpliceKeepsSlot(s: SlotState, k: nat)
    requires SlotOk(s) && k < |s.bundles|
    ensures SlotOk(Splice(s, k))
    ensures multiset(s.bundles) == multiset(Splice(s, k).bundles) + multiset{s.bundles[k]}
    ensures forall x :: x in Splice(s, k).bundles ==> x in s.bundles
  {
    WithoutWeight(s.bundles, k);
    WithoutBag(s.bundles, k);
  }

  /** `Slot.add` keeps the slot invariant, and hands nothing back exactly when the offered bundle fits. */
  lemma AddKeepsSlot(capacity: int, s: SlotState, b: SlotBundle)
    requires SlotOk(s) && b.channel == s.channel
    ensures var (t, r) := Add(capacity, s, b);
      && SlotOk(t) && t.channel == s.channel
      && (r.None? <==> s.currentWeight + b.weight <= capacity)
      && (s.bundles != [] || r.None? ==> t.bundles != [])
  {
    if s.currentWeight + b.weight <= capacity {
      PushKeepsSlot(s, b);
    } else if Displaces(s, b) {
      var k := LowestPriorityIndex(s.bundles);
      SpliceKeepsSlot(s, k);
      PushKeepsSlot(Splice(s, k), b);
    }
  }

  /** What `Slot.add` hands back is no better than anything the slot then holds; when it is not the
      offered bundle itself it is strictly worse than the offered one. */
  lemma AddHandsBackTheWorst(capacity: int, s: SlotState, b: SlotBundle)
    requires SlotOk(s) && b.channel == s.channel
    requires Add(capacity, s, b).1.Some?
    ensures var (t, r) := Add(capacity, s, b);
      && (forall x :: x in t.bundles ==> r.value.priority <= x.priority)
      && (r.value == b ==> t == s)
      && (r.value != b ==> r.value.priority < b.priority && r.value in s.bundles)
  {
    if Displaces(s, b) {
      var k := LowestPriorityIndex(s.bundles);
      SpliceKeepsSlot(s, k);
      PushKeepsSlot(Splice(s, k), b);
    }
  }

  lemma RemoveFirstKeepsSlot(s: SlotState)
    requires SlotOk(s)
    ensures var (t, r) := RemoveFirst(s);
      && SlotOk(t) && multiset(t.bundles) + Returned(r) == multiset(s.bundles)
      && (r.None? <==> s.bundles == [])
      && (r.Some? ==> forall x :: x in s.bundles ==> x.priority <= r.value.priority)
  {
    if s.bundles != [] {
      SpliceKeepsSlot(s, 0);
    }
  }

  lemma RemoveBundleKeepsSlot(s: SlotState, id: BundleId)
    requires SlotOk(s)
    ensures var (t, found) := RemoveBundle(s, id);
      && SlotOk(t) && (found <==> id in Ids(s.bundles)) && (!found ==> t == s)
      && (found ==>
            exists b: SlotBundle :: b.bundleId == id && multiset(t.bundles) + multiset{b} == multiset(s.bundles))
  {
    var k := FindIndex(s.bundles, id);
    if k < |s.bundles| {
      SpliceKeepsSlot(s, k);
      assert Ids(s.bundles)[k] == id;
      assert s.bundles[k].bundleId == id;
    }
  }
}
