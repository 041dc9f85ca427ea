/**
 How heavy a slot can get. A swap does not re-check the capacity, so the total weight can exceed it;
 what stays bounded is the number of bundles, and through it the weight.
 */
module SlotCapacity {
  import opened Sequences
  import opened Bundles
  import opened SlotModel

  datatype SlotOp = AddOp(bundle: SlotBundle) | RemoveFirstOp | RemoveBundleOp(id: BundleId)

  function ApplyOp(capacity: int, s: SlotState, op: SlotOp): SlotState {
    match op
    case AddOp(b) => Add(capacity, s, b).0
    case RemoveFirstOp => RemoveFirst(s).0
    case RemoveBundleOp(id) => RemoveBundle(s, id).0
  }

  function RunOps(capacity: int, s: SlotState, ops: seq<SlotOp>): SlotState {
    if ops == [] then s else ApplyOp(capacity, RunOps(capacity, s, ops[..|ops| - 1]), ops[|ops| - 1])
  }

  /** Every bundle offered is for this channel and weighs between `wmin` and `wmax`. */
  ghost predicate Offers(channel: ChannelId, ops: seq<SlotOp>, wmin: nat, wmax: nat) {
    forall op :: op in ops && op.AddOp? ==> op.bundle.channel == channel && wmin <= op.bundle.weight <= wmax
  }

  ghost predicate Bounded(capacity: int, s: SlotState, wmin: nat, wmax: nat) {
    && SlotOk(s)
    && (forall b :: b in s.bundles ==> wmin <= b.weight <= wmax)
    && |s.bundles| * wmin <= capacity
  }

  lemma {:induction false} WeightBetween(bs: seq<SlotBundle>, wmin: nat, wmax: nat)
    requires forall b :: b in bs ==> wmin <= b.weight <= wmax
    ensures |bs| * wmin <= SlotWeight(bs) <= |bs| * wmax
  {
    if bs == [] {
    } else {
      var n := |bs| - 1;
      assert forall b :: b in bs[..n] ==> b in bs;
      WeightBetween(bs[..n], wmin, wmax);
      assert bs[n] in bs;
      Distribute(n, wmin);
      Distribute(n, wmax);
    }
  }

  lemma Shrink(n: nat, w: nat)
    requires n > 0
    ensures (n - 1) * w <= n * w
  {
    Distribute(n - 1, w);
  }

  lemma SpliceBounded(capacity: int, s: SlotState, k: nat, wmin: nat, wmax: nat)
    requires Bounded(capacity, s, wmin, wmax) && k < |s.bundles|
    ensures Bounded(capacity, Splice(s, k), wmin, wmax)
  {
    SpliceKeepsSlot(s, k);
    WithoutBag(s.bundles, k);
    Shrink(|s.bundles|, wmin);
  }

  lemma PushBounded(capacity: int, s: SlotState, b: SlotBundle, wmin: nat, wmax: nat)
    requires SlotOk(s) && forall x :: x in s.bundles ==> wmin <= x.weight <= wmax
    requires b.channel == s.channel && wmin <= b.weight <= wmax
    requires (|s.bundles| + 1) * wmin <= capacity
    ensures Bounded(capacity, Push(s, b), wmin, wmax)
  {
    PushKeepsSlot(s, b);
  }

  lemma AddBounded(capacity: int, s: SlotState, b: SlotBundle, wmin: nat, wmax: nat)
    requires Bounded(capacity, s, wmin, wmax)
    requires b.channel == s.channel && wmin <= b.weight <= wmax
    ensures Bounded(capacity, Add(capacity, s, b).0, wmin, wmax)
  {
    if s.currentWeight + b.weight <= capacity {
      WeightBetween(s.bundles, wmin, wmax);
      Distribute(|s.bundles|, wmin);
      PushBounded(capacity, s, b, wmin, wmax);
    } else if Displaces(s, b) {
      var k := LowestPriorityIndex(s.bundles);
      SpliceBounded(capacity, s, k, wmin, wmax);
      PushBounded(capacity, Splice(s, k), b, wmin, wmax);
    }
  }

  lemma ApplyBounded(capacity: int, s: SlotState, op: SlotOp, wmin: nat, wmax: nat)
    requires Bounded(capacity, s, wmin, wmax)
    requires op.AddOp? ==> op.bundle.channel == s.channel && wmin <= op.bundle.weight <= wmax
    ensures Bounded(capacity, ApplyOp(capacity, s, op), wmin, wmax)
  {
    match op
    case AddOp(b) => AddBounded(capacity, s, b, wmin, wmax);
    case RemoveFirstOp => if s.bundles != [] { SpliceBounded(capacity, s, 0, wmin, wmax); }
    case RemoveBundleOp(id) =>
      var k := FindIndex(s.bundles, id);
      if k < |s.bundles| { SpliceBounded(capacity, s, k, wmin, wmax); }
  }

  /** Over any mix of adds and removals the slot stays sorted by descending priority, its running
      weight is the sum of its bundles' weights, and it holds at most capacity / wmin bundles. */
  lemma {:induction false} SlotInvariant(capacity: nat, channel: ChannelId, ops: seq<SlotOp>, wmin: nat, wmax: nat)
    requires Offers(channel, ops, wmin, wmax)
    ensures Bounded(capacity, RunOps(capacity, EmptySlot(channel), ops), wmin, wmax)
    ensures RunOps(capacity, EmptySlot(channel), ops).channel == channel
  {
    if ops == [] {
    } else {
      var n := |ops| - 1;
      assert forall op :: op in ops[..n] ==> op in ops;
      SlotInvariant(capacity, channel, ops[..n], wmin, wmax);
      var s := RunOps(capacity, EmptySlot(channel), ops[..n]);
      assert ops[n] in ops;
      ApplyBounded(capacity, s, ops[n], wmin, wmax);
    }
  }

  /** Hence the weight bound that does hold, and the plain one when all weights agree. */
  lemma SlotWeightBound(capacity: nat, channel: ChannelId, ops: seq<SlotOp>, wmin: nat, wmax: nat)
    requires Offers(channel, ops, wmin, wmax) && 1 <= wmin
    ensures RunOps(capacity, EmptySlot(channel), ops).currentWeight <= (capacity / wmin) * wmax
    ensures wmin == wmax ==> RunOps(capacity, EmptySlot(channel), ops).currentWeight <= capacity
  {
    SlotInvariant(capacity, channel, ops, wmin, wmax);
    var s := RunOps(capacity, EmptySlot(channel), ops);
    WeightBetween(s.bundles, wmin, wmax);
    CountBound(|s.bundles|, capacity, wmin);
    Scale(|s.bundles|, capacity / wmin, wmax);
  }

  lemma CountBound(n: nat, capacity: nat, wmin: nat)
    requires n * wmin <= capacity && 1 <= wmin
    ensures n <= capacity / wmin
  {
    var q := capacity / wmin;
    Distribute(q, wmin);
    if n > q {
      Scale(q + 1, n, wmin);
    }
  }

  lemma Scale(a: nat, b: nat, w: nat)
    requires a <= b
    ensures a * w <= b * w
  {
  }

  /** A slot within its capacity is pushed over it exactly when the offered bundle displaces the
      lowest-priority occupant and outweighs it by more than the free room. */
  lemma AddOverflowsExactlyWhen(capacity: int, s: SlotState, b: SlotBundle)
    requires SlotOk(s) && b.channel == s.channel && s.currentWeight <= capacity
    ensures Add(capacity, s, b).0.currentWeight > capacity
       <==> Displaces(s, b)
            && b.weight > capacity - s.currentWeight + s.bundles[LowestPriorityIndex(s.bundles)].weight
  {
    AddKeepsSlot(capacity, s, b);
  }

  /** So "total weight <= capacity" is not an invariant, even when every bundle fits on its own: a slot of
      capacity 10 with bundles of weight 6 and 1 takes one of weight 10 for the lighter, and weighs 16. */
  lemma CapacityIsExceeded(channel: ChannelId, ops: ClassifiedOperations)
    ensures var first := SlotBundle("first", channel, ops, 1, 6, 0, 0, 3.0, 0);
            var light := SlotBundle("light", channel, ops, 1, 1, 0, 0, 1.0, 0);
            var heavy := SlotBundle("heavy", channel, ops, 1, 10, 0, 0, 2.0, 0);
            RunOps(10, EmptySlot(channel), [AddOp(first), AddOp(light), AddOp(heavy)]).currentWeight == 16
  {
    var first := SlotBundle("first", channel, ops, 1, 6, 0, 0, 3.0, 0);
    var light := SlotBundle("light", channel, ops, 1, 1, 0, 0, 1.0, 0);
    var heavy := SlotBundle("heavy", channel, ops, 1, 10, 0, 0, 2.0, 0);
    var run := [AddOp(first), AddOp(light), AddOp(heavy)];
    assert run[..2][..1] == [AddOp(first)] && run[..2][..1][..0] == [];
    assert RunOps(10, EmptySlot(channel), run[..2][..1]) == Push(EmptySlot(channel), first);
    TwoPushed(channel, first, light);
    assert RunOps(10, EmptySlot(channel), run[..2]) == SlotState(channel, [first, light], 7);
  }

  lemma TwoPushed(channel: ChannelId, first: SlotBundle, second: SlotBundle)
    requires first.priority >= second.priority
    ensures Push(Push(EmptySlot(channel), first), second)
         == SlotState(channel, [first, second], first.weight + second.weight)
  {
    SortAfterPush([], first);
    assert [] + [first] == [first];
    SortAfterPush([first], second);
    assert InsertByPriority([first], second) == [first, second];
  }
}
