/**
 Entities of the bundle pipeline: channel operations, the persisted bundle row, the in-memory
 slot bundle, and the configuration read from the environment.
 */
module Bundles {
  import opened Sequences

  type BundleId = string
  type ChannelId = string
  type UtxoId = string

  /** An operation of a bundle. A spend carries no amount: its value is the balance of its UTXO
      on the network. `expiration` is the last ledger its signature is valid for, when finite. */
  datatype Operation =
    | Create(utxo: UtxoId, amount: int)
    | Spend(utxo: UtxoId, expiration: Option<int>)
    | Deposit(account: string, amount: int)
    | Withdraw(account: string, amount: int)

  datatype ClassifiedOperations = ClassifiedOperations(
    create: seq<Operation>, spend: seq<Operation>, deposit: seq<Operation>, withdraw: seq<Operation>)

  function ClassifyOperations(operations: seq<Operation>): ClassifiedOperations {
    ClassifiedOperations(
      Filter(operations, (op: Operation) => op.Create?), Filter(operations, (op: Operation) => op.Spend?),
      Filter(operations, (op: Operation) => op.Deposit?), Filter(operations, (op: Operation) => op.Withdraw?))
  }

  /** The environment is refused at startup unless the retry limit is at least one. */
  type Positive = n: int | 1 <= n witness 1

  /** Slot capacity, the two operation weights, the retry limit, and the transaction
      expiration offset in ledgers. */
  datatype Config = Config(capacity: int, expensiveOpWeight: nat, cheapOpWeight: nat,
                           maxRetryAttempts: Positive, expirationOffset: int)

  function CalculateBundleWeight(ops: ClassifiedOperations, cfg: Config): nat {
    (|ops.spend| + |ops.withdraw|) * cfg.expensiveOpWeight + (|ops.deposit| + |ops.create|) * cfg.cheapOpWeight
  }

  /** Spends and withdrawals are the expensive operations. */
  function OperationWeight(op: Operation, cfg: Config): nat {
    if op.Spend? || op.Withdraw? then cfg.expensiveOpWeight else cfg.cheapOpWeight
  }

  function TotalWeight(operations: seq<Operation>, cfg: Config): nat {
    if operations == [] then 0
    else TotalWeight(operations[..|operations| - 1], cfg) + OperationWeight(operations[|operations| - 1], cfg)
  }

  /** A bundle weighs what its operations weigh one by one. */
  lemma {:induction false} WeightIsSumOfOperations(operations: seq<Operation>, cfg: Config)
    ensures CalculateBundleWeight(ClassifyOperations(operations), cfg) == TotalWeight(operations, cfg)
  {
    if operations == [] {
    } else {
      var front, op := operations[..|operations| - 1], operations[|operations| - 1];
      WeightIsSumOfOperations(front, cfg);
      var before, after := ClassifyOperations(front), ClassifyOperations(operations);
      var expensive := if op.Spend? || op.Withdraw? then 1 else 0;
      assert |after.spend| + |after.withdraw| == |before.spend| + |before.withdraw| + expensive;
      assert |after.deposit| + |after.create| == |before.deposit| + |before.create| + 1 - expensive;
      Distribute(|before.spend| + |before.withdraw|, cfg.expensiveOpWeight);
      Distribute(|before.deposit| + |before.create|, cfg.cheapOpWeight);
    }
  }

  lemma Distribute(n: nat, w: nat)
    ensures (n + 1) * w == n * w + w
  {
  }

  datatype BundleStatus = Pending | Processing | Expired | Completed | Failed

  /** PENDING and PROCESSING are the two statuses a status-gated write accepts. */
  predicate IsActive(s: BundleStatus) { s.Pending? || s.Processing? }

  /** A row of the bundle table. */
  datatype Row = Row(status: BundleStatus, channel: ChannelId, ttl: int, operations: ClassifiedOperations,
                     fee: int, retryCount: nat, createdAt: int)

  type Rows = map<BundleId, Row>

  /** A bundle as the mempool holds it. The priority score is an arbitrary number fixed when the
      slot bundle is built. */
  datatype SlotBundle = SlotBundle(bundleId: BundleId, channel: ChannelId, operations: ClassifiedOperations,
                                   fee: int, weight: nat, ttl: int, createdAt: int, priority: real,
                                   retryCount: nat)

  function CreateSlotBundle(id: BundleId, row: Row, cfg: Config, priority: real): SlotBundle {
    SlotBundle(id, row.channel, row.operations, row.fee, CalculateBundleWeight(row.operations, cfg),
               row.ttl, row.createdAt, priority, row.retryCount)
  }

  predicate IsBundleExpired(b: SlotBundle, now: int) { b.ttl <= now }

  /** Which bundles a removal picks: those past their TTL at a given time, or those with given ids. */
  datatype Criterion = ExpiredAt(now: int) | WithId(ids: set<BundleId>)

  predicate Selects(c: Criterion, b: SlotBundle) {
    match c
    case ExpiredAt(now) => IsBundleExpired(b, now)
    case WithId(ids) => b.bundleId in ids
  }

  /** The two sides of a criterion, as values so that every filter shares them. */
  function Selected(c: Criterion): SlotBundle -> bool { (b: SlotBundle) => Selects(c, b) }
  function Kept(c: Criterion): SlotBundle -> bool { (b: SlotBundle) => !Selects(c, b) }

  function Ids(bs: seq<SlotBundle>): (ids: seq<BundleId>)
    ensures |ids| == |bs|
    ensures forall i :: 0 <= i < |bs| ==> ids[i] == bs[i].bundleId
  {
    seq(|bs|, i requires 0 <= i < |bs| => bs[i].bundleId)
  }

  // ---------- Counting bundles by id ----------

  /** How many of `bs` carry the id. */
  function CountOf(bs: seq<SlotBundle>, id: BundleId): nat {
    if bs == [] then 0
    else CountOf(bs[..|bs| - 1], id) + (if bs[|bs| - 1].bundleId == id then 1 else 0)
  }

  lemma CountOne(b: SlotBundle, id: BundleId)
    ensures CountOf([b], id) == if b.bundleId == id then 1 else 0
  {
    assert CountOf([b][..0], id) == 0;
  }

  lemma {:induction false} CountAppend(a: seq<SlotBundle>, b: seq<SlotBundle>, id: BundleId)
    ensures CountOf(a + b, id) == CountOf(a, id) + CountOf(b, id)
  {
    if b == [] {
      assert a + b == a;
    } else {
      assert (a + b)[..|a + b| - 1] == a + b[..|b| - 1];
      CountAppend(a, b[..|b| - 1], id);
    }
  }

  lemma CountWithout(bs: seq<SlotBundle>, k: nat, id: BundleId)
    requires k < |bs|
    ensures CountOf(bs, id) == CountOf(Without(bs, k), id) + (if bs[k].bundleId == id then 1 else 0)
  {
    assert bs == bs[..k] + ([bs[k]] + bs[k + 1..]);
    CountAppend(bs[..k], [bs[k]] + bs[k + 1..], id);
    CountAppend([bs[k]], bs[k + 1..], id);
    CountAppend(bs[..k], bs[k + 1..], id);
    CountOne(bs[k], id);
  }

  /** Rearranging bundles changes no count. */
  lemma {:induction false} CountPermute(a: seq<SlotBundle>, b: seq<SlotBundle>, id: BundleId)
    requires multiset(a) == multiset(b)
    ensures CountOf(a, id) == CountOf(b, id)
    decreases |a|
  {
    if a == [] {
      assert |multiset(b)| == 0;
    } else {
      assert a[0] in multiset(b);
      var j :| 0 <= j < |b| && b[j] == a[0];
      WithoutBag(a, 0);
      WithoutBag(b, j);
      CountPermute(Without(a, 0), Without(b, j), id);
      CountWithout(a, 0, id);
      CountWithout(b, j, id);
    }
  }

  /** Splitting a list by a predicate splits every count. */
  lemma {:induction false} CountFilter(bs: seq<SlotBundle>, keep: SlotBundle -> bool, drop: SlotBundle -> bool,
                                       id: BundleId)
    requires forall b :: b in bs ==> (keep(b) <==> !drop(b))
    ensures CountOf(bs, id) == CountOf(Filter(bs, keep), id) + CountOf(Filter(bs, drop), id)
  {
    if bs == [] {
    } else {
      var n := |bs| - 1;
      CountFilter(bs[..n], keep, drop, id);
      var kept, dropped := Filter(bs[..n], keep), Filter(bs[..n], drop);
      assert bs[n] in bs;
      if keep(bs[n]) {
        assert (kept + [bs[n]])[..|kept|] == kept;
      } else {
        assert (dropped + [bs[n]])[..|dropped|] == dropped;
      }
    }
  }

  lemma {:induction false} CountMember(bs: seq<SlotBundle>, b: SlotBundle)
    requires b in bs
    ensures CountOf(bs, b.bundleId) >= 1
  {
    var n := |bs| - 1;
    if bs[n] == b {
    } else {
      CountMember(bs[..n], b);
    }
  }

  /** A count is the multiplicity of the id among the ids, and zero exactly when no bundle has it. */
  lemma {:induction false} CountIsMultiplicity(bs: seq<SlotBundle>, id: BundleId)
    ensures multiset(Ids(bs))[id] == CountOf(bs, id)
    ensures id in Ids(bs) <==> CountOf(bs, id) > 0
  {
    if bs == [] {
    } else {
      var n := |bs| - 1;
      CountIsMultiplicity(bs[..n], id);
      assert Ids(bs) == Ids(bs[..n]) + [bs[n].bundleId];
    }
  }
}
