/**
 The transaction the executor builds from a whole slot: one fee operation for the provider followed by
 every operation of every bundle, and the value that transaction moves.
 */
module Transactions {
  import opened Sequences
  import opened Bundles
  import opened Fees
  import opened Pipeline
  import opened Runs

  function TotalFee(bs: seq<SlotBundle>): int {
    if bs == [] then 0 else TotalFee(bs[..|bs| - 1]) + bs[|bs| - 1].fee
  }

  /** The operations of the bundles, bundle by bundle. */
  function BundleOps(bs: seq<SlotBundle>): seq<Operation> {
    if bs == [] then [] else BundleOps(bs[..|bs| - 1]) + Listed(bs[|bs| - 1].operations)
  }

  function TransactionOps(feeUtxo: UtxoId, bs: seq<SlotBundle>): seq<Operation> {
    [Create(feeUtxo, TotalFee(bs))] + BundleOps(bs)
  }

  datatype BuildResult =
    | Built(operations: seq<Operation>, totalFee: int, bundleIds: seq<BundleId>)
    | CannotBuildFromEmptySlot
    | InsufficientUtxos

  /** Appends operations to a builder one at a time. */
  method AddOperations(builder: seq<Operation>, ops: seq<Operation>) returns (r: seq<Operation>)
    ensures r == builder + ops
  {
    r := builder;
    for i := 0 to |ops|
      invariant r == builder + ops[..i]
    {
      r := r + [ops[i]];
    }
  }

  method SumFees(bundles: seq<SlotBundle>) returns (total: int)
    ensures total == TotalFee(bundles)
  {
    total := 0;
    for i := 0 to |bundles|
      invariant total == TotalFee(bundles[..i])
    {
      assert bundles[..i + 1][..i] == bundles[..i];
      total := total + bundles[i].fee;
    }
    assert bundles[..|bundles|] == bundles;
  }

  /** `buildTransactionFromSlot`; `reserved` is what the provider's UTXO account could reserve. */
  method BuildTransactionFromSlot(bundles: seq<SlotBundle>, reserved: seq<UtxoId>) returns (r: BuildResult)
    ensures r.CannotBuildFromEmptySlot? <==> bundles == []
    ensures r.InsufficientUtxos? <==> bundles != [] && reserved == []
    ensures bundles != [] && reserved != [] ==>
      r == Built(TransactionOps(reserved[0], bundles), TotalFee(bundles), Ids(bundles))
  {
    if |bundles| == 0 { return CannotBuildFromEmptySlot; }
    if |reserved| == 0 { return InsufficientUtxos; }
    var totalFee := SumFees(bundles);
    var builder := [Create(reserved[0], totalFee)];
    var fee := builder;
    for i := 0 to |bundles|
      invariant builder == fee + BundleOps(bundles[..i])
    {
      var ops := bundles[i].operations;
      assert bundles[..i + 1][..i] == bundles[..i];
      ghost var before := builder;
      builder := AddOperations(builder, ops.deposit);
      builder := AddOperations(builder, ops.create);
      builder := AddOperations(builder, ops.spend);
      builder := AddOperations(builder, ops.withdraw);
      assert builder == before + Listed(ops);
    }
    assert bundles[..|bundles|] == bundles;
    return Built(builder, totalFee, Ids(bundles));
  }

  // ---------- Value ----------

  /** The net value of operations of one kind is their total, with the sign of the kind. */
  lemma {:induction false} NetOfInflows(ops: seq<Operation>, balances: Balances)
    requires forall op :: op in ops ==> op.Deposit? || op.Spend?
    ensures Net(ops, balances) == Total(ops, balances)
  {
    if ops == [] {
    } else {
      NetOfInflows(ops[..|ops| - 1], balances);
    }
  }

  lemma {:induction false} NetOfOutflows(ops: seq<Operation>, balances: Balances)
    requires forall op :: op in ops ==> op.Create? || op.Withdraw?
    ensures Net(ops, balances) == -Total(ops, balances)
  {
    if ops == [] {
    } else {
      NetOfOutflows(ops[..|ops| - 1], balances);
    }
  }

  lemma NetOfListed(ops: ClassifiedOperations, balances: Balances)
    requires WellClassified(ops)
    ensures Net(Listed(ops), balances)
         == Total(ops.deposit, balances) + Total(ops.spend, balances)
            - Total(ops.create, balances) - Total(ops.withdraw, balances)
  {
    NetAppend(ops.deposit + ops.create + ops.spend, ops.withdraw, balances);
    NetAppend(ops.deposit + ops.create, ops.spend, balances);
    NetAppend(ops.deposit, ops.create, balances);
    NetOfInflows(ops.deposit, balances);
    NetOfInflows(ops.spend, balances);
    NetOfOutflows(ops.create, balances);
    NetOfOutflows(ops.withdraw, balances);
  }

  /** Deposit totals do not depend on balances; nor does any total without spends. */
  lemma {:induction false} TotalWithoutSpends(ops: seq<Operation>, a: Balances, b: Balances)
    requires forall op :: op in ops ==> !op.Spend?
    ensures Total(ops, a) == Total(ops, b)
  {
    if ops == [] {
    } else {
      TotalWithoutSpends(ops[..|ops| - 1], a, b);
    }
  }

  /** What a bundle leaves in the transaction beyond its own fee, when its fee was computed from the
      balances `before` and the network now holds `now`. Spends next to deposits were not counted. */
  function Excess(ops: ClassifiedOperations, before: Balances, now: Balances): int {
    var deposit, spend := Total(ops.deposit, now), Total(ops.spend, now);
    if deposit > 0 then spend else deposit + spend - Total(ops.spend, before)
  }

  lemma NetBeyondFee(ops: ClassifiedOperations, before: Balances, now: Balances)
    requires WellClassified(ops)
    ensures Net(Listed(ops), now) == BundleFee(ops, before) + Excess(ops, before, now)
  {
    NetOfListed(ops, now);
    TotalWithoutSpends(ops.deposit, before, now);
    TotalWithoutSpends(ops.create, before, now);
    TotalWithoutSpends(ops.withdraw, before, now);
  }

  /** Every bundle was well classified and carries the fee computed from the balances at its admission. */
  ghost predicate FeesFrom(bs: seq<SlotBundle>, admitted: map<BundleId, Balances>) {
    forall b :: b in bs ==>
      && WellClassified(b.operations) && b.bundleId in admitted
      && b.fee == BundleFee(b.operations, admitted[b.bundleId]) && b.fee >= 1
  }

  function TotalExcess(bs: seq<SlotBundle>, admitted: map<BundleId, Balances>, now: Balances): int
    requires forall b :: b in bs ==> b.bundleId in admitted
  {
    if bs == [] then 0
    else
      var b := bs[|bs| - 1];
      TotalExcess(bs[..|bs| - 1], admitted, now) + Excess(b.operations, admitted[b.bundleId], now)
  }

  lemma {:induction false} NetOfBundles(bs: seq<SlotBundle>, admitted: map<BundleId, Balances>, now: Balances)
    requires FeesFrom(bs, admitted)
    ensures Net(BundleOps(bs), now) == TotalFee(bs) + TotalExcess(bs, admitted, now)
    ensures TotalFee(bs) >= |bs|
  {
    if bs == [] {
    } else {
      var n := |bs| - 1;
      NetOfBundles(bs[..n], admitted, now);
      NetAppend(BundleOps(bs[..n]), Listed(bs[n].operations), now);
      NetBeyondFee(bs[n].operations, admitted[bs[n].bundleId], now);
    }
  }

  /** Value conservation: whatever the slot holds, the transaction takes in exactly its excess more than
      it pays out, and the fee operation is worth at least one unit per bundle. */
  lemma TransactionValue(feeUtxo: UtxoId, bs: seq<SlotBundle>, admitted: map<BundleId, Balances>, now: Balances)
    requires FeesFrom(bs, admitted)
    ensures Net(TransactionOps(feeUtxo, bs), now) == TotalExcess(bs, admitted, now)
    ensures TotalFee(bs) >= |bs|
  {
    var fee := Create(feeUtxo, TotalFee(bs));
    NetAppend([fee], BundleOps(bs), now);
    assert Net([fee][..0], now) == 0;
    NetOfBundles(bs, admitted, now);
  }

  /** The multiset of the operations that were classified into the bundles. */
  ghost function OperationBag(originals: seq<seq<Operation>>): multiset<Operation> {
    if originals == [] then multiset{}
    else OperationBag(originals[..|originals| - 1]) + multiset(originals[|originals| - 1])
  }

  /** The transaction's operations are the bundles' submitted operations and the fee operation, nothing
      lost, added or repeated. */
  lemma {:induction false} TransactionPermutes(bs: seq<SlotBundle>, originals: seq<seq<Operation>>, feeUtxo: UtxoId)
    requires |originals| == |bs|
    requires forall i :: 0 <= i < |bs| ==> bs[i].operations == ClassifyOperations(originals[i])
    ensures multiset(BundleOps(bs)) == OperationBag(originals)
    ensures multiset(TransactionOps(feeUtxo, bs)) == OperationBag(originals) + multiset{Create(feeUtxo, TotalFee(bs))}
  {
    if bs == [] {
    } else {
      var n := |bs| - 1;
      TransactionPermutes(bs[..n], originals[..n], feeUtxo);
      ClassificationPermutes(originals[n]);
    }
  }

  lemma {:induction false} BundleOpsAppend(a: seq<SlotBundle>, b: seq<SlotBundle>)
    ensures BundleOps(a + b) == BundleOps(a) + BundleOps(b)
  {
    if b == [] {
      assert a + b == a;
    } else {
      assert (a + b)[..|a + b| - 1] == a + b[..|b| - 1];
      BundleOpsAppend(a, b[..|b| - 1]);
    }
  }

  /** The fee operation comes first, then the bundles in their order, each with its deposits, creates, spends and
      withdrawals in that order. */
  lemma TransactionInOrder(feeUtxo: UtxoId, a: seq<SlotBundle>, b: seq<SlotBundle>, x: SlotBundle)
    ensures TransactionOps(feeUtxo, a + b)[0] == Create(feeUtxo, TotalFee(a + b))
    ensures TransactionOps(feeUtxo, a + b)[1..] == BundleOps(a) + BundleOps(b)
    ensures BundleOps([x])
         == x.operations.deposit + x.operations.create + x.operations.spend + x.operations.withdraw
  {
    BundleOpsAppend(a, b);
    assert BundleOps([x][..0]) == [];
  }

  // ---------- When the transaction balances ----------

  ghost predicate NonNegative(ops: seq<Operation>, balances: Balances) {
    forall op :: op in ops ==> AmountOf(op, balances) >= 0
  }

  /** Amounts and balances are not negative, and the spent UTXOs still hold what they held at admission. */
  ghost predicate Steady(bs: seq<SlotBundle>, admitted: map<BundleId, Balances>, now: Balances) {
    forall b :: b in bs ==>
      && b.bundleId in admitted && NonNegative(b.operations.deposit, now) && NonNegative(b.operations.spend, now)
      && forall op :: op in b.operations.spend ==> AmountOf(op, now) == AmountOf(op, admitted[b.bundleId])
  }

  predicate Deposits(b: SlotBundle, now: Balances) { Total(b.operations.deposit, now) > 0 }

  /** A bundle whose spends were ignored by the fee because it also deposits. */
  predicate Mixes(b: SlotBundle, now: Balances) { Deposits(b, now) && Total(b.operations.spend, now) > 0 }

  /** The summed spend balances of the bundles with a positive deposit total. */
  function MixedSpends(bs: seq<SlotBundle>, now: Balances): int {
    if bs == [] then 0
    else
      var b := bs[|bs| - 1];
      MixedSpends(bs[..|bs| - 1], now) + (if Deposits(b, now) then Total(b.operations.spend, now) else 0)
  }

  lemma {:induction false} TotalNonNegative(ops: seq<Operation>, balances: Balances)
    requires NonNegative(ops, balances)
    ensures Total(ops, balances) >= 0
  {
    if ops == [] {
    } else {
      TotalNonNegative(ops[..|ops| - 1], balances);
    }
  }

  lemma {:induction false} TotalUnmoved(ops: seq<Operation>, a: Balances, b: Balances)
    requires forall op :: op in ops ==> AmountOf(op, a) == AmountOf(op, b)
    ensures Total(ops, a) == Total(ops, b)
  {
    if ops == [] {
    } else {
      TotalUnmoved(ops[..|ops| - 1], a, b);
    }
  }

  lemma {:induction false} ExcessIsMixedSpends(bs: seq<SlotBundle>, admitted: map<BundleId, Balances>, now: Balances)
    requires Steady(bs, admitted, now)
    ensures TotalExcess(bs, admitted, now) == MixedSpends(bs, now) >= 0
    ensures MixedSpends(bs, now) == 0 <==> forall b :: b in bs ==> !Mixes(b, now)
  {
    if bs == [] {
    } else {
      var n := |bs| - 1;
      var b := bs[n];
      assert forall x :: x in bs <==> x in bs[..n] || x == b;
      ExcessIsMixedSpends(bs[..n], admitted, now);
      TotalUnmoved(b.operations.spend, now, admitted[b.bundleId]);
      TotalNonNegative(b.operations.spend, now);
      TotalNonNegative(b.operations.deposit, now);
    }
  }

  /** With balances unmoved since admission, the transaction takes in more than it pays out by exactly the
      spends of the bundles that also deposit; it balances if and only if no bundle mixes the two. */
  lemma BalancedExactlyWhen(feeUtxo: UtxoId, bs: seq<SlotBundle>, admitted: map<BundleId, Balances>, now: Balances)
    requires FeesFrom(bs, admitted) && Steady(bs, admitted, now)
    ensures Net(TransactionOps(feeUtxo, bs), now) == MixedSpends(bs, now) >= 0
    ensures Net(TransactionOps(feeUtxo, bs), now) == 0 <==> forall b :: b in bs ==> !Mixes(b, now)
  {
    TransactionValue(feeUtxo, bs, admitted, now);
    ExcessIsMixedSpends(bs, admitted, now);
  }

  /** A bundle that deposits 5, spends a UTXO worth 3 and creates 4 pays a fee of 1: the 3 go nowhere. */
  lemma MixedBundleDoesNotBalance()
    ensures var balances: Balances := map["u" := 3];
      var ops := ClassifiedOperations([Create("c", 4)], [Spend("u", None)], [Deposit("a", 5)], []);
      BundleFee(ops, balances) == 1 && Net(Listed(ops) + [Create("fee", 1)], balances) == 3
  {
    var balances: Balances := map["u" := 3];
    var ops := ClassifiedOperations([Create("c", 4)], [Spend("u", None)], [Deposit("a", 5)], []);
    NetOfListed(ops, balances);
    NetAppend(Listed(ops), [Create("fee", 1)], balances);
    assert forall op: Operation :: Net([op][..0], balances) == 0 && Total([op][..0], balances) == 0;
    assert Net([Create("fee", 1)], balances) == -1;
  }

  // ---------- Over whole runs ----------

  /** The balances the last admission of each bundle read. */
  ghost function AdmittedBalances(cfg: Config, acts: seq<Action>, bs: seq<SlotBundle>): map<BundleId, Balances> {
    map id | id in Ids(bs) ::
      match LastAdmission(cfg, acts, id) case Some(adm) => adm.balances case None => map[]
  }

  lemma AdmissionIsClassified(adm: Admission)
    ensures WellClassified(adm.operations())
  {
    ClassificationPermutes(adm.submitted);
  }

  /** The operations each bundle was last submitted with. */
  ghost function SubmittedOps(cfg: Config, acts: seq<Action>, bs: seq<SlotBundle>): (r: seq<seq<Operation>>)
    ensures |r| == |bs|
    ensures forall i :: 0 <= i < |bs| ==>
      r[i] == match LastAdmission(cfg, acts, bs[i].bundleId) case Some(adm) => adm.submitted case None => []
  {
    seq(|bs|, i requires 0 <= i < |bs| =>
      match LastAdmission(cfg, acts, bs[i].bundleId) case Some(adm) => adm.submitted case None => [])
  }

  /** In every run, the transaction built from what is in flight is a rearrangement of what its submitters last
      handed in, with the fee operation added. */
  lemma FlightPermutes(cfg: Config, acts: seq<Action>, feeUtxo: UtxoId)
    ensures var bs := FlightBundles(After(cfg, acts));
      multiset(TransactionOps(feeUtxo, bs))
        == OperationBag(SubmittedOps(cfg, acts, bs)) + multiset{Create(feeUtxo, TotalFee(bs))}
  {
    var bs := FlightBundles(After(cfg, acts));
    var originals := SubmittedOps(cfg, acts, bs);
    forall i | 0 <= i < |bs| ensures bs[i].operations == ClassifyOperations(originals[i]) {
      assert bs[i] in bs;
      FlightPaysItsFee(cfg, acts, bs[i]);
    }
    TransactionPermutes(bs, originals, feeUtxo);
  }

  /** In every run, the transaction built from what is in flight is worth what its bundles' admissions
      left over, and nothing else; its fee is at least one unit per bundle. */
  lemma FlightConservesValue(cfg: Config, acts: seq<Action>, feeUtxo: UtxoId, now: Balances)
    ensures var bs := FlightBundles(After(cfg, acts));
      var admitted := AdmittedBalances(cfg, acts, bs);
      && FeesFrom(bs, admitted)
      && Net(TransactionOps(feeUtxo, bs), now) == TotalExcess(bs, admitted, now)
      && TotalFee(bs) >= |bs|
      && (Steady(bs, admitted, now) ==>
            (Net(TransactionOps(feeUtxo, bs), now) == 0 <==> forall b :: b in bs ==> !Mixes(b, now)))
  {
    var bs := FlightBundles(After(cfg, acts));
    var admitted := AdmittedBalances(cfg, acts, bs);
    forall b | b in bs
      ensures WellClassified(b.operations) && b.bundleId in admitted
      ensures b.fee == BundleFee(b.operations, admitted[b.bundleId]) && b.fee >= 1
    {
      FlightPaysItsFee(cfg, acts, b);
      AdmissionIsClassified(LastAdmission(cfg, acts, b.bundleId).value);
      CountMember(bs, b);
      CountIsMultiplicity(bs, b.bundleId);
    }
    TransactionValue(feeUtxo, bs, admitted, now);
    if Steady(bs, admitted, now) { BalancedExactlyWhen(feeUtxo, bs, admitted, now); }
  }
}
