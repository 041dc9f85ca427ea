/**
 Value arithmetic: the fee computed for a bundle at admission, and the signed value of a list of operations.
 */
module Fees {
  import opened Sequences
  import opened Bundles

  /** On-chain UTXO balances; a UTXO the network does not report counts as zero. */
  type Balances = map<UtxoId, int>

  function BalanceOf(balances: Balances, utxo: UtxoId): int {
    if utxo in balances then balances[utxo] else 0
  }

  datatype OperationAmounts = OperationAmounts(totalDeposit: int, totalCreate: int, totalWithdraw: int, totalSpend: int)

  /** What an operation moves: the balance of the UTXO a spend consumes, else the amount it names. */
  function AmountOf(op: Operation, balances: Balances): int {
    if op.Spend? then BalanceOf(balances, op.utxo) else op.amount
  }

  function Total(ops: seq<Operation>, balances: Balances): int {
    if ops == [] then 0 else Total(ops[..|ops| - 1], balances) + AmountOf(ops[|ops| - 1], balances)
  }

  function CalculateOperationAmounts(ops: ClassifiedOperations, balances: Balances): OperationAmounts {
    OperationAmounts(Total(ops.deposit, balances), Total(ops.create, balances),
                     Total(ops.withdraw, balances), Total(ops.spend, balances))
  }

  /** `calculateFee`: spends pay for a bundle without deposits; deposits alone pay for one with them. */
  function CalculateFee(a: OperationAmounts): int {
    var outflows := a.totalCreate + a.totalWithdraw;
    if a.totalDeposit <= 0 then a.totalSpend - outflows else a.totalDeposit - outflows
  }

  function BundleFee(ops: ClassifiedOperations, balances: Balances): int {
    CalculateFee(CalculateOperationAmounts(ops, balances))
  }

  /** Spends of UTXOs the network does not report bring in nothing. */
  lemma {:induction false} UnreportedSpends(ops: seq<Operation>, balances: Balances)
    requires forall op :: op in ops ==> op.Spend? && op.utxo !in balances
    ensures Total(ops, balances) == 0
  {
    if ops == [] {
    } else {
      assert ops[|ops| - 1] in ops;
      UnreportedSpends(ops[..|ops| - 1], balances);
    }
  }

  // ---------- Signed value of a list of operations ----------

  /** Value an operation brings into the transaction, negative when it takes value out. */
  function NetValue(op: Operation, balances: Balances): int {
    match op
    case Create(_, a) => -a
    case Withdraw(_, a) => -a
    case Deposit(_, a) => a
    case Spend(u, _) => BalanceOf(balances, u)
  }

  function Net(ops: seq<Operation>, balances: Balances): int {
    if ops == [] then 0 else Net(ops[..|ops| - 1], balances) + NetValue(ops[|ops| - 1], balances)
  }

  lemma {:induction false} NetAppend(a: seq<Operation>, b: seq<Operation>, balances: Balances)
    ensures Net(a + b, balances) == Net(a, balances) + Net(b, balances)
  {
    if b == [] {
      assert a + b == a;
    } else {
      assert (a + b)[..|a + b| - 1] == a + b[..|b| - 1];
      NetAppend(a, b[..|b| - 1], balances);
    }
  }

  // ---------- Classification ----------

  /** The operations of a classified bundle in the order a transaction takes them. */
  function Listed(ops: ClassifiedOperations): seq<Operation> {
    ops.deposit + ops.create + ops.spend + ops.withdraw
  }

  /** Each list holds operations of its own kind only. */
  ghost predicate WellClassified(ops: ClassifiedOperations) {
    && (forall op :: op in ops.deposit ==> op.Deposit?)
    && (forall op :: op in ops.create ==> op.Create?)
    && (forall op :: op in ops.spend ==> op.Spend?)
    && (forall op :: op in ops.withdraw ==> op.Withdraw?)
  }

  /** Classifying loses, duplicates and misfiles nothing. */
  lemma ClassificationPermutes(operations: seq<Operation>)
    ensures WellClassified(ClassifyOperations(operations))
    ensures multiset(Listed(ClassifyOperations(operations))) == multiset(operations)
  {
    var c := ClassifyOperations(operations);
    forall op ensures multiset(Listed(c))[op] == multiset(operations)[op] {
      FilterCount(operations, (o: Operation) => o.Create?, op);
      FilterCount(operations, (o: Operation) => o.Spend?, op);
      FilterCount(operations, (o: Operation) => o.Deposit?, op);
      FilterCount(operations, (o: Operation) => o.Withdraw?, op);
    }
  }
}
