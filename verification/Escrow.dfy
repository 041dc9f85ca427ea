/**
 The custodial pay ledger: balances, escrows held for receivers without KYC, and transaction records. A
 custodial send debits its account and, for an unverified receiver, puts the amount in escrow in one step.
 */
module Escrow {
  import opened Sequences

  type Address = string

  datatype Mode = SelfCustody | Custodial
  datatype Account = Account(id: string, depositAddress: Address, balance: int, suspended: bool)
  datatype EscrowStatus = Held | Claimed
  datatype EscrowRecord = EscrowRecord(heldFor: Address, sender: Address, amount: int, status: EscrowStatus, mode: Mode)
  datatype PayType = Send | Receive
  datatype PayStatus = TxPending | TxCompleted
  datatype PayTx = PayTx(kind: PayType, status: PayStatus, amount: int, from: Address, to: Address, accountId: string,
                         mode: Mode)

  datatype Ledger = Ledger(accounts: seq<Account>, escrows: seq<EscrowRecord>, txs: seq<PayTx>)

  // ---------- Lookups ----------

  /** Position of the account with that id, or the length when there is none. */
  function AccountIndex(accounts: seq<Account>, id: string): (k: nat)
    ensures k <= |accounts|
    ensures k < |accounts| ==> accounts[k].id == id
    ensures forall i :: 0 <= i < k ==> accounts[i].id != id
  {
    if accounts == [] then 0 else if accounts[0].id == id then 0 else 1 + AccountIndex(accounts[1..], id)
  }

  /** Position of the first account with that deposit address, or the length when there is none. */
  function DepositIndex(accounts: seq<Account>, address: Address): (k: nat)
    ensures k <= |accounts|
    ensures k < |accounts| ==> accounts[k].depositAddress == address
    ensures forall i :: 0 <= i < k ==> accounts[i].depositAddress != address
  {
    if accounts == [] then 0
    else if accounts[0].depositAddress == address then 0
    else 1 + DepositIndex(accounts[1..], address)
  }

  predicate HasAccount(accounts: seq<Account>, address: Address) {
    exists i :: 0 <= i < |accounts| && accounts[i].depositAddress == address
  }

  predicate Claimable(e: EscrowRecord, address: Address) { e.heldFor == address && e.status.Held? }

  // ---------- Totals ----------

  function TotalBalance(accounts: seq<Account>): int {
    if accounts == [] then 0 else TotalBalance(accounts[..|accounts| - 1]) + accounts[|accounts| - 1].balance
  }

  /** Amount held for an address, in both modes or for custodial receivers only. */
  function HeldFor(escrows: seq<EscrowRecord>, address: Address, custodialOnly: bool): int {
    if escrows == [] then 0
    else
      var e := escrows[|escrows| - 1];
      HeldFor(escrows[..|escrows| - 1], address, custodialOnly)
      + (if Claimable(e, address) && (custodialOnly ==> e.mode.Custodial?) then e.amount else 0)
  }

  function HeldCount(escrows: seq<EscrowRecord>, address: Address): nat {
    if escrows == [] then 0
    else HeldCount(escrows[..|escrows| - 1], address) + (if Claimable(escrows[|escrows| - 1], address) then 1 else 0)
  }

  /** All custodial amounts in escrow. */
  function InEscrow(escrows: seq<EscrowRecord>): int {
    if escrows == [] then 0
    else
      var e := escrows[|escrows| - 1];
      InEscrow(escrows[..|escrows| - 1]) + (if e.status.Held? && e.mode.Custodial? then e.amount else 0)
  }

  /** All custodial sends still pending. */
  function InTransit(txs: seq<PayTx>): int {
    if txs == [] then 0
    else
      var t := txs[|txs| - 1];
      InTransit(txs[..|txs| - 1]) + (if t.kind.Send? && t.status.TxPending? && t.mode.Custodial? then t.amount else 0)
  }

  /** Everything the ledger owes its custodial users. */
  function Worth(l: Ledger): int { TotalBalance(l.accounts) + InEscrow(l.escrows) + InTransit(l.txs) }

  // ---------- Operations ----------

  datatype SendResult =
    | Sent | Escrowed
    | AmountNotPositive | CustodialSessionRequired | AccountNotFound | AccountSuspended | InsufficientBalance

  /** A send to a receiver with KYC waits for settlement; any other is complete once it is in escrow. */
  function SendTx(amount: int, from: Address, to: Address, accountId: string, mode: Mode, verified: bool): PayTx {
    PayTx(Send, if verified then TxPending else TxCompleted, amount, from, to, accountId, mode)
  }

  function CustodialSend(l: Ledger, accountId: string, to: Address, amount: int, verified: bool): (Ledger, SendResult) {
    var k := AccountIndex(l.accounts, accountId);
    if amount <= 0 then (l, AmountNotPositive)
    else if k == |l.accounts| then (l, AccountNotFound)
    else if l.accounts[k].suspended then (l, AccountSuspended)
    else if l.accounts[k].balance < amount then (l, InsufficientBalance)
    else
      var from := l.accounts[k].depositAddress;
      var accounts := l.accounts[k := l.accounts[k].(balance := l.accounts[k].balance - amount)];
      var txs := l.txs + [SendTx(amount, from, to, accountId, Custodial, verified)];
      if verified then (l.(accounts := accounts, txs := txs), Sent)
      else (Ledger(accounts, l.escrows + [EscrowRecord(to, from, amount, Held, Custodial)], txs), Escrowed)
  }

  function SelfSend(l: Ledger, accountId: Address, to: Address, amount: int, verified: bool): Ledger {
    if amount <= 0 then l
    else
      var held := if verified then [] else [EscrowRecord(to, accountId, amount, Held, SelfCustody)];
      l.(txs := l.txs + [SendTx(amount, accountId, to, accountId, SelfCustody, verified)], escrows := l.escrows + held)
  }

  /** The first account with that deposit address, if any, gets the amount. */
  function Credit(accounts: seq<Account>, address: Address, amount: int): seq<Account> {
    var k := DepositIndex(accounts, address);
    if k == |accounts| then accounts else accounts[k := accounts[k].(balance := accounts[k].balance + amount)]
  }

  /** The first `n` escrows with what is held for the address among them claimed. */
  function ClaimFirst(escrows: seq<EscrowRecord>, address: Address, n: nat): (r: seq<EscrowRecord>)
    requires n <= |escrows|
    ensures |r| == |escrows|
    ensures forall i :: 0 <= i < |r| ==>
      r[i] == if i < n && Claimable(escrows[i], address) then escrows[i].(status := Claimed) else escrows[i]
  {
    seq(|escrows|, i requires 0 <= i < |escrows| =>
      if i < n && Claimable(escrows[i], address) then escrows[i].(status := Claimed) else escrows[i])
  }

  function ReceiveTx(e: EscrowRecord, address: Address): PayTx {
    PayTx(Receive, TxCompleted, e.amount, e.sender, address, address, e.mode)
  }

  /** One completed receipt per escrow held for the address. */
  function Receipts(escrows: seq<EscrowRecord>, address: Address): seq<PayTx> {
    if escrows == [] then []
    else
      var e := escrows[|escrows| - 1];
      Receipts(escrows[..|escrows| - 1], address)
      + (if Claimable(e, address) then [ReceiveTx(e, address)] else [])
  }

  /** A claim as one update: the whole custodial amount is credited at once. */
  function Claim(l: Ledger, address: Address): Ledger {
    Ledger(Credit(l.accounts, address, HeldFor(l.escrows, address, true)),
           ClaimFirst(l.escrows, address, |l.escrows|),
           l.txs + Receipts(l.escrows, address))
  }

  // ---------- The ledger in place ----------

  datatype ClaimResult = ClaimResult(claimed: nat, totalAmount: int) | KycNotVerified

  class PayLedger {
    var accounts: seq<Account>
    var escrows: seq<EscrowRecord>
    var txs: seq<PayTx>

    function State(): Ledger
      reads this
    {
      Ledger(accounts, escrows, txs)
    }

    constructor (accounts: seq<Account>)
      ensures State() == Ledger(accounts, [], [])
    {
      this.accounts, escrows, txs := accounts, [], [];
    }

    method CreateEscrow(senderAddress: Address, receiverAddress: Address, amount: int, mode: Mode)
      modifies this`escrows
      ensures escrows == old(escrows) + [EscrowRecord(receiverAddress, senderAddress, amount, Held, mode)]
    {
      escrows := escrows + [EscrowRecord(receiverAddress, senderAddress, amount, Held, mode)];
    }

    /** The send handler with its debit and its escrow in one step. */
    method PostCustodialSend(custodialSession: bool, accountId: string, to: Address, amount: int,
                             receiverIsVerified: bool)
      returns (r: SendResult)
      modifies this
      ensures amount > 0 && !custodialSession ==> r == CustodialSessionRequired && State() == old(State())
      ensures amount <= 0 || custodialSession ==>
        var sent := CustodialSend(old(State()), accountId, to, amount, receiverIsVerified);
        State() == sent.0 && r == sent.1
    {
      if amount <= 0 { return AmountNotPositive; }
      if !custodialSession { return CustodialSessionRequired; }
      var k := AccountIndex(accounts, accountId);
      if k == |accounts| { return AccountNotFound; }
      var account := accounts[k];
      if account.suspended { return AccountSuspended; }
      if account.balance < amount { return InsufficientBalance; }
      accounts := accounts[k := account.(balance := account.balance - amount)];
      txs := txs + [SendTx(amount, account.depositAddress, to, accountId, Custodial, receiverIsVerified)];
      if receiverIsVerified { return Sent; }
      CreateEscrow(account.depositAddress, to, amount, Custodial);
      return Escrowed;
    }

    method ClaimEscrow(i: nat, address: Address)
      requires i < |escrows| && Claimable(escrows[i], address)
      modifies this
      ensures State() == ClaimOne(old(State()), address, i)
    {
      var escrow := escrows[i];
      if escrow.mode.Custodial? {
        var k := DepositIndex(accounts, address);
        if k < |accounts| {
          accounts := accounts[k := accounts[k].(balance := accounts[k].balance + escrow.amount)];
        }
      }
      escrows := escrows[i := escrow.(status := Claimed)];
      txs := txs + [ReceiveTx(escrow, address)];
    }

    /** `claimEscrowForAddress`: escrow by escrow, looking the account up again each time. */
    method ClaimEscrowForAddress(address: Address, kycVerified: bool) returns (r: ClaimResult)
      modifies this
      ensures !kycVerified ==> r == KycNotVerified && State() == old(State())
      ensures kycVerified ==> State() == Claim(old(State()), address)
      ensures kycVerified ==> r == ClaimResult(HeldCount(old(escrows), address), HeldFor(old(escrows), address, false))
    {
      if !kycVerified { return KycNotVerified; }
      ghost var before := State();
      var claimed, totalAmount := 0, 0;
      NothingClaimedYet(before, address);
      for i := 0 to |escrows|
        invariant |escrows| == |before.escrows|
        invariant State() == ClaimedUpTo(before, address, i)
        invariant claimed == HeldCount(before.escrows[..i], address)
        invariant totalAmount == HeldFor(before.escrows[..i], address, false)
      {
        var escrow := escrows[i];
        assert escrow == before.escrows[i] && before.escrows[..i + 1][..i] == before.escrows[..i];
        if Claimable(escrow, address) {
          ClaimEscrow(i, address);
          totalAmount := totalAmount + escrow.amount;
          claimed := claimed + 1;
        }
        ClaimedUpToNext(before, address, i);
      }
      AllClaimed(before, address);
      return ClaimResult(claimed, totalAmount);
    }

    /** What a verified claim would now return. */
    method GetEscrowSummary(address: Address) returns (count: nat, totalAmount: int)
      ensures count == HeldCount(escrows, address) && totalAmount == HeldFor(escrows, address, false)
    {
      count, totalAmount := 0, 0;
      for i := 0 to |escrows|
        invariant count == HeldCount(escrows[..i], address) && totalAmount == HeldFor(escrows[..i], address, false)
      {
        assert escrows[..i + 1][..i] == escrows[..i];
        if Claimable(escrows[i], address) {
          count, totalAmount := count + 1, totalAmount + escrows[i].amount;
        }
      }
      assert escrows[..|escrows|] == escrows;
    }
  }

  /** The ledger after the first `n` escrows have been looked at. */
  ghost function ClaimedUpTo(l: Ledger, address: Address, n: nat): Ledger
    requires n <= |l.escrows|
  {
    Ledger(Credit(l.accounts, address, HeldFor(l.escrows[..n], address, true)), ClaimFirst(l.escrows, address, n),
           l.txs + Receipts(l.escrows[..n], address))
  }

  /** One iteration of the claim loop. */
  ghost function ClaimOne(l: Ledger, address: Address, i: nat): Ledger
    requires i < |l.escrows|
  {
    var e := l.escrows[i];
    if !Claimable(e, address) then l
    else
      Ledger(if e.mode.Custodial? then Credit(l.accounts, address, e.amount) else l.accounts,
             l.escrows[i := e.(status := Claimed)],
             l.txs + [ReceiveTx(e, address)])
  }

  lemma CreditKeepsAddresses(accounts: seq<Account>, address: Address, amount: int)
    ensures var after := Credit(accounts, address, amount);
      && |after| == |accounts| && DepositIndex(after, address) == DepositIndex(accounts, address)
      && forall i :: 0 <= i < |after| ==> after[i] == accounts[i].(balance := after[i].balance)
  {
    var after := Credit(accounts, address, amount);
    var k := DepositIndex(accounts, address);
    assert forall i :: 0 <= i < |after| ==> after[i].depositAddress == accounts[i].depositAddress;
    var k' := DepositIndex(after, address);
    assert k < |after| ==> after[k].depositAddress == address;
    assert k' < |after| ==> accounts[k'].depositAddress == address;
  }

  /** Crediting twice is crediting the sum. */
  lemma CreditSum(accounts: seq<Account>, address: Address, a: int, b: int)
    ensures Credit(Credit(accounts, address, a), address, b) == Credit(accounts, address, a + b)
  {
    CreditKeepsAddresses(accounts, address, a);
  }

  lemma NothingClaimedYet(l: Ledger, address: Address)
    ensures ClaimedUpTo(l, address, 0) == l
  {
    assert Credit(l.accounts, address, 0) == l.accounts;
    assert ClaimFirst(l.escrows, address, 0) == l.escrows;
  }

  lemma ClaimedUpToNext(l: Ledger, address: Address, i: nat)
    requires i < |l.escrows|
    ensures ClaimOne(ClaimedUpTo(l, address, i), address, i) == ClaimedUpTo(l, address, i + 1)
  {
    var e := l.escrows[i];
    assert l.escrows[..i + 1][..i] == l.escrows[..i];
    CreditSum(l.accounts, address, HeldFor(l.escrows[..i], address, true), e.amount);
    if Claimable(e, address) {
      assert ClaimFirst(l.escrows, address, i)[i := e.(status := Claimed)] == ClaimFirst(l.escrows, address, i + 1);
    } else {
      assert ClaimFirst(l.escrows, address, i) == ClaimFirst(l.escrows, address, i + 1);
    }
  }

  lemma AllClaimed(l: Ledger, address: Address)
    ensures ClaimedUpTo(l, address, |l.escrows|) == Claim(l, address)
    ensures l.escrows[..|l.escrows|] == l.escrows
  {
    assert l.escrows[..|l.escrows|] == l.escrows;
  }

  // ---------- Conservation ----------

  lemma {:induction false} BalanceUpdate(accounts: seq<Account>, k: nat, a: Account)
    requires k < |accounts|
    ensures TotalBalance(accounts[k := a]) == TotalBalance(accounts) - accounts[k].balance + a.balance
  {
    var n := |accounts| - 1;
    if k == n {
      assert accounts[k := a][..n] == accounts[..n];
    } else {
      BalanceUpdate(accounts[..n], k, a);
      assert accounts[k := a][..n] == accounts[..n][k := a];
    }
  }

  /** A claim takes out of escrow exactly the custodial amount held for the address. */
  lemma {:induction false} ClaimEmptiesEscrow(escrows: seq<EscrowRecord>, address: Address)
    ensures InEscrow(ClaimFirst(escrows, address, |escrows|)) == InEscrow(escrows) - HeldFor(escrows, address, true)
  {
    if escrows == [] {
    } else {
      var n := |escrows| - 1;
      ClaimEmptiesEscrow(escrows[..n], address);
      assert ClaimFirst(escrows, address, |escrows|)[..n] == ClaimFirst(escrows[..n], address, n);
    }
  }

  lemma {:induction false} ReceiptsAreSettled(txs: seq<PayTx>, escrows: seq<EscrowRecord>, address: Address)
    ensures InTransit(txs + Receipts(escrows, address)) == InTransit(txs)
  {
    if escrows == [] {
      assert txs + [] == txs;
    } else {
      var n := |escrows| - 1;
      ReceiptsAreSettled(txs, escrows[..n], address);
      var front := txs + Receipts(escrows[..n], address);
      if Claimable(escrows[n], address) {
        var t := ReceiveTx(escrows[n], address);
        assert txs + Receipts(escrows, address) == front + [t];
        assert (front + [t])[..|front|] == front;
      } else {
        assert Receipts(escrows, address) == Receipts(escrows[..n], address);
      }
    }
  }

  lemma HasAccountAt(accounts: seq<Account>, address: Address)
    ensures HasAccount(accounts, address) <==> DepositIndex(accounts, address) < |accounts|
  {
  }

  /** What a claim drops: the custodial amount held for an address that no account has. */
  function Dropped(l: Ledger, address: Address): int {
    if HasAccount(l.accounts, address) then 0 else HeldFor(l.escrows, address, true)
  }

  lemma CreditTotal(accounts: seq<Account>, address: Address, amount: int)
    ensures TotalBalance(Credit(accounts, address, amount))
         == TotalBalance(accounts) + if HasAccount(accounts, address) then amount else 0
  {
    var k := DepositIndex(accounts, address);
    HasAccountAt(accounts, address);
    if k < |accounts| {
      BalanceUpdate(accounts, k, accounts[k].(balance := accounts[k].balance + amount));
    }
  }

  lemma ClaimWorth(l: Ledger, address: Address)
    ensures Worth(Claim(l, address)) == Worth(l) - Dropped(l, address)
  {
    CreditTotal(l.accounts, address, HeldFor(l.escrows, address, true));
    ClaimEmptiesEscrow(l.escrows, address);
    ReceiptsAreSettled(l.txs, l.escrows, address);
  }

  /** Escrowed amounts are positive and no balance is negative. */
  ghost predicate Solvent(l: Ledger) {
    && (forall i :: 0 <= i < |l.accounts| ==> l.accounts[i].balance >= 0)
    && (forall i :: 0 <= i < |l.escrows| ==> l.escrows[i].amount > 0)
  }

  lemma {:induction false} HeldNonNegative(escrows: seq<EscrowRecord>, address: Address)
    requires forall i :: 0 <= i < |escrows| ==> escrows[i].amount > 0
    ensures HeldFor(escrows, address, true) >= 0
    ensures HeldFor(escrows, address, true) == 0 <==>
      forall i :: 0 <= i < |escrows| ==> !(Claimable(escrows[i], address) && escrows[i].mode.Custodial?)
  {
    if escrows == [] {
    } else {
      var n := |escrows| - 1;
      HeldNonNegative(escrows[..n], address);
      assert forall i :: 0 <= i < n ==> escrows[..n][i] == escrows[i];
    }
  }

  /** A claim conserves the ledger's worth if and only if some account has the address or nothing custodial is
      held for it. */
  lemma ClaimConservesExactlyWhen(l: Ledger, address: Address)
    requires Solvent(l)
    ensures Worth(Claim(l, address)) == Worth(l) <==>
      HasAccount(l.accounts, address)
      || forall i :: 0 <= i < |l.escrows| ==> !(Claimable(l.escrows[i], address) && l.escrows[i].mode.Custodial?)
  {
    ClaimWorth(l, address);
    HeldNonNegative(l.escrows, address);
  }

  /** Seven units held for an address without an account are gone once claimed. */
  lemma UnmatchedClaimDrops()
    ensures var l := Ledger([], [EscrowRecord("G", "S", 7, Held, Custodial)], []);
      Worth(l) == 7 && Worth(Claim(l, "G")) == 0
  {
    var l := Ledger([], [EscrowRecord("G", "S", 7, Held, Custodial)], []);
    assert l.escrows[..0] == [];
    assert HeldFor(l.escrows[..0], "G", true) == 0 && InEscrow(l.escrows[..0]) == 0;
    ClaimWorth(l, "G");
  }

  lemma SendWorth(l: Ledger, accountId: string, to: Address, amount: int, verified: bool)
    ensures Worth(CustodialSend(l, accountId, to, amount, verified).0) == Worth(l)
  {
    var (l', r) := CustodialSend(l, accountId, to, amount, verified);
    if r.Sent? || r.Escrowed? {
      var k := AccountIndex(l.accounts, accountId);
      BalanceUpdate(l.accounts, k, l'.accounts[k]);
      assert l'.txs[..|l.txs|] == l.txs;
      if r.Escrowed? { assert l'.escrows[..|l.escrows|] == l.escrows; }
    }
  }

  lemma SelfSendWorth(l: Ledger, accountId: Address, to: Address, amount: int, verified: bool)
    ensures Worth(SelfSend(l, accountId, to, amount, verified)) == Worth(l)
  {
    var l' := SelfSend(l, accountId, to, amount, verified);
    if amount > 0 {
      assert l'.txs[..|l.txs|] == l.txs;
      if verified {
        assert l'.escrows == l.escrows;
      } else {
        assert l'.escrows[..|l.escrows|] == l.escrows;
      }
    }
  }

  // ---------- Runs ----------

  datatype PayAction =
    | DoSend(accountId: string, to: Address, amount: int, verified: bool)
    | DoSelfSend(from: Address, to: Address, amount: int, verified: bool)
    | DoClaim(address: Address, verified: bool)
    | Register(id: string, depositAddress: Address)
    | SetSuspended(k: nat, suspended: bool)

  function Step(l: Ledger, a: PayAction): Ledger {
    match a
    case DoSend(accountId, to, amount, verified) => CustodialSend(l, accountId, to, amount, verified).0
    case DoSelfSend(from, to, amount, verified) => SelfSend(l, from, to, amount, verified)
    case DoClaim(address, verified) => if verified then Claim(l, address) else l
    case Register(id, address) => l.(accounts := l.accounts + [Account(id, address, 0, false)])
    case SetSuspended(k, suspended) =>
      if k < |l.accounts| then l.(accounts := l.accounts[k := l.accounts[k].(suspended := suspended)]) else l
  }

  function Run(l: Ledger, acts: seq<PayAction>): Ledger {
    if acts == [] then l else Step(Run(l, acts[..|acts| - 1]), acts[|acts| - 1])
  }

  /** What one step drops. */
  function StepDropped(l: Ledger, a: PayAction): int {
    if a.DoClaim? && a.verified then Dropped(l, a.address) else 0
  }

  /** Custodial amounts claimed in the run for addresses that had no account at the time. */
  function TotalDropped(l: Ledger, acts: seq<PayAction>): int {
    if acts == [] then 0
    else TotalDropped(l, acts[..|acts| - 1]) + StepDropped(Run(l, acts[..|acts| - 1]), acts[|acts| - 1])
  }

  lemma AccountChangesWorth(l: Ledger, a: PayAction)
    requires a.Register? || a.SetSuspended?
    ensures Worth(Step(l, a)) == Worth(l)
  {
    if a.Register? {
      assert (l.accounts + [Account(a.id, a.depositAddress, 0, false)])[..|l.accounts|] == l.accounts;
    } else if a.k < |l.accounts| {
      BalanceUpdate(l.accounts, a.k, l.accounts[a.k].(suspended := a.suspended));
    }
  }

  lemma StepWorth(l: Ledger, a: PayAction)
    ensures Worth(Step(l, a)) + StepDropped(l, a) == Worth(l)
  {
    match a
    case DoSend(accountId, to, amount, verified) => SendWorth(l, accountId, to, amount, verified);
    case DoSelfSend(from, to, amount, verified) => SelfSendWorth(l, from, to, amount, verified);
    case DoClaim(address, verified) => if verified { ClaimWorth(l, address); }
    case _ => AccountChangesWorth(l, a);
  }

  /** Conservation: over any run, balances, custodial escrows and pending custodial sends, together with what was
      claimed for addresses without an account, stay what they were. */
  lemma {:induction false} RunConserves(l: Ledger, acts: seq<PayAction>)
    ensures Worth(Run(l, acts)) + TotalDropped(l, acts) == Worth(l)
  {
    if acts == [] {
    } else {
      RunConserves(l, acts[..|acts| - 1]);
      StepWorth(Run(l, acts[..|acts| - 1]), acts[|acts| - 1]);
    }
  }

  lemma StepKeepsSolvent(l: Ledger, a: PayAction)
    requires Solvent(l)
    ensures Solvent(Step(l, a))
  {
    if a.DoClaim? && a.verified { HeldNonNegative(l.escrows, a.address); }
  }

  /** No balance ever goes negative. */
  lemma {:induction false} NeverNegative(l: Ledger, acts: seq<PayAction>)
    requires Solvent(l)
    ensures Solvent(Run(l, acts))
  {
    if acts == [] {
    } else {
      NeverNegative(l, acts[..|acts| - 1]);
      StepKeepsSolvent(Run(l, acts[..|acts| - 1]), acts[|acts| - 1]);
    }
  }

  // ---------- Each escrow once ----------

  /** Step `a` claims the escrow at position `i`. */
  predicate Claims(l: Ledger, a: PayAction, i: nat) {
    a.DoClaim? && a.verified && i < |l.escrows| && Claimable(l.escrows[i], a.address)
  }

  function TimesClaimed(l: Ledger, acts: seq<PayAction>, i: nat): nat {
    if acts == [] then 0
    else
      var n := |acts| - 1;
      TimesClaimed(l, acts[..n], i) + (if Claims(Run(l, acts[..n]), acts[n], i) then 1 else 0)
  }

  /** Escrow records are never removed, and apart from their status never changed. */
  lemma StepKeepsEscrows(l: Ledger, a: PayAction, i: nat)
    requires i < |l.escrows|
    ensures var l' := Step(l, a);
      && i < |l'.escrows|
      && l'.escrows[i] == if Claims(l, a, i) then l.escrows[i].(status := Claimed) else l.escrows[i]
  {
  }

  lemma StepAddsHeldEscrows(l: Ledger, a: PayAction, i: nat)
    requires |l.escrows| <= i < |Step(l, a).escrows|
    ensures Step(l, a).escrows[i].status.Held?
  {
  }

  /** An escrow that was not claimed at the start is claimed at most once in any run, and is CLAIMED exactly when
      that has happened. */
  lemma {:induction false} ClaimedAtMostOnce(l: Ledger, acts: seq<PayAction>, i: nat)
    requires i < |l.escrows| ==> l.escrows[i].status.Held?
    ensures var l' := Run(l, acts);
      && (i >= |l'.escrows| ==> TimesClaimed(l, acts, i) == 0)
      && (i < |l'.escrows| ==> TimesClaimed(l, acts, i) == if l'.escrows[i].status.Claimed? then 1 else 0)
  {
    if acts == [] {
    } else {
      var n := |acts| - 1;
      var before := Run(l, acts[..n]);
      ClaimedAtMostOnce(l, acts[..n], i);
      if i < |before.escrows| {
        StepKeepsEscrows(before, acts[n], i);
      } else if i < |Step(before, acts[n]).escrows| {
        StepAddsHeldEscrows(before, acts[n], i);
      }
    }
  }

  /** After a claim nothing is held for the address any more, so a second claim finds nothing. */
  lemma {:induction false} ClaimLeavesNothing(escrows: seq<EscrowRecord>, address: Address)
    ensures var after := ClaimFirst(escrows, address, |escrows|);
      HeldCount(after, address) == 0 && HeldFor(after, address, false) == 0 && HeldFor(after, address, true) == 0
  {
    if escrows == [] {
    } else {
      var n := |escrows| - 1;
      ClaimLeavesNothing(escrows[..n], address);
      assert ClaimFirst(escrows, address, |escrows|)[..n] == ClaimFirst(escrows[..n], address, n);
    }
  }

  lemma {:induction false} HeldForAppend(escrows: seq<EscrowRecord>, e: EscrowRecord, address: Address)
    ensures HeldFor(escrows + [e], address, true)
         == HeldFor(escrows, address, true) + if Claimable(e, address) && e.mode.Custodial? then e.amount else 0
  {
    assert (escrows + [e])[..|escrows|] == escrows;
  }

  /** End to end: a send to an unverified receiver followed by the receiver's claim takes the amount from the
      sender's account and gives it, with whatever else was held, to the receiver's; no other account changes. */
  lemma SendThenClaim(l: Ledger, accountId: string, to: Address, amount: int, i: nat)
    requires CustodialSend(l, accountId, to, amount, false).1.Escrowed? && i < |l.accounts|
    ensures var sender, receiver := AccountIndex(l.accounts, accountId), DepositIndex(l.accounts, to);
      var after := Claim(CustodialSend(l, accountId, to, amount, false).0, to).accounts;
      && |after| == |l.accounts|
      && after[i] == l.accounts[i].(balance := l.accounts[i].balance
           - (if i == sender then amount else 0)
           + (if i == receiver then HeldFor(l.escrows, to, true) + amount else 0))
  {
    var sent := CustodialSend(l, accountId, to, amount, false).0;
    var k := AccountIndex(l.accounts, accountId);
    HeldForAppend(l.escrows, sent.escrows[|l.escrows|], to);
    SameDepositIndex(l.accounts, sent.accounts, to);
  }

  lemma SameDepositIndex(a: seq<Account>, b: seq<Account>, address: Address)
    requires |a| == |b| && forall i :: 0 <= i < |a| ==> a[i].depositAddress == b[i].depositAddress
    ensures DepositIndex(a, address) == DepositIndex(b, address)
  {
    var k, k' := DepositIndex(a, address), DepositIndex(b, address);
    assert k < |b| ==> b[k].depositAddress == address;
    assert k' < |a| ==> a[k'].depositAddress == address;
  }

  // ---------- What records say ----------

  function HeldBy(address: Address): EscrowRecord -> bool {
    (e: EscrowRecord) => e.heldFor == address && e.status.Held?
  }

  /** The escrows held for an address, in table order. */
  ghost function HeldRecords(escrows: seq<EscrowRecord>, address: Address): seq<EscrowRecord> {
    Filter(escrows, HeldBy(address))
  }

  function AmountOf(escrows: seq<EscrowRecord>): int {
    if escrows == [] then 0 else AmountOf(escrows[..|escrows| - 1]) + escrows[|escrows| - 1].amount
  }

  /** A completed receipt of the escrow's amount, from its sender to the address that claims. */
  predicate ReceiptOf(t: PayTx, e: EscrowRecord, address: Address) {
    && t.kind.Receive? && t.status.TxCompleted? && t.amount == e.amount && t.mode == e.mode
    && t.from == e.sender && t.to == address && t.accountId == address
  }

  lemma HeldNext(escrows: seq<EscrowRecord>, address: Address)
    requires escrows != []
    ensures var held, e := HeldRecords(escrows[..|escrows| - 1], address), escrows[|escrows| - 1];
      HeldRecords(escrows, address) == if Claimable(e, address) then held + [e] else held
  {
  }

  lemma AmountSnoc(held: seq<EscrowRecord>, e: EscrowRecord)
    ensures AmountOf(held + [e]) == AmountOf(held) + e.amount
  {
    assert (held + [e])[..|held|] == held;
  }

  /** The summary counts the escrows held for the address and adds up their amounts. */
  lemma {:induction false} SummaryMeans(escrows: seq<EscrowRecord>, address: Address)
    ensures HeldCount(escrows, address) == |HeldRecords(escrows, address)|
    ensures HeldFor(escrows, address, false) == AmountOf(HeldRecords(escrows, address))
  {
    if escrows == [] {
    } else {
      var front := escrows[..|escrows| - 1];
      SummaryMeans(front, address);
      HeldNext(escrows, address);
      AmountSnoc(HeldRecords(front, address), escrows[|escrows| - 1]);
    }
  }

  ghost predicate ReceiptsFor(receipts: seq<PayTx>, held: seq<EscrowRecord>, address: Address) {
    |receipts| == |held| && forall j :: 0 <= j < |held| ==> ReceiptOf(receipts[j], held[j], address)
  }

  /** A claim writes one receipt for each escrow held for the address, in order. */
  lemma {:induction false} ReceiptsMean(escrows: seq<EscrowRecord>, address: Address)
    ensures ReceiptsFor(Receipts(escrows, address), HeldRecords(escrows, address), address)
  {
    if escrows == [] {
    } else {
      ReceiptsMean(escrows[..|escrows| - 1], address);
      HeldNext(escrows, address);
    }
  }

  /** A successful send debits the sender's account alone and records the amount from its deposit address to the
      receiver: pending when the receiver has KYC, else complete and held in escrow for the receiver. */
  lemma SendRecords(l: Ledger, accountId: string, to: Address, amount: int, verified: bool)
    requires var r := CustodialSend(l, accountId, to, amount, verified).1; r.Sent? || r.Escrowed?
    ensures var l' := CustodialSend(l, accountId, to, amount, verified).0;
      var k := AccountIndex(l.accounts, accountId);
      && k < |l.accounts| && l.accounts[k].id == accountId && 0 < amount <= l.accounts[k].balance
      && |l'.accounts| == |l.accounts|
      && (forall i :: 0 <= i < |l.accounts| ==>
            l'.accounts[i] == l.accounts[i].(balance := l.accounts[i].balance - (if i == k then amount else 0)))
      && |l'.txs| == |l.txs| + 1 && l'.txs[..|l.txs|] == l.txs
      && RecordOf(l'.txs[|l.txs|], amount, l.accounts[k].depositAddress, to, accountId, verified)
      && (verified ==> l'.escrows == l.escrows)
      && (!verified ==>
            && |l'.escrows| == |l.escrows| + 1 && l'.escrows[..|l.escrows|] == l.escrows
            && HeldOf(l'.escrows[|l.escrows|], amount, l.accounts[k].depositAddress, to))
  {
  }

  /** The answer of a send, condition by condition; a refusal changes nothing. */
  lemma SendAnswers(l: Ledger, accountId: string, to: Address, amount: int, verified: bool)
    ensures var (l', r) := CustodialSend(l, accountId, to, amount, verified);
      var k := AccountIndex(l.accounts, accountId);
      var known := amount > 0 && exists a :: a in l.accounts && a.id == accountId;
      && (r.AmountNotPositive? <==> amount <= 0)
      && (r.AccountNotFound? <==> amount > 0 && !known)
      && (r.AccountSuspended? <==> known && k < |l.accounts| && l.accounts[k].suspended)
      && (r.InsufficientBalance? <==>
            known && k < |l.accounts| && !l.accounts[k].suspended && l.accounts[k].balance < amount)
      && (r.Sent? ==> verified) && (r.Escrowed? ==> !verified) && !r.CustodialSessionRequired?
      && (r.Sent? || r.Escrowed? || l' == l)
  {
    var k := AccountIndex(l.accounts, accountId);
    if k < |l.accounts| { assert l.accounts[k] in l.accounts; }
  }

  predicate RecordOf(t: PayTx, amount: int, from: Address, to: Address, accountId: string, verified: bool) {
    && t.kind.Send? && t.mode.Custodial? && t.amount == amount
    && t.from == from && t.to == to && t.accountId == accountId
    && (t.status.TxPending? <==> verified)
  }

  predicate HeldOf(e: EscrowRecord, amount: int, from: Address, to: Address) {
    e.status.Held? && e.mode.Custodial? && e.amount == amount && e.sender == from && e.heldFor == to
  }
}
