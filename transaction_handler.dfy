/** `sendTip`: one transfer through the selected adapter, with its outcome mapped to a
    `{success, txId, network}` or `{success: false, error}` record. */
module TransactionHandler {
  import opened Wrappers
  import opened SimulatedLedger

  /** `{success: true, txId, network}` or `{success: false, error}`. */
  datatype TipResult = TipOk(txId: string, network: string) | TipErr(error: string)
  {
    predicate Success() { TipOk? }
  }

  /** The body of the `try`/`catch`: any adapter's outcome becomes a result record,
      and the adapter's `status` is dropped. */
  function ToTipResult(outcome: Result<Receipt>): (r: TipResult)
    ensures r.Success() <==> outcome.Ok?
    ensures outcome.Ok? ==> r == TipOk(outcome.value.txId, outcome.value.network)
    ensures outcome.Err? ==> r == TipErr(outcome.error)
  {
    match outcome
    case Ok(tx) => TipOk(tx.txId, tx.network)
    case Err(message) => TipErr(message)
  }

  /** `sendTip` over the simulated ledger: the new ledger and the result record. */
  function Tip(ledger: Ledger, from: Wallet, to: Wallet, amount: int, txId: string): (r: (Ledger, TipResult))
    ensures r.1.Success() <==> amount <= BalanceOf(ledger, from)
    ensures !r.1.Success() ==> r.0 == ledger && r.1 == TipErr(InsufficientBalance)
  {
    match Transfer(ledger, from, to, amount)
    case Ok(after) => (after, ToTipResult(Ok(ReceiptFor(txId))))
    case Err(message) => (ledger, ToTipResult(Err(message)))
  }

  /** Two receipts that differ only in `status` give the same result. */
  lemma StatusIsNotCarried(a: Receipt, b: Receipt)
    requires a.txId == b.txId && a.network == b.network
    ensures ToTipResult(Ok(a)) == ToTipResult(Ok(b))
  {
  }

  /** An overdraft comes back as a failure record carrying the adapter's message,
      with every balance unchanged. */
  lemma OverdraftTip(ledger: Ledger, from: Wallet, to: Wallet, amount: int, txId: string)
    requires BalanceOf(ledger, from) < amount
    ensures Tip(ledger, from, to, amount, txId) == (ledger, TipErr("Insufficient balance (Simulated)"))
  {
  }

  /** A covered transfer comes back as a success record with the simulated network. */
  lemma CoveredTip(ledger: Ledger, from: Wallet, to: Wallet, amount: int, txId: string)
    requires amount <= BalanceOf(ledger, from)
    ensures var (after, r) := Tip(ledger, from, to, amount, txId);
      r == TipOk(txId, "simulated") && Transfer(ledger, from, to, amount) == Ok(after)
  {
  }

  /** `sendTip(from, to, amount)` never throws: every adapter error is caught. */
  method SendTip(adapter: SimulatedAdapter, from: Wallet, to: Wallet, amount: int, txId: string)
    returns (r: TipResult)
    modifies adapter
    ensures (adapter.ledger, r) == Tip(old(adapter.ledger), from, to, amount, txId)
  {
    var tx := adapter.SendTransaction(from, to, amount, txId);
    match tx {
      case Ok(receipt) =>
        r := TipOk(receipt.txId, receipt.network);
      case Err(message) =>
        r := TipErr(message);
    }
  }
}
