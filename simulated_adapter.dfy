/** The in-memory ledger backend: a map from wallet to stored balance, read with a
    default of 1000, and a transfer that checks funds, debits, then credits. */
module SimulatedLedger {
  import opened Wrappers

  type Wallet = string
  /** Stored balances; a wallet absent from the map was never written. */
  type Ledger = map<Wallet, int>

  const DefaultBalance := 1000
  const InsufficientBalance := "Insufficient balance (Simulated)"
  const Confirmed := "confirmed"
  const Network := "simulated"

  /** What a ledger backend reports for a transfer it carried out. */
  datatype Receipt = Receipt(txId: string, status: string, network: string)

  /** What `verifyTransaction` reports. */
  datatype TxStatus = TxStatus(txId: string, status: string)

  /** `ledger.get(address) || 1000`: a missing entry and a stored 0 are both falsy,
      so both read as the default balance. */
  function BalanceOf(ledger: Ledger, w: Wallet): (b: int)
    ensures b != 0
    ensures w in ledger && ledger[w] != 0 ==> b == ledger[w]
  {
    if w in ledger && ledger[w] != 0 then ledger[w] else DefaultBalance
  }

  /** The ledger after `sendTransaction(from, to, amount)`, or its error. The credit
      reads `to` AFTER the debit was stored, which matters when `from == to`. */
  function Transfer(ledger: Ledger, from: Wallet, to: Wallet, amount: int): (r: Result<Ledger>)
    ensures r.Err? <==> BalanceOf(ledger, from) < amount
    ensures r.Err? ==> r.error == InsufficientBalance
    ensures r.Ok? ==> r.value.Keys == ledger.Keys + {from, to}
  {
    var fromBalance := BalanceOf(ledger, from);
    if fromBalance < amount then Err(InsufficientBalance)
    else
      var debited := ledger[from := fromBalance - amount];
      Ok(debited[to := BalanceOf(debited, to) + amount])
  }

  /** The receipt of every successful simulated transfer. */
  function ReceiptFor(txId: string): (r: Receipt)
    ensures r.txId == txId && r.status == "confirmed" && r.network == "simulated"
  {
    Receipt(txId, Confirmed, Network)
  }

  lemma UnwrittenWalletReadsDefault(ledger: Ledger, w: Wallet)
    requires w !in ledger
    ensures BalanceOf(ledger, w) == 1000
  {
  }

  /** Because of `||`, a stored balance of exactly 0 reads back as 1000. */
  lemma StoredZeroReadsDefault(ledger: Ledger, w: Wallet)
    requires w in ledger && ledger[w] == 0
    ensures BalanceOf(ledger, w) == 1000
  {
  }

  /** Between two distinct wallets, the debit and the credit are stored exactly,
      and their stored sum equals the sum of the balances read before. */
  lemma TransferMovesAmount(ledger: Ledger, from: Wallet, to: Wallet, amount: int)
    requires from != to
    requires BalanceOf(ledger, from) >= amount
    ensures Transfer(ledger, from, to, amount).Ok?
    ensures var l := Transfer(ledger, from, to, amount).value;
      && l[from] == BalanceOf(ledger, from) - amount
      && l[to] == BalanceOf(ledger, to) + amount
      && l[from] + l[to] == BalanceOf(ledger, from) + BalanceOf(ledger, to)
  {
  }

  /** A transfer touches no wallet other than `from` and `to`. */
  lemma TransferFrame(ledger: Ledger, from: Wallet, to: Wallet, amount: int, w: Wallet)
    requires w != from && w != to
    requires Transfer(ledger, from, to, amount).Ok?
    ensures var l := Transfer(ledger, from, to, amount).value;
      (w in l <==> w in ledger) && (w in ledger ==> l[w] == ledger[w])
      && BalanceOf(l, w) == BalanceOf(ledger, w)
  {
  }

  /** A transfer to oneself of less than the balance leaves the balance as read. */
  lemma SelfTransferKeepsBalance(ledger: Ledger, w: Wallet, amount: int)
    requires amount < BalanceOf(ledger, w)
    ensures Transfer(ledger, w, w, amount).Ok?
    ensures Transfer(ledger, w, w, amount).value[w] == BalanceOf(ledger, w)
  {
  }

  /** A transfer to oneself of the whole balance stores 0 first, which then reads as
      1000, so the wallet ends with 1000 more than it had. */
  lemma SelfTransferOfWholeBalanceMints(ledger: Ledger, w: Wallet)
    ensures var b := BalanceOf(ledger, w);
      Transfer(ledger, w, w, b) == Ok(ledger[w := DefaultBalance + b])
  {
    var b := BalanceOf(ledger, w);
    var debited := ledger[w := 0];
    assert BalanceOf(debited, w) == DefaultBalance;
    assert debited[w := DefaultBalance + b] == ledger[w := DefaultBalance + b];
  }

  /** Draining a wallet to exactly 0 makes it read the default balance again. */
  lemma DrainedWalletReadsDefault(ledger: Ledger, from: Wallet, to: Wallet)
    requires from != to
    ensures var r := Transfer(ledger, from, to, BalanceOf(ledger, from));
      r.Ok? && BalanceOf(r.value, from) == DefaultBalance
  {
  }

  class SimulatedAdapter {
    var ledger: Ledger

    constructor ()
      ensures ledger == map[]
    {
      ledger := map[];
    }

    method GetBalance(address: Wallet) returns (b: int)
      ensures b == BalanceOf(ledger, address)
    {
      if address in ledger && ledger[address] != 0 {
        b := ledger[address];
      } else {
        b := DefaultBalance;
      }
    }

    /** `txId` stands for the fresh uuid v4 the source draws. */
    method SendTransaction(from: Wallet, to: Wallet, amount: int, txId: string) returns (r: Result<Receipt>)
      modifies this
      ensures Transfer(old(ledger), from, to, amount).Ok? ==>
        ledger == Transfer(old(ledger), from, to, amount).value && r == Ok(ReceiptFor(txId))
      ensures Transfer(old(ledger), from, to, amount).Err? ==>
        ledger == old(ledger) && r == Err(InsufficientBalance)
    {
      var fromBalance := GetBalance(from);
      if fromBalance < amount {
        return Err(InsufficientBalance);
      }
      ledger := ledger[from := fromBalance - amount];
      var toBalance := GetBalance(to);
      ledger := ledger[to := toBalance + amount];
      r := Ok(Receipt(txId, Confirmed, Network));
    }

    method VerifyTransaction(txId: string) returns (s: TxStatus)
      ensures s.txId == txId && s.status == "confirmed"
    {
      s := TxStatus(txId, Confirmed);
    }
  }
}
