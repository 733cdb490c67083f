/** The `payments` queue's job handler: transfer through the circuit breaker, then
    append a `payment` audit record, then return the ledger's receipt. */
module PaymentWorker {
  import opened Wrappers
  import opened SimulatedLedger
  import opened AuditLog

  /** The job payload `{from, to, amount}`. */
  datatype JobData = JobData(from: Wallet, to: Wallet, amount: int)

  /** The audit entry written for a settled transfer. */
  function PaymentEntry(job: JobData, tx: Receipt): (entry: Fields)
    ensures entry.Keys == {"type", "from", "to", "amount", "txId", "network"}
    ensures entry["type"] == JStr("payment") && entry["txId"] == JStr(tx.txId) && entry["network"] == JStr(tx.network)
  {
    map["type" := JStr("payment"), "from" := JStr(job.from), "to" := JStr(job.to),
        "amount" := JNum(job.amount), "txId" := JStr(tx.txId), "network" := JStr(tx.network)]
  }

  /** The handler's effect on the ledger and the log, and its outcome. `breaker` is the
      circuit breaker's verdict on this call: `Pass` lets it through to the adapter,
      `Fail(e)` rejects it with `e` without calling the adapter. */
  function Handle(ledger: Ledger, log: LogFile, job: JobData, breaker: Outcome, txId: string,
                  timestamp: string, digest: string -> string, json: Fields -> string)
    : (r: (Ledger, LogFile, Result<Receipt>))
    ensures r.2.Err? ==> r.1 == log
    ensures r.2.Err? && (breaker.Fail? || BalanceOf(ledger, job.from) < job.amount) ==> r.0 == ledger
    ensures r.2.Ok? ==> r.2 == Ok(ReceiptFor(txId)) && r.1.Present? && |r.1.records| == |Records(log)| + 1
  {
    if breaker.Fail? then (ledger, log, Err(breaker.error))
    else
      match Transfer(ledger, job.from, job.to, job.amount)
      case Err(e) => (ledger, log, Err(e))
      case Ok(after) =>
        var tx := ReceiptFor(txId);
        match Append(log, PaymentEntry(job, tx), timestamp, digest, json)
        case Err(e) => (after, log, Err(e))
        case Ok(written) => (after, written, Ok(tx))
  }

  /** A successful job has transferred, appended exactly one `payment` record that
      carries the job's parties and amount and the receipt's txId and network, and
      returned the receipt unchanged. */
  lemma SuccessfulJobAuditsOnce(ledger: Ledger, log: LogFile, job: JobData, breaker: Outcome, txId: string,
                                timestamp: string, digest: string -> string, json: Fields -> string)
    requires Handle(ledger, log, job, breaker, txId, timestamp, digest, json).2.Ok?
    ensures var (after, written, r) := Handle(ledger, log, job, breaker, txId, timestamp, digest, json);
      && breaker == Pass
      && Transfer(ledger, job.from, job.to, job.amount) == Ok(after)
      && r == Ok(ReceiptFor(txId))
      && written.Present?
      && |written.records| == |Records(log)| + 1
      && written.records[..|Records(log)|] == Records(log)
      && var body := written.records[|Records(log)|].body;
      && body["type"] == JStr("payment")
      && body["from"] == JStr(job.from) && body["to"] == JStr(job.to) && body["amount"] == JNum(job.amount)
      && body["txId"] == JStr(r.value.txId) && body["network"] == JStr(r.value.network)
  {
    var tx := ReceiptFor(txId);
    AppendAddsOneRecord(log, PaymentEntry(job, tx), timestamp, digest, json);
  }

  /** A failed transfer writes no audit record and its error propagates. */
  lemma FailedTransferIsNotAudited(ledger: Ledger, log: LogFile, job: JobData, txId: string,
                                   timestamp: string, digest: string -> string, json: Fields -> string)
    requires BalanceOf(ledger, job.from) < job.amount
    ensures Handle(ledger, log, job, Pass, txId, timestamp, digest, json)
      == (ledger, log, Err("Insufficient balance (Simulated)"))
  {
  }

  /** A call the breaker rejects touches neither the ledger nor the log. */
  lemma RejectedCallHasNoEffect(ledger: Ledger, log: LogFile, job: JobData, e: string, txId: string,
                                timestamp: string, digest: string -> string, json: Fields -> string)
    ensures Handle(ledger, log, job, Fail(e), txId, timestamp, digest, json) == (ledger, log, Err(e))
  {
  }

  /** When the audit append throws, the job fails although the transfer took effect. */
  lemma AuditFailureAfterTransfer(ledger: Ledger, job: JobData, txId: string,
                                  timestamp: string, digest: string -> string, json: Fields -> string)
    requires job.amount <= BalanceOf(ledger, job.from)
    ensures var (after, written, r) := Handle(ledger, Present([]), job, Pass, txId, timestamp, digest, json);
      && Transfer(ledger, job.from, job.to, job.amount) == Ok(after)
      && written == Present([])
      && r == Err("Unexpected end of JSON input")
  {
  }

  /** The handler keeps a valid audit chain valid, whatever the outcome. */
  lemma HandlePreservesChain(ledger: Ledger, log: LogFile, job: JobData, breaker: Outcome, txId: string,
                             timestamp: string, digest: string -> string, json: Fields -> string)
    requires ValidChain(Records(log), digest, json)
    ensures ValidChain(Records(Handle(ledger, log, job, breaker, txId, timestamp, digest, json).1), digest, json)
  {
    if breaker.Pass? && Transfer(ledger, job.from, job.to, job.amount).Ok? && log != Present([]) {
      AppendPreservesChain(log, PaymentEntry(job, ReceiptFor(txId)), timestamp, digest, json);
    }
  }

  /** The worker's job handler, over the simulated adapter and the audit file. `txId`
      is the uuid the adapter draws and `timestamp` the time of the audit write. */
  method HandlePaymentJob(adapter: SimulatedAdapter, log: AuditLogFile, job: JobData, breaker: Outcome,
                          txId: string, timestamp: string)
    returns (r: Result<Receipt>)
    modifies adapter, log
    ensures (adapter.ledger, log.file, r)
      == Handle(old(adapter.ledger), old(log.file), job, breaker, txId, timestamp, log.digest, log.json)
  {
    if breaker.Fail? {
      return Err(breaker.error);
    }
    var tx := adapter.SendTransaction(job.from, job.to, job.amount, txId);
    if tx.Err? {
      return Err(tx.error);
    }
    var written := log.WriteAudit(PaymentEntry(job, tx.value), timestamp);
    if written.Fail? {
      return Err(written.error);
    }
    r := tx;
  }
}
