/** `requestPayment`: idempotency check, rate limit on the sender, enqueue, wait for
    the job, save the key with the job's result. Each step short-circuits on failure. */
module PaymentService {
  import opened Wrappers
  import opened SimulatedLedger
  import opened AuditLog
  import opened Idempotency
  import opened PaymentWorker

  const RateLimitError := "Too many transactions from this wallet"

  datatype PaymentRequest = PaymentRequest(from: Wallet, to: Wallet, amount: int, idempotencyKey: string)

  /** What the pipeline's stores hold: the idempotency records, the wallets the rate
      limiter was charged for (in order) and the payloads added to the queue. */
  datatype ServiceState = ServiceState(store: Store, charged: seq<Wallet>, jobs: seq<JobData>)

  /** One `requestPayment` call. `limiterAccepts` is the rate limiter's verdict for this
      call, `finished` what waiting for the job yields (its return value, or the error it
      failed with), `serialize` is `JSON.stringify`, and the key is checked at
      `startedAt` and saved at `finishedAt`. */
  function Request(st: ServiceState, req: PaymentRequest, limiterAccepts: bool, finished: Result<Receipt>,
                   serialize: Receipt -> string, startedAt: int, finishedAt: int)
    : (r: (ServiceState, Result<Receipt>))
    ensures r.1.Ok? ==> finished.Ok? && r.1 == finished
    ensures r.1.Err? ==> r.0.store == st.store
    ensures r.0.jobs == st.jobs || r.0.jobs == st.jobs + [JobData(req.from, req.to, req.amount)]
  {
    match Check(st.store, req.idempotencyKey, startedAt)
    case Fail(e) => (st, Err(e))
    case Pass =>
      var charged := st.(charged := st.charged + [req.from]);
      if !limiterAccepts then (charged, Err(RateLimitError))
      else
        var queued := charged.(jobs := charged.jobs + [JobData(req.from, req.to, req.amount)]);
        match finished
        case Err(e) => (queued, Err(e))
        case Ok(result) =>
          (queued.(store := Save(queued.store, req.idempotencyKey, serialize(result), finishedAt)), Ok(result))
  }

  /** A duplicate key fails before the limiter is charged or any job is added. */
  lemma DuplicateChangesNothing(st: ServiceState, req: PaymentRequest, limiterAccepts: bool, finished: Result<Receipt>,
                                serialize: Receipt -> string, startedAt: int, finishedAt: int)
    requires IsDuplicate(st.store, req.idempotencyKey, startedAt)
    ensures Request(st, req, limiterAccepts, finished, serialize, startedAt, finishedAt)
      == (st, Err("Duplicate transaction detected"))
  {
  }

  /** A fresh key charges the limiter once, for the sender only. */
  lemma FreshKeyChargesSender(st: ServiceState, req: PaymentRequest, limiterAccepts: bool, finished: Result<Receipt>,
                              serialize: Receipt -> string, startedAt: int, finishedAt: int)
    requires !IsDuplicate(st.store, req.idempotencyKey, startedAt)
    ensures Request(st, req, limiterAccepts, finished, serialize, startedAt, finishedAt).0.charged
      == st.charged + [req.from]
  {
  }

  /** A rate-limit rejection adds no job and saves no key. */
  lemma RateLimitedAddsNoJob(st: ServiceState, req: PaymentRequest, finished: Result<Receipt>,
                             serialize: Receipt -> string, startedAt: int, finishedAt: int)
    requires !IsDuplicate(st.store, req.idempotencyKey, startedAt)
    ensures var (after, r) := Request(st, req, false, finished, serialize, startedAt, finishedAt);
      after.store == st.store && after.jobs == st.jobs && r == Err("Too many transactions from this wallet")
  {
  }

  /** An accepted request adds exactly `{from, to, amount}` to the queue; the key is
      not part of the payload. */
  lemma AcceptedRequestEnqueuesPayload(st: ServiceState, req: PaymentRequest, finished: Result<Receipt>,
                                       serialize: Receipt -> string, startedAt: int, finishedAt: int)
    requires !IsDuplicate(st.store, req.idempotencyKey, startedAt)
    ensures Request(st, req, true, finished, serialize, startedAt, finishedAt).0.jobs
      == st.jobs + [JobData(req.from, req.to, req.amount)]
  {
  }

  /** A failed job saves nothing, so the same key passes the check again later. */
  lemma FailedJobLeavesKeyFree(st: ServiceState, req: PaymentRequest, e: string,
                               serialize: Receipt -> string, startedAt: int, finishedAt: int, later: int)
    requires !IsDuplicate(st.store, req.idempotencyKey, startedAt)
    requires startedAt <= later
    ensures var (after, r) := Request(st, req, true, Err(e), serialize, startedAt, finishedAt);
      && after.store == st.store
      && r == Err(e)
      && Check(after.store, req.idempotencyKey, later) == Pass
  {
    FreeKeyStaysFree(st.store, req.idempotencyKey, startedAt, later);
  }

  /** A finished job's result is saved under the key and returned unchanged, and the
      same key is then rejected for the next 3600 seconds. */
  lemma FinishedJobSavesKey(st: ServiceState, req: PaymentRequest, result: Receipt,
                            serialize: Receipt -> string, startedAt: int, finishedAt: int, later: int)
    requires !IsDuplicate(st.store, req.idempotencyKey, startedAt)
    requires serialize(result) != ""
    requires finishedAt <= later < finishedAt + 3600
    ensures var (after, r) := Request(st, req, true, Ok(result), serialize, startedAt, finishedAt);
      && r == Ok(result)
      && after.store == Save(st.store, req.idempotencyKey, serialize(result), finishedAt)
      && Request(after, req, true, Ok(result), serialize, later, later) == (after, Err("Duplicate transaction detected"))
  {
    var after := Request(st, req, true, Ok(result), serialize, startedAt, finishedAt).0;
    SavedKeyIsDuplicate(st.store, req.idempotencyKey, serialize(result), finishedAt, later);
    DuplicateChangesNothing(after, req, true, Ok(result), serialize, later, later);
  }

  /** A tip of 100 from A to B on a fresh simulated ledger and a new log, run by the
      worker and returned through the service: A reads 900, B reads 1100, one
      `payment` record names the returned txId, and the result is the receipt. */
  lemma EndToEndTip(digest: string -> string, json: Fields -> string, serialize: Receipt -> string,
                    txId: string, timestamp: string, now: int)
    ensures var (ledger, log, done) := Handle(map[], Absent, JobData("A", "B", 100), Pass, txId, timestamp, digest, json);
      && BalanceOf(ledger, "A") == 900 && BalanceOf(ledger, "B") == 1100
      && log.Present? && |log.records| == 1
      && log.records[0].body["type"] == JStr("payment") && log.records[0].body["txId"] == JStr(txId)
      && log.records[0].body["prevHash"] == JStr("GENESIS")
      && var req := PaymentRequest("A", "B", 100, "k1");
      && var r := Request(ServiceState(map[], [], []), req, true, done, serialize, now, now).1;
      && r == Ok(Receipt(txId, "confirmed", "simulated"))
  {
    var job := JobData("A", "B", 100);
    TransferMovesAmount(map[], "A", "B", 100);
    SuccessfulJobAuditsOnce(map[], Absent, job, Pass, txId, timestamp, digest, json);
  }

  /** The rate limiter as the service sees it: every call is charged to the wallet
      it names, and `accepted` is the limiter's verdict. */
  class WalletLimiter {
    var charged: seq<Wallet>

    constructor ()
      ensures charged == []
    {
      charged := [];
    }

    method LimitWallet(wallet: Wallet, accepted: bool) returns (o: Outcome)
      modifies this
      ensures charged == old(charged) + [wallet]
      ensures o == if accepted then Pass else Fail(RateLimitError)
    {
      charged := charged + [wallet];
      o := if accepted then Pass else Fail(RateLimitError);
    }
  }

  /** The `payments` queue as the service sees it: the payloads added, in order. */
  class PaymentQueue {
    var added: seq<JobData>

    constructor ()
      ensures added == []
    {
      added := [];
    }

    method Add(data: JobData)
      modifies this
      ensures added == old(added) + [data]
    {
      added := added + [data];
    }
  }

  method RequestPayment(idem: IdempotencyStore, limiter: WalletLimiter, queue: PaymentQueue,
                        req: PaymentRequest, limiterAccepts: bool, finished: Result<Receipt>,
                        serialize: Receipt -> string, startedAt: int, finishedAt: int)
    returns (r: Result<Receipt>)
    modifies idem, limiter, queue
    ensures (ServiceState(idem.entries, limiter.charged, queue.added), r)
      == Request(ServiceState(old(idem.entries), old(limiter.charged), old(queue.added)),
                 req, limiterAccepts, finished, serialize, startedAt, finishedAt)
  {
    var checked := idem.CheckIdempotency(req.idempotencyKey, startedAt);
    if checked.Fail? {
      return Err(checked.error);
    }
    var limited := limiter.LimitWallet(req.from, limiterAccepts);
    if limited.Fail? {
      return Err(limited.error);
    }
    queue.Add(JobData(req.from, req.to, req.amount));
    if finished.Err? {
      return Err(finished.error);
    }
    var result := finished.value;
    idem.SaveIdempotency(req.idempotencyKey, serialize(result), finishedAt);
    r := Ok(result);
  }
}
