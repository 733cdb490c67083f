/** The rule-based Pi coin verifier: origin, exchange-history, flag and oracle checks
    in that order, a ledger of verified and flagged history hashes, and counters that
    record successes per origin and rejections per kind. */
module PiVerifier {
  import opened Wrappers

  const StableValue := 314159
  const VerifiedOrigins: set<string> := {"mined", "reward", "p2p"}

  const InvalidOriginReason := "Origin not allowed: must be mined, reward, or P2P"
  const ExchangeReason := "Pi Coin has exchange history or unclear source"
  const FlaggedReason := "Unclear or flagged source detected"
  const OracleReason := "Oracle confirmation failed"
  /** What calling the undefined `this.flagTransaction` throws. */
  const FlagTransactionError := "this.flagTransaction is not a function"
  /** What reading `piCoins[0].id` of an empty list throws. */
  const NoCoinError := "Cannot read properties of undefined (reading 'id')"

  /** One step of a coin's history: its `source` and `destination`, the truthiness of
      its `unverified` field, and `json`, the step's own serialisation with every field
      it carries (amounts, ids, a raw `unverified`), which is what the hash covers. */
  datatype HistoryTx = HistoryTx(source: string, destination: string, unverified: bool, json: string)

  /** What one verification draws from outside: the oracle's reply (the value of
      `Math.random() > 0.05`) and the value of `Date.now()`. */
  datatype Draw = Draw(answer: bool, now: int)

  /** A ledger entry: written by a successful verification, or by `flagSource`. */
  datatype LedgerEntry = VerifiedEntry(value: int, timestamp: int) | FlagEntry(flagged: bool)
  {
    /** `entry.flagged` is truthy. */
    predicate Flagged() { FlagEntry? && flagged }
  }

  datatype OracleRecord = OracleRecord(confirmed: bool, value: int)

  datatype OriginStats = OriginStats(successes: nat, hashes: seq<string>)

  /** `{verified: true, value, hash}` or `{verified: false, reason, value}`. */
  datatype Verification = Accepted(value: int, hash: string) | Rejected(reason: string, value: int)

  datatype Coin = Coin(id: string, origin: string, history: seq<HistoryTx>)

  /** A transaction as `monitorTransactions` receives it. */
  datatype MonitoredTx = MonitoredTx(piId: string, origin: string, history: seq<HistoryTx>)

  /** One entry of `regulateTransaction`'s result list. */
  datatype Regulation = Regulation(coin: string, status: string, reason: string, value: int)

  /** The verifier's mutable fields: `blockchainLedger`, `oracleData`, and the learning
      model, split into the per-origin statistics and the `rejections` counters. */
  datatype VerifierState = VerifierState(
    ledger: map<string, LedgerEntry>,
    oracle: map<string, OracleRecord>,
    learned: map<string, OriginStats>,
    rejections: map<string, nat>)

  function Count(counters: map<string, nat>, kind: string): nat
  {
    if kind in counters then counters[kind] else 0
  }

  predicate Suspicious(tx: HistoryTx)
  {
    tx.source == "exchange" || tx.destination == "exchange" || tx.unverified
  }

  /** `transactionHistory.some(...)`, scanning from the front. */
  function HasExchangeHistory(history: seq<HistoryTx>): bool
  {
    if |history| == 0 then false else Suspicious(history[0]) || HasExchangeHistory(history[1..])
  }

  lemma {:induction false} HasExchangeHistoryIff(history: seq<HistoryTx>)
    ensures HasExchangeHistory(history) <==> exists i :: 0 <= i < |history| && Suspicious(history[i])
  {
    if |history| > 0 {
      HasExchangeHistoryIff(history[1..]);
      if HasExchangeHistory(history[1..]) {
        var j :| 0 <= j < |history[1..]| && Suspicious(history[1..][j]);
        assert Suspicious(history[j + 1]);
      }
      if exists i :: 0 <= i < |history| && Suspicious(history[i]) {
        var i :| 0 <= i < |history| && Suspicious(history[i]);
        if i > 0 {
          assert Suspicious(history[1..][i - 1]);
        }
      }
    }
  }

  /** `learnFromRejection(kind, _)`. */
  function AfterRejection(st: VerifierState, kind: string): (s: VerifierState)
    ensures Count(s.rejections, kind) == Count(st.rejections, kind) + 1
    ensures forall k :: k != kind ==> Count(s.rejections, k) == Count(st.rejections, k)
    ensures s.ledger == st.ledger && s.oracle == st.oracle && s.learned == st.learned
  {
    st.(rejections := st.rejections[kind := Count(st.rejections, kind) + 1])
  }

  /** `learnFromSuccess(origin, hash)`. */
  function AfterSuccess(st: VerifierState, origin: string, hash: string): (s: VerifierState)
    ensures s.learned.Keys == st.learned.Keys + {origin}
    ensures origin in st.learned ==>
      s.learned[origin] == OriginStats(st.learned[origin].successes + 1, st.learned[origin].hashes + [hash])
    ensures origin !in st.learned ==> s.learned[origin] == OriginStats(1, [hash])
    ensures forall o :: o in st.learned && o != origin ==> o in s.learned && s.learned[o] == st.learned[o]
    ensures s.ledger == st.ledger && s.oracle == st.oracle && s.rejections == st.rejections
  {
    var stats := if origin in st.learned then st.learned[origin] else OriginStats(0, []);
    st.(learned := st.learned[origin := OriginStats(stats.successes + 1, stats.hashes + [hash])])
  }

  /** `confirmWithOracle(piId)` with `answer` the value of `Math.random() > 0.05`. */
  function AfterOracle(st: VerifierState, piId: string, answer: bool): (s: VerifierState)
    ensures s.oracle.Keys == st.oracle.Keys + {piId} && s.oracle[piId] == OracleRecord(answer, 314159)
    ensures forall p :: p in st.oracle && p != piId ==> s.oracle[p] == st.oracle[p]
    ensures s.ledger == st.ledger && s.learned == st.learned && s.rejections == st.rejections
  {
    st.(oracle := st.oracle[piId := OracleRecord(answer, StableValue)])
  }

  /** `flagSource(hash, flag)` replaces the entry with `{flagged: flag}`. */
  function AfterFlag(st: VerifierState, hash: string, flag: bool): (s: VerifierState)
    ensures s.ledger.Keys == st.ledger.Keys + {hash} && s.ledger[hash] == FlagEntry(flag)
    ensures s.ledger[hash].Flagged() <==> flag
    ensures forall h :: h in st.ledger && h != hash ==> h in s.ledger && s.ledger[h] == st.ledger[h]
    ensures s.oracle == st.oracle && s.learned == st.learned && s.rejections == st.rejections
  {
    st.(ledger := st.ledger[hash := FlagEntry(flag)])
  }

  /** `verifyPiOrigin(piId, origin, history)`: the new state and the verdict.
      `historyHash` is SHA-256 of the serialised history, `answer` the oracle's reply
      and `now` the value of `Date.now()`. */
  function Verify(st: VerifierState, piId: string, origin: string, history: seq<HistoryTx>,
                  answer: bool, now: int, historyHash: seq<HistoryTx> -> string)
    : (r: (VerifierState, Verification))
    ensures r.1.Accepted? ==> r.1.value == 314159 && r.1.hash == historyHash(history)
    ensures r.1.Rejected? ==> r.1.value == 0
    ensures r.1.Accepted? ==> origin in VerifiedOrigins && !HasExchangeHistory(history) && answer
  {
    if origin !in VerifiedOrigins then
      (AfterRejection(st, "invalid_origin"), Rejected(InvalidOriginReason, 0))
    else if HasExchangeHistory(history) then
      (AfterRejection(st, "exchange_involved"), Rejected(ExchangeReason, 0))
    else
      var hash := historyHash(history);
      if hash in st.ledger && st.ledger[hash].Flagged() then
        (AfterRejection(st, "flagged_hash"), Rejected(FlaggedReason, 0))
      else
        var confirmed := AfterOracle(st, piId, answer);
        if !answer then (confirmed, Rejected(OracleReason, 0))
        else
          var marked := confirmed.(ledger := confirmed.ledger[hash := VerifiedEntry(StableValue, now)]);
          (AfterSuccess(marked, origin, hash), Accepted(StableValue, hash))
  }

  /** An origin outside {mined, reward, p2p} is rejected before anything else is
      looked at, and only the `invalid_origin` counter moves. */
  lemma InvalidOriginRejectedFirst(st: VerifierState, piId: string, origin: string, history: seq<HistoryTx>,
                                   answer: bool, now: int, historyHash: seq<HistoryTx> -> string)
    requires origin !in VerifiedOrigins
    ensures var (s, v) := Verify(st, piId, origin, history, answer, now, historyHash);
      && v == Rejected("Origin not allowed: must be mined, reward, or P2P", 0)
      && s == AfterRejection(st, "invalid_origin")
  {
  }

  /** Any history step to or from an exchange, or marked unverified, rejects the coin. */
  lemma ExchangeHistoryRejected(st: VerifierState, piId: string, origin: string, history: seq<HistoryTx>,
                                answer: bool, now: int, historyHash: seq<HistoryTx> -> string, i: int)
    requires origin in VerifiedOrigins
    requires 0 <= i < |history| && Suspicious(history[i])
    ensures var (s, v) := Verify(st, piId, origin, history, answer, now, historyHash);
      && v == Rejected("Pi Coin has exchange history or unclear source", 0)
      && s == AfterRejection(st, "exchange_involved")
  {
    HasExchangeHistoryIff(history);
  }

  /** A history whose hash is flagged in the ledger is rejected. */
  lemma FlaggedHistoryRejected(st: VerifierState, piId: string, origin: string, history: seq<HistoryTx>,
                               answer: bool, now: int, historyHash: seq<HistoryTx> -> string)
    requires origin in VerifiedOrigins && !HasExchangeHistory(history)
    requires historyHash(history) in st.ledger && st.ledger[historyHash(history)].Flagged()
    ensures var (s, v) := Verify(st, piId, origin, history, answer, now, historyHash);
      && v == Rejected("Unclear or flagged source detected", 0)
      && s == AfterRejection(st, "flagged_hash")
  {
  }

  /** When the oracle declines, the coin is rejected, the oracle's reply is recorded,
      and no learning counter and no ledger entry changes. */
  lemma OracleDeclineLearnsNothing(st: VerifierState, piId: string, origin: string, history: seq<HistoryTx>,
                                   now: int, historyHash: seq<HistoryTx> -> string)
    requires origin in VerifiedOrigins && !HasExchangeHistory(history)
    requires !(historyHash(history) in st.ledger && st.ledger[historyHash(history)].Flagged())
    ensures var (s, v) := Verify(st, piId, origin, history, false, now, historyHash);
      && v == Rejected("Oracle confirmation failed", 0)
      && s.ledger == st.ledger && s.learned == st.learned && s.rejections == st.rejections
      && s.oracle == st.oracle[piId := OracleRecord(false, 314159)]
  {
  }

  /** A coin that passes every check is entered in the ledger as verified at the
      stable value, and its origin's success count and hash list grow by one. */
  lemma AcceptedCoinIsRecorded(st: VerifierState, piId: string, origin: string, history: seq<HistoryTx>,
                               now: int, historyHash: seq<HistoryTx> -> string)
    requires origin in VerifiedOrigins && !HasExchangeHistory(history)
    requires !(historyHash(history) in st.ledger && st.ledger[historyHash(history)].Flagged())
    ensures var (s, v) := Verify(st, piId, origin, history, true, now, historyHash);
      var hash := historyHash(history);
      && v == Accepted(314159, hash)
      && s.ledger == st.ledger[hash := VerifiedEntry(314159, now)]
      && origin in s.learned
      && s.learned[origin].successes == (if origin in st.learned then st.learned[origin].successes else 0) + 1
      && s.learned[origin].hashes == (if origin in st.learned then st.learned[origin].hashes else []) + [hash]
      && s.rejections == st.rejections
  {
  }

  /** Flagging a history's hash makes it fail; unflagging it lets it verify again. */
  lemma FlagThenUnflag(st: VerifierState, piId: string, origin: string, history: seq<HistoryTx>,
                       now: int, historyHash: seq<HistoryTx> -> string)
    requires origin in VerifiedOrigins && !HasExchangeHistory(history)
    ensures Verify(AfterFlag(st, historyHash(history), true), piId, origin, history, true, now, historyHash).1
      == Rejected("Unclear or flagged source detected", 0)
    ensures Verify(AfterFlag(st, historyHash(history), false), piId, origin, history, true, now, historyHash).1
      == Accepted(314159, historyHash(history))
  {
  }

  /** Flagging one history's hash does not change the verdict on a history whose hash
      differs; in particular two histories that differ in any serialised field (an
      amount, a raw `unverified`) are flagged separately whenever their hashes differ. */
  lemma FlagIsPerHash(st: VerifierState, flagged: seq<HistoryTx>, piId: string, origin: string,
                      history: seq<HistoryTx>, answer: bool, now: int, historyHash: seq<HistoryTx> -> string)
    requires historyHash(flagged) != historyHash(history)
    ensures Verify(AfterFlag(st, historyHash(flagged), true), piId, origin, history, answer, now, historyHash).1
      == Verify(st, piId, origin, history, answer, now, historyHash).1
  {
  }

  /** `{coin, status, reason: verification.reason || 'Verified', value}`. */
  function ToRegulation(coin: string, v: Verification): (r: Regulation)
    ensures r.coin == coin && r.value == v.value
    ensures r.status == "accepted" <==> v.Accepted?
    ensures r.status == "rejected" <==> v.Rejected?
    ensures v.Accepted? ==> r.reason == "Verified"
    ensures v.Rejected? ==> r.reason == v.reason
  {
    match v
    case Accepted(value, _) => Regulation(coin, "accepted", "Verified", value)
    case Rejected(reason, value) => Regulation(coin, "rejected", reason, value)
  }

  /** The loop of `regulateTransaction`: each coin verified against the state the
      previous coins left, with `draws[i]` what the verification of coin `i` draws. */
  function RegulateLoop(st: VerifierState, coins: seq<Coin>, draws: seq<Draw>,
                        historyHash: seq<HistoryTx> -> string)
    : (r: (VerifierState, seq<Regulation>))
    requires |draws| == |coins|
    ensures |r.1| == |coins|
    decreases |coins|
  {
    if |coins| == 0 then (st, [])
    else
      var n := |coins| - 1;
      var (mid, results) := RegulateLoop(st, coins[..n], draws[..n], historyHash);
      var (next, v) := Verify(mid, coins[n].id, coins[n].origin, coins[n].history,
                              draws[n].answer, draws[n].now, historyHash);
      (next, results + [ToRegulation(coins[n].id, v)])
  }

  /** The loop over the first `i + 1` coins is the loop over the first `i`, then coin `i`. */
  lemma RegulateLoopSnoc(st: VerifierState, coins: seq<Coin>, draws: seq<Draw>,
                         historyHash: seq<HistoryTx> -> string, i: nat)
    requires |draws| == |coins| && i < |coins|
    ensures var (mid, results) := RegulateLoop(st, coins[..i], draws[..i], historyHash);
      var (next, v) := Verify(mid, coins[i].id, coins[i].origin, coins[i].history,
                              draws[i].answer, draws[i].now, historyHash);
      RegulateLoop(st, coins[..i + 1], draws[..i + 1], historyHash) == (next, results + [ToRegulation(coins[i].id, v)])
  {
    assert coins[..i + 1][..i] == coins[..i] && draws[..i + 1][..i] == draws[..i];
    assert coins[..i + 1][i] == coins[i] && draws[..i + 1][i] == draws[i];
  }

  /** One more coin appends one result and keeps the earlier ones. */
  lemma RegulateLoopStep(st: VerifierState, coins: seq<Coin>, draws: seq<Draw>,
                         historyHash: seq<HistoryTx> -> string)
    requires |draws| == |coins| > 0
    ensures RegulateLoop(st, coins, draws, historyHash).1[..|coins| - 1]
      == RegulateLoop(st, coins[..|coins| - 1], draws[..|coins| - 1], historyHash).1
  {
    var n := |coins| - 1;
    var (mid, results) := RegulateLoop(st, coins[..n], draws[..n], historyHash);
    var (next, v) := Verify(mid, coins[n].id, coins[n].origin, coins[n].history,
                            draws[n].answer, draws[n].now, historyHash);
    assert RegulateLoop(st, coins, draws, historyHash).1 == results + [ToRegulation(coins[n].id, v)];
    assert (results + [ToRegulation(coins[n].id, v)])[..n] == results;
  }

  /** The loop over a prefix of the coins gives a prefix of the results. */
  lemma {:induction false} RegulateLoopPrefix(st: VerifierState, coins: seq<Coin>, draws: seq<Draw>,
                                              historyHash: seq<HistoryTx> -> string, k: nat)
    requires |draws| == |coins| && k <= |coins|
    ensures RegulateLoop(st, coins, draws, historyHash).1[..k]
      == RegulateLoop(st, coins[..k], draws[..k], historyHash).1
    decreases |coins|
  {
    if k == |coins| {
      assert coins[..k] == coins && draws[..k] == draws;
    } else {
      var n := |coins| - 1;
      var whole := RegulateLoop(st, coins, draws, historyHash).1;
      RegulateLoopStep(st, coins, draws, historyHash);
      RegulateLoopPrefix(st, coins[..n], draws[..n], historyHash, k);
      assert coins[..n][..k] == coins[..k];
      assert draws[..n][..k] == draws[..k];
      assert whole[..k] == whole[..n][..k];
    }
  }

  /** One result per coin, in order: result `i` names coin `i` and reports the
      verification of that coin against the state the coins before it left. */
  lemma RegulateLoopResults(st: VerifierState, coins: seq<Coin>, draws: seq<Draw>,
                            historyHash: seq<HistoryTx> -> string, i: nat)
    requires |draws| == |coins| && i < |coins|
    ensures var results := RegulateLoop(st, coins, draws, historyHash).1;
      && |results| == |coins|
      && var before := RegulateLoop(st, coins[..i], draws[..i], historyHash).0;
      && results[i] == ToRegulation(coins[i].id,
           Verify(before, coins[i].id, coins[i].origin, coins[i].history, draws[i].answer, draws[i].now, historyHash).1)
  {
    var c, d := coins[..i + 1], draws[..i + 1];
    RegulateLoopPrefix(st, coins, draws, historyHash, i + 1);
    assert c[..i] == coins[..i] && d[..i] == draws[..i];
    assert c[i] == coins[i] && d[i] == draws[i];
    var (before, results) := RegulateLoop(st, coins[..i], draws[..i], historyHash);
    var (next, v) := Verify(before, c[i].id, c[i].origin, c[i].history, d[i].answer, d[i].now, historyHash);
    assert RegulateLoop(st, c, d, historyHash).1 == results + [ToRegulation(c[i].id, v)];
  }

  /** `monitorTransactions(txs)` while active: each transaction is verified in turn,
      and the first rejection calls the undefined `flagTransaction`, which throws. */
  function MonitorLoop(st: VerifierState, txs: seq<MonitoredTx>, draws: seq<Draw>,
                       historyHash: seq<HistoryTx> -> string)
    : (r: (VerifierState, Outcome))
    requires |draws| == |txs|
    ensures r.1.Fail? ==> r.1.error == FlagTransactionError
    decreases |txs|
  {
    if |txs| == 0 then (st, Pass)
    else
      var (next, v) := Verify(st, txs[0].piId, txs[0].origin, txs[0].history, draws[0].answer, draws[0].now, historyHash);
      if v.Rejected? then (next, Fail(FlagTransactionError))
      else MonitorLoop(next, txs[1..], draws[1..], historyHash)
  }

  /** The state after verifying every transaction in turn, whatever the verdicts. */
  function VerifyAll(st: VerifierState, txs: seq<MonitoredTx>, draws: seq<Draw>,
                     historyHash: seq<HistoryTx> -> string): VerifierState
    requires |draws| == |txs|
    decreases |txs|
  {
    if |txs| == 0 then st
    else
      var next := Verify(st, txs[0].piId, txs[0].origin, txs[0].history, draws[0].answer, draws[0].now, historyHash).0;
      VerifyAll(next, txs[1..], draws[1..], historyHash)
  }

  /** The verdict on transaction `i`, verified against the state the ones before it left. */
  function VerdictAt(st: VerifierState, txs: seq<MonitoredTx>, draws: seq<Draw>,
                     historyHash: seq<HistoryTx> -> string, i: nat): Verification
    requires |draws| == |txs| && i < |txs|
  {
    var before := VerifyAll(st, txs[..i], draws[..i], historyHash);
    Verify(before, txs[i].piId, txs[i].origin, txs[i].history, draws[i].answer, draws[i].now, historyHash).1
  }

  lemma VerdictAtShift(st: VerifierState, txs: seq<MonitoredTx>, draws: seq<Draw>,
                       historyHash: seq<HistoryTx> -> string, i: nat)
    requires |draws| == |txs| && 0 < i < |txs|
    ensures var next := Verify(st, txs[0].piId, txs[0].origin, txs[0].history, draws[0].answer, draws[0].now, historyHash).0;
      VerdictAt(st, txs, draws, historyHash, i) == VerdictAt(next, txs[1..], draws[1..], historyHash, i - 1)
  {
    assert txs[..i][1..] == txs[1..][..i - 1];
    assert draws[..i][1..] == draws[1..][..i - 1];
    assert txs[..i][0] == txs[0] && draws[..i][0] == draws[0];
    assert txs[1..][i - 1] == txs[i] && draws[1..][i - 1] == draws[i];
  }

  /** Verifying the first `j + 1` transactions from `st` is verifying the first one,
      then the next `j` from the state it left. */
  lemma FirstRejectionShift(st: VerifierState, txs: seq<MonitoredTx>, draws: seq<Draw>,
                            historyHash: seq<HistoryTx> -> string, j: nat)
    requires |draws| == |txs| && j + 1 < |txs|
    ensures var next := Verify(st, txs[0].piId, txs[0].origin, txs[0].history, draws[0].answer, draws[0].now, historyHash).0;
      && VerifyAll(st, txs[..j + 1], draws[..j + 1], historyHash)
         == VerifyAll(next, txs[1..][..j], draws[1..][..j], historyHash)
      && txs[1..][j] == txs[j + 1] && draws[1..][j] == draws[j + 1]
  {
    assert txs[..j + 1][1..] == txs[1..][..j];
    assert draws[..j + 1][1..] == draws[1..][..j];
    assert txs[..j + 1][0] == txs[0] && draws[..j + 1][0] == draws[0];
  }

  /** Monitoring passes exactly when every transaction verifies against the state the
      ones before it left, and then the state is that of verifying them all. It fails
      at the first rejected transaction (`MonitorStopsAtFirstRejection`). */
  lemma {:induction false} MonitorPassesIffAllAccepted(st: VerifierState, txs: seq<MonitoredTx>, draws: seq<Draw>,
                                                       historyHash: seq<HistoryTx> -> string)
    requires |draws| == |txs|
    ensures var (s, o) := MonitorLoop(st, txs, draws, historyHash);
      && (o.Pass? <==> forall i :: 0 <= i < |txs| ==> VerdictAt(st, txs, draws, historyHash, i).Accepted?)
      && (o.Pass? ==> s == VerifyAll(st, txs, draws, historyHash))
    decreases |txs|
  {
    if |txs| > 0 {
      var (next, v) := Verify(st, txs[0].piId, txs[0].origin, txs[0].history, draws[0].answer, draws[0].now, historyHash);
      assert txs[..0] == [] && draws[..0] == [];
      assert VerdictAt(st, txs, draws, historyHash, 0) == v;
      if v.Accepted? {
        MonitorPassesIffAllAccepted(next, txs[1..], draws[1..], historyHash);
        forall i | 0 < i < |txs|
          ensures VerdictAt(st, txs, draws, historyHash, i) == VerdictAt(next, txs[1..], draws[1..], historyHash, i - 1)
        {
          VerdictAtShift(st, txs, draws, historyHash, i);
        }
        if forall j :: 0 <= j < |txs| - 1 ==> VerdictAt(next, txs[1..], draws[1..], historyHash, j).Accepted? {
          forall i | 0 <= i < |txs| ensures VerdictAt(st, txs, draws, historyHash, i).Accepted? {
            if i > 0 {
              assert VerdictAt(next, txs[1..], draws[1..], historyHash, i - 1).Accepted?;
            }
          }
        } else {
          var j :| 0 <= j < |txs| - 1 && !VerdictAt(next, txs[1..], draws[1..], historyHash, j).Accepted?;
          assert !VerdictAt(st, txs, draws, historyHash, j + 1).Accepted?;
        }

      }
    }
  }

  /** A failing pass stops at the first rejected transaction `j`: the transactions
      before it were accepted, the state is the one verifying `j` left, and the
      transactions after `j` are never verified. */
  lemma {:induction false} MonitorStopsAtFirstRejection(st: VerifierState, txs: seq<MonitoredTx>, draws: seq<Draw>,
                                                        historyHash: seq<HistoryTx> -> string)
    requires |draws| == |txs|
    ensures var (s, o) := MonitorLoop(st, txs, draws, historyHash);
      o.Fail? ==>
        exists j :: (0 <= j < |txs|
          && (forall i :: 0 <= i < j ==> VerdictAt(st, txs, draws, historyHash, i).Accepted?)
          && VerdictAt(st, txs, draws, historyHash, j).Rejected?
          && s == Verify(VerifyAll(st, txs[..j], draws[..j], historyHash), txs[j].piId, txs[j].origin,
                         txs[j].history, draws[j].answer, draws[j].now, historyHash).0)
    decreases |txs|
  {
    if |txs| > 0 {
      var (next, v) := Verify(st, txs[0].piId, txs[0].origin, txs[0].history, draws[0].answer, draws[0].now, historyHash);
      assert txs[..0] == [] && draws[..0] == [];
      assert VerifyAll(st, txs[..0], draws[..0], historyHash) == st;
      assert VerdictAt(st, txs, draws, historyHash, 0) == v;
      if v.Rejected? {
        assert MonitorLoop(st, txs, draws, historyHash) == (next, Fail(FlagTransactionError));
      } else {
        var (s, o) := MonitorLoop(next, txs[1..], draws[1..], historyHash);
        assert MonitorLoop(st, txs, draws, historyHash) == (s, o);
        MonitorStopsAtFirstRejection(next, txs[1..], draws[1..], historyHash);
        if o.Fail? {
          var j :| 0 <= j < |txs| - 1
            && (forall i :: 0 <= i < j ==> VerdictAt(next, txs[1..], draws[1..], historyHash, i).Accepted?)
            && VerdictAt(next, txs[1..], draws[1..], historyHash, j).Rejected?
            && s == Verify(VerifyAll(next, txs[1..][..j], draws[1..][..j], historyHash), txs[1..][j].piId,
                           txs[1..][j].origin, txs[1..][j].history, draws[1..][j].answer, draws[1..][j].now, historyHash).0;
          FirstRejectionShift(st, txs, draws, historyHash, j);
          forall i | 0 < i < j + 1
            ensures VerdictAt(st, txs, draws, historyHash, i).Accepted?
          {
            VerdictAtShift(st, txs, draws, historyHash, i);
          }
          VerdictAtShift(st, txs, draws, historyHash, j + 1);
          assert VerdictAt(st, txs, draws, historyHash, j + 1).Rejected?;
        }
      }
    }
  }

  /** `regulateTransaction(piCoins, _)`: the loop, then monitoring of the first coin
      (`draws[|coins|]` is what that second verification draws). */
  function Regulate(st: VerifierState, monitoringActive: bool, coins: seq<Coin>, draws: seq<Draw>,
                    historyHash: seq<HistoryTx> -> string)
    : (r: (VerifierState, Result<seq<Regulation>>))
    requires |draws| == |coins| + 1
    ensures |coins| == 0 ==> r.1 == Err(NoCoinError)
    ensures r.1.Ok? ==> |r.1.value| == |coins|
    ensures r.1.Err? ==> r.1.error == NoCoinError || r.1.error == FlagTransactionError
  {
    var (mid, results) := RegulateLoop(st, coins, draws[..|coins|], historyHash);
    if |coins| == 0 then (mid, Err(NoCoinError))
    else if !monitoringActive then (mid, Ok(results))
    else
      var first := MonitoredTx(coins[0].id, coins[0].origin, coins[0].history);
      var (after, watched) := MonitorLoop(mid, [first], [draws[|coins|]], historyHash);
      if watched.Fail? then (after, Err(watched.error)) else (after, Ok(results))
  }

  /** When it returns, `regulateTransaction` gives one result per coin, in order, each
      `accepted` exactly when its verification succeeded. */
  lemma RegulateReturnsOnePerCoin(st: VerifierState, monitoringActive: bool, coins: seq<Coin>, draws: seq<Draw>,
                                  historyHash: seq<HistoryTx> -> string, i: nat)
    requires |draws| == |coins| + 1
    requires Regulate(st, monitoringActive, coins, draws, historyHash).1.Ok?
    requires i < |coins|
    ensures var results := Regulate(st, monitoringActive, coins, draws, historyHash).1.value;
      && |results| == |coins|
      && results[i].coin == coins[i].id
      && var before := RegulateLoop(st, coins[..i], draws[..i], historyHash).0;
      && var v := Verify(before, coins[i].id, coins[i].origin, coins[i].history, draws[i].answer, draws[i].now, historyHash).1;
      && (results[i].status == "accepted" <==> v.Accepted?)
      && (v.Accepted? ==> results[i].reason == "Verified" && results[i].value == 314159)
  {
    var ds := draws[..|coins|];
    RegulateLoopResults(st, coins, ds, historyHash, i);
    assert ds[..i] == draws[..i];
  }

  /** With coins given and monitoring on, `regulateTransaction` throws the
      `flagTransaction` error exactly when verifying the first coin once more, against
      the state the loop left, is rejected; with monitoring off it always returns. */
  lemma RegulateMonitorsFirstCoin(st: VerifierState, monitoringActive: bool, coins: seq<Coin>, draws: seq<Draw>,
                                  historyHash: seq<HistoryTx> -> string)
    requires |draws| == |coins| + 1 && |coins| > 0
    ensures var mid := RegulateLoop(st, coins, draws[..|coins|], historyHash).0;
      var d := draws[|coins|];
      var again := Verify(mid, coins[0].id, coins[0].origin, coins[0].history, d.answer, d.now, historyHash).1;
      var r := Regulate(st, monitoringActive, coins, draws, historyHash).1;
      && (r.Err? <==> monitoringActive && again.Rejected?)
      && (r.Err? ==> r.error == FlagTransactionError)
  {
    var mid := RegulateLoop(st, coins, draws[..|coins|], historyHash).0;
    var d := draws[|coins|];
    var first := MonitoredTx(coins[0].id, coins[0].origin, coins[0].history);
    var (next, again) := Verify(mid, coins[0].id, coins[0].origin, coins[0].history, d.answer, d.now, historyHash);
    assert [first][0] == first && [d][0] == d && [first][1..] == [] && [d][1..] == [];
    assert MonitorLoop(mid, [first], [d], historyHash)
      == (if again.Rejected? then (next, Fail(FlagTransactionError)) else (next, Pass));
  }

  /** With monitoring on, a first coin whose origin is not allowed always makes
      `regulateTransaction` throw, whatever the other coins are. */
  lemma InvalidFirstOriginThrows(st: VerifierState, coins: seq<Coin>, draws: seq<Draw>,
                                 historyHash: seq<HistoryTx> -> string)
    requires |draws| == |coins| + 1 && |coins| > 0
    requires coins[0].origin !in VerifiedOrigins
    ensures Regulate(st, true, coins, draws, historyHash).1 == Err("this.flagTransaction is not a function")
  {
    RegulateMonitorsFirstCoin(st, true, coins, draws, historyHash);
  }

  /** An empty coin list makes `regulateTransaction` throw. */
  lemma NoCoinsThrows(st: VerifierState, monitoringActive: bool, draw: Draw,
                      historyHash: seq<HistoryTx> -> string)
    ensures Regulate(st, monitoringActive, [], [draw], historyHash).1
      == Err("Cannot read properties of undefined (reading 'id')")
  {
  }

  class PiVerifier {
    var blockchainLedger: map<string, LedgerEntry>
    var oracleData: map<string, OracleRecord>
    var learnedOrigins: map<string, OriginStats>
    var rejections: map<string, nat>
    var monitoringActive: bool
    /** SHA-256 of `JSON.stringify(history)`, in hex. */
    const historyHash: seq<HistoryTx> -> string

    function State(): VerifierState
      reads this
    {
      VerifierState(blockchainLedger, oracleData, learnedOrigins, rejections)
    }

    constructor (historyHash: seq<HistoryTx> -> string)
      ensures State() == VerifierState(map[], map[], map[], map[]) && monitoringActive
      ensures this.historyHash == historyHash
    {
      blockchainLedger, oracleData, learnedOrigins, rejections := map[], map[], map[], map[];
      monitoringActive := true;
      this.historyHash := historyHash;
    }

    method LearnFromRejection(kind: string)
      modifies this
      ensures State() == AfterRejection(old(State()), kind)
      ensures monitoringActive == old(monitoringActive)
    {
      var count := if kind in rejections then rejections[kind] else 0;
      rejections := rejections[kind := count + 1];
    }

    method LearnFromSuccess(origin: string, hash: string)
      modifies this
      ensures State() == AfterSuccess(old(State()), origin, hash)
      ensures monitoringActive == old(monitoringActive)
    {
      if origin !in learnedOrigins {
        learnedOrigins := learnedOrigins[origin := OriginStats(0, [])];
      }
      var stats := learnedOrigins[origin];
      learnedOrigins := learnedOrigins[origin := OriginStats(stats.successes + 1, stats.hashes + [hash])];
    }

    method ConfirmWithOracle(piId: string, answer: bool) returns (confirmed: bool)
      modifies this
      ensures State() == AfterOracle(old(State()), piId, answer) && confirmed == answer
      ensures monitoringActive == old(monitoringActive)
    {
      oracleData := oracleData[piId := OracleRecord(answer, StableValue)];
      confirmed := answer;
    }

    method VerifyPiOrigin(piId: string, origin: string, history: seq<HistoryTx>, answer: bool, now: int)
      returns (v: Verification)
      modifies this
      ensures (State(), v) == Verify(old(State()), piId, origin, history, answer, now, historyHash)
      ensures monitoringActive == old(monitoringActive)
    {
      if origin !in VerifiedOrigins {
        LearnFromRejection("invalid_origin");
        return Rejected(InvalidOriginReason, 0);
      }
      if HasExchangeHistory(history) {
        LearnFromRejection("exchange_involved");
        return Rejected(ExchangeReason, 0);
      }
      var hash := historyHash(history);
      if hash in blockchainLedger && blockchainLedger[hash].Flagged() {
        LearnFromRejection("flagged_hash");
        return Rejected(FlaggedReason, 0);
      }
      var confirmed := ConfirmWithOracle(piId, answer);
      if !confirmed {
        return Rejected(OracleReason, 0);
      }
      blockchainLedger := blockchainLedger[hash := VerifiedEntry(StableValue, now)];
      LearnFromSuccess(origin, hash);
      v := Accepted(StableValue, hash);
    }

    /** `monitorTransactions(txs)`, with `draws[i]` what verifying `txs[i]` draws. */
    method MonitorTransactions(txs: seq<MonitoredTx>, draws: seq<Draw>) returns (o: Outcome)
      requires |draws| == |txs|
      modifies this
      ensures !old(monitoringActive) ==> State() == old(State()) && o == Pass
      ensures old(monitoringActive) ==> (State(), o) == MonitorLoop(old(State()), txs, draws, historyHash)
      ensures monitoringActive == old(monitoringActive)
    {
      if !monitoringActive {
        return Pass;
      }
      var i := 0;
      while i < |txs|
        invariant 0 <= i <= |txs|
        invariant monitoringActive == old(monitoringActive)
        invariant MonitorLoop(State(), txs[i..], draws[i..], historyHash)
          == MonitorLoop(old(State()), txs, draws, historyHash)
      {
        var v := VerifyPiOrigin(txs[i].piId, txs[i].origin, txs[i].history, draws[i].answer, draws[i].now);
        if v.Rejected? {
          return Fail(FlagTransactionError);
        }
        assert txs[i..][1..] == txs[i + 1..] && draws[i..][1..] == draws[i + 1..];
        i := i + 1;
      }
      o := Pass;
    }

    /** `regulateTransaction(piCoins, transactionType)`; `draws[i]` is what verifying
        coin `i` draws, and `draws[|coins|]` what the monitoring pass draws. */
    method RegulateTransaction(coins: seq<Coin>, draws: seq<Draw>)
      returns (r: Result<seq<Regulation>>)
      requires |draws| == |coins| + 1
      modifies this
      ensures (State(), r) == Regulate(old(State()), old(monitoringActive), coins, draws, historyHash)
    {
      var results := [];
      var i := 0;
      while i < |coins|
        invariant 0 <= i <= |coins|
        invariant monitoringActive == old(monitoringActive)
        invariant (State(), results) == RegulateLoop(old(State()), coins[..i], draws[..i], historyHash)
      {
        var coin := coins[i];
        RegulateLoopSnoc(old(State()), coins, draws[..|coins|], historyHash, i);
        assert draws[..|coins|][..i] == draws[..i] && draws[..|coins|][..i + 1] == draws[..i + 1];
        var v := VerifyPiOrigin(coin.id, coin.origin, coin.history, draws[i].answer, draws[i].now);
        results := results + [ToRegulation(coin.id, v)];
        i := i + 1;
      }
      assert coins[..|coins|] == coins;
      assert draws[..|coins|][..|coins|] == draws[..|coins|];
      ghost var mid := State();
      assert (mid, results) == RegulateLoop(old(State()), coins, draws[..|coins|], historyHash);
      if |coins| == 0 {
        return Err(NoCoinError);
      }
      if !monitoringActive {
        return Ok(results);
      }
      var first := MonitoredTx(coins[0].id, coins[0].origin, coins[0].history);
      var watched := MonitorTransactions([first], [draws[|coins|]]);
      assert (State(), watched) == MonitorLoop(mid, [first], [draws[|coins|]], historyHash);
      if watched.Fail? {
        return Err(watched.error);
      }
      r := Ok(results);
    }

    /** `flagSource(hash, flag)`; a call that omits `flag` passes `true`. */
    method FlagSource(hash: string, flag: bool)
      modifies this
      ensures State() == AfterFlag(old(State()), hash, flag)
      ensures monitoringActive == old(monitoringActive)
    {
      blockchainLedger := blockchainLedger[hash := FlagEntry(flag)];
    }

    method GetStableValue() returns (v: int)
      ensures v == 314159
    {
      v := StableValue;
    }
  }
}
