/** The legacy Pi client's simulated chain: a table of user entries whose `balance`
    is read with a default of 0 and moved without any funds check. */
module PiClient {

  /** A chain entry: its `balance` and whatever other fields it carries. */
  datatype UserEntry = UserEntry(balance: int, extra: map<string, string>)

  type Chain = map<string, UserEntry>

  /** A payment record `{id, amount, status}`. */
  datatype Payment = Payment(id: string, amount: int, status: string)

  /** `simulatedChain[userId]?.balance || 0`. */
  function BalanceOf(chain: Chain, user: string): int
  {
    if user in chain then chain[user].balance else 0
  }

  /** `{ ...simulatedChain[user], balance: b }`: the spread keeps the other fields. */
  function WithBalance(chain: Chain, user: string, b: int): (c: Chain)
    ensures c.Keys == chain.Keys + {user}
    ensures c[user].balance == b
    ensures c[user].extra == if user in chain then chain[user].extra else map[]
    ensures forall u :: u in chain && u != user ==> c[u] == chain[u]
  {
    chain[user := UserEntry(b, if user in chain then chain[user].extra else map[])]
  }

  /** `initiateTransaction(from, to, amount)`: debit, then credit reading the chain as
      the debit left it. */
  function Transfer(chain: Chain, from: string, to: string, amount: int): (c: Chain)
    ensures c.Keys == chain.Keys + {from, to}
  {
    var debited := WithBalance(chain, from, BalanceOf(chain, from) - amount);
    WithBalance(debited, to, BalanceOf(debited, to) + amount)
  }

  lemma UnknownUserReadsZero(chain: Chain, user: string)
    requires user !in chain
    ensures BalanceOf(chain, user) == 0
  {
  }

  /** Between two users, the amount moves from one to the other and their total is
      conserved; every other user is untouched, and both entries keep their other
      fields. */
  lemma TransferMovesAmount(chain: Chain, from: string, to: string, amount: int)
    requires from != to
    ensures var c := Transfer(chain, from, to, amount);
      && BalanceOf(c, from) == BalanceOf(chain, from) - amount
      && BalanceOf(c, to) == BalanceOf(chain, to) + amount
      && BalanceOf(c, from) + BalanceOf(c, to) == BalanceOf(chain, from) + BalanceOf(chain, to)
      && c.Keys == chain.Keys + {from, to}
      && (forall u :: u in chain && u != from && u != to ==> c[u] == chain[u])
      && (from in chain ==> c[from].extra == chain[from].extra)
      && (to in chain ==> c[to].extra == chain[to].extra)
  {
  }

  /** There is no funds check: a user with nothing can send and go negative. */
  lemma SenderCanGoNegative(chain: Chain, from: string, to: string, amount: int)
    requires from != to && from !in chain && amount > 0
    ensures BalanceOf(Transfer(chain, from, to, amount), from) == -amount
    ensures BalanceOf(Transfer(chain, from, to, amount), from) < 0
  {
  }

  /** A transfer to oneself leaves the balance as it was. */
  lemma SelfTransferKeepsBalance(chain: Chain, user: string, amount: int)
    ensures BalanceOf(Transfer(chain, user, user, amount), user) == BalanceOf(chain, user)
  {
  }

  class PiClient {
    var simulatedChain: Chain

    constructor ()
      ensures simulatedChain == map[]
    {
      simulatedChain := map[];
    }

    method GetBalance(userId: string) returns (b: int)
      ensures userId !in simulatedChain ==> b == 0
      ensures userId in simulatedChain ==> b == simulatedChain[userId].balance
    {
      b := if userId in simulatedChain then simulatedChain[userId].balance else 0;
    }

    /** `txId` stands for the random UUID the source draws. */
    method InitiateTransaction(fromUser: string, toUser: string, amount: int, txId: string)
      returns (p: Payment)
      modifies this
      ensures simulatedChain == Transfer(old(simulatedChain), fromUser, toUser, amount)
      ensures p == Payment(txId, amount, "completed")
    {
      var fromEntry := if fromUser in simulatedChain then simulatedChain[fromUser].extra else map[];
      simulatedChain := simulatedChain[fromUser := UserEntry(BalanceOf(simulatedChain, fromUser) - amount, fromEntry)];
      var toEntry := if toUser in simulatedChain then simulatedChain[toUser].extra else map[];
      simulatedChain := simulatedChain[toUser := UserEntry(BalanceOf(simulatedChain, toUser) + amount, toEntry)];
      p := Payment(txId, amount, "completed");
    }
  }
}
