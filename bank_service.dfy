/** The bank service's route handlers, step by step as they run: each one
    validates, looks up a rate when needed, reads and updates balances
    through the user service and posts a record to the transaction service.
    The two services and the log of requests sent to the collaborators are
    fields of one object; every handler is proved to have exactly the
    effect that module Orchestrator or module History describes. */
module BankService {
  import opened BankTypes
  import opened Accounts
  import opened Orchestrator
  import History

  class Bank {
    /** Balances held by the user service, by account id. */
    var users: map<int, real>
    /** Records held by the transaction service, oldest first. */
    var transactions: seq<Record>
    /** Every request sent to a collaborator so far, in order. */
    var requests: seq<Request>

    /** The state of the two services. */
    function Snapshot(): Services
      reads this
    {
      Services(users, transactions)
    }

    constructor (users: map<int, real>, transactions: seq<Record>)
      ensures Snapshot() == Services(users, transactions)
      ensures requests == []
    {
      this.users := users;
      this.transactions := transactions;
      this.requests := [];
    }

    // -------------------------------------------------------------------
    // Calls to the collaborators

    /** Asks the rate provider for the price of one unit of `currency` in
        the reference currency; `quote` is its answer. */
    method QueryRate(currency: string, quote: real) returns (rate: real)
      modifies this`requests
      ensures rate == quote
      ensures requests == old(requests) + [RateQuery(currency)]
    {
      requests := requests + [RateQuery(currency)];
      rate := quote;
    }

    /** GET user: the account's balance. */
    method ReadBalance(id: int) returns (balance: real)
      requires id in users
      modifies this`requests
      ensures balance == users[id]
      ensures requests == old(requests) + [UserGet(id)]
    {
      requests := requests + [UserGet(id)];
      balance := users[id];
    }

    /** PUT user: applies a signed delta and answers with the updated
        account. */
    method UpdateBalance(id: int, delta: real) returns (view: UserView)
      requires id in users
      modifies this`users, this`requests
      ensures users == ApplyDelta(old(users), id, delta)
      ensures view == UserView(id, users[id])
      ensures requests == old(requests) + [UserPut(id, delta)]
    {
      requests := requests + [UserPut(id, delta)];
      users := ApplyDelta(users, id, delta);
      view := UserView(id, users[id]);
    }

    /** POST transaction: appends one record to the ledger. */
    method PostRecord(t: Record)
      modifies this`transactions, this`requests
      ensures transactions == old(transactions) + [t]
      ensures requests == old(requests) + [TransactionPost(t)]
    {
      requests := requests + [TransactionPost(t)];
      transactions := transactions + [t];
    }

    /** GET transactions: the records the user takes part in, in ledger
        order. */
    method ListTransactions(idUser: int) returns (ts: seq<Record>)
      modifies this`requests
      ensures ts == History.Involving(transactions, idUser)
      ensures requests == old(requests) + [TransactionsGet(idUser)]
    {
      requests := requests + [TransactionsGet(idUser)];
      ts := History.Involving(transactions, idUser);
    }

    // -------------------------------------------------------------------
    // Routes

    /** POST /deposit. */
    method AddCashToUser(idUser: int, currency: string, amount: real, quote: real) returns (res: Outcome)
      requires amount > 0.0 ==> idUser in users
      modifies this
      ensures var step := DepositStep(old(Snapshot()), idUser, currency, amount, quote);
              Snapshot() == step.after && requests == old(requests) + step.issued &&
              res == step.outcome
    {
      var translationRate := 1.0;
      if amount <= 0.0 {
        return Rejected(InvalidAmount);
      }
      if currency != Reference {
        translationRate := QueryRate(currency, quote);
      }
      assert amount * translationRate == Converted(amount, currency, quote);
      var view := UpdateBalance(idUser, amount * translationRate);
      PostRecord(Record(External, idUser, amount, currency, Reference));
      res := Success(view);
    }

    /** POST /transfer. */
    method TransferCashToUser(idUser: int, idTarget: int, currency: string, amount: real, quote: real)
      returns (res: Outcome)
      requires Ready(Snapshot(), Transfer(idUser, idTarget, currency, amount), quote)
      modifies this
      ensures var step := TransferStep(old(Snapshot()), idUser, idTarget, currency, amount, quote);
              Snapshot() == step.after && requests == old(requests) + step.issued &&
              res == step.outcome
    {
      var translationRate := 1.0;
      if amount <= 0.0 {
        return Rejected(InvalidAmount);
      }
      if SameAccountGuard(idUser, idTarget) {
        return Rejected(SameAccount);
      }
      if currency != Reference {
        translationRate := QueryRate(currency, quote);
      }
      var userBalance := ReadBalance(idUser);
      var delta := amount * translationRate;
      assert delta == Converted(amount, currency, quote);
      if userBalance < delta {
        return Rejected(NoBalanceToTransfer);
      }
      var view := UpdateBalance(idUser, -delta);
      view := UpdateBalance(idTarget, delta);
      PostRecord(Record(idUser, idTarget, amount, currency, Reference));
      res := Success(view);
    }

    /** POST /withdraw. */
    method RemCashFromUser(idUser: int, currency: string, amount: real, quote: real) returns (res: Outcome)
      requires amount > 0.0 ==> idUser in users
      modifies this
      ensures var step := WithdrawStep(old(Snapshot()), idUser, currency, amount, quote);
              Snapshot() == step.after && requests == old(requests) + step.issued &&
              res == step.outcome
    {
      var translationRate := 1.0;
      if amount <= 0.0 {
        return Rejected(InvalidAmount);
      }
      if currency != Reference {
        translationRate := QueryRate(currency, quote);
      }
      var delta := amount * translationRate;
      assert delta == Converted(amount, currency, quote);
      var userBalance := ReadBalance(idUser);
      if userBalance < delta {
        return Rejected(NoBalanceToWithdraw);
      }
      var view := UpdateBalance(idUser, -delta);
      PostRecord(Record(idUser, External, amount, currency, Reference));
      res := Success(view);
    }

    /** POST /transactions: the user's records, sorted into the four
        buckets. Given that the transaction service returns exactly
        `Involving(transactions, idUser)`, the answer is the classification
        of the whole ledger. */
    method GetTransactionsFromUser(idUser: int) returns (h: History.TransactionHistory)
      modifies this`requests
      ensures h == History.Classify(transactions, idUser)
      ensures requests == old(requests) + [TransactionsGet(idUser)]
    {
      var userTransactions := ListTransactions(idUser);
      h := History.Classify(userTransactions, idUser);
      History.ClassifyIgnoresUninvolved(transactions, idUser);
    }
  }
}
