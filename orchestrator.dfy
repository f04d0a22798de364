/** What the deposit, withdraw and transfer routes do, as a function from
    the state of the two services (balances and ledger) to the new state,
    the requests issued on the way and the answer. The imperative handlers
    in module BankService are proved to behave exactly like these
    functions; the lemmas below state what the routes promise. */
module Orchestrator {
  import opened BankTypes
  import opened Accounts
  import History

  /** The state of the two services the bank orchestrates. */
  datatype Services = Services(users: map<int, real>, transactions: seq<Record>)

  /** The effect of one request to the bank: the services afterwards, the
      requests issued to the collaborators, in order, and the answer. */
  datatype Step = Step(after: Services, issued: seq<Request>, outcome: Outcome)

  /** A request to one of the three money-moving routes. */
  datatype Operation =
    | Deposit(idUser: int, currency: string, amount: real)
    | Withdraw(idUser: int, currency: string, amount: real)
    | Transfer(idUser: int, idTarget: int, currency: string, amount: real)

  /** The rate a handler uses: 1 for the reference currency, otherwise the
      provider's quote for one unit of `currency` in the reference one. */
  function TranslationRate(currency: string, quote: real): real {
    if currency == Reference then 1.0 else quote
  }

  /** The requests to the rate provider a handler issues once the amount
      is accepted: none for the reference currency. */
  function RateRequests(currency: string): seq<Request> {
    if currency == Reference then [] else [RateQuery(currency)]
  }

  /** The same-account guard of the transfer route exactly as the chained
      comparison `id_user == id_target <= 0` reads: equal ids AND a
      non-positive target. */
  predicate SameAccountGuard(idUser: int, idTarget: int) {
    idUser == idTarget && idTarget <= 0
  }

  /** `amount` units of `currency` in the reference currency. */
  function Converted(amount: real, currency: string, quote: real): real {
    amount * TranslationRate(currency, quote)
  }

  /** The amount moved, in the reference currency. */
  function Delta(op: Operation, quote: real): real {
    Converted(op.amount, op.currency, quote)
  }

  /** The accounts a request needs to exist in the user service: only those
      the route actually reads or updates on the path the request takes. */
  predicate Ready(s: Services, op: Operation, quote: real) {
    match op
    case Deposit(idUser, _, amount) => amount > 0.0 ==> idUser in s.users
    case Withdraw(idUser, _, amount) => amount > 0.0 ==> idUser in s.users
    case Transfer(idUser, idTarget, currency, amount) =>
      amount > 0.0 && !SameAccountGuard(idUser, idTarget) ==>
        idUser in s.users &&
        (s.users[idUser] >= Converted(amount, currency, quote) ==> idTarget in s.users)
  }

  /** The deposit route. */
  function DepositStep(s: Services, idUser: int, currency: string, amount: real, quote: real): Step
    requires amount > 0.0 ==> idUser in s.users
  {
    if amount <= 0.0 then Step(s, [], Rejected(InvalidAmount))
    else
      var delta := Converted(amount, currency, quote);
      var users := ApplyDelta(s.users, idUser, delta);
      var t := Record(External, idUser, amount, currency, Reference);
      Step(Services(users, s.transactions + [t]),
           RateRequests(currency) + [UserPut(idUser, delta), TransactionPost(t)],
           Success(UserView(idUser, users[idUser])))
  }

  /** The withdraw route. */
  function WithdrawStep(s: Services, idUser: int, currency: string, amount: real, quote: real): Step
    requires amount > 0.0 ==> idUser in s.users
  {
    if amount <= 0.0 then Step(s, [], Rejected(InvalidAmount))
    else
      var delta := Converted(amount, currency, quote);
      var lookups := RateRequests(currency) + [UserGet(idUser)];
      if s.users[idUser] < delta then Step(s, lookups, Rejected(NoBalanceToWithdraw))
      else
        var users := ApplyDelta(s.users, idUser, -delta);
        var t := Record(idUser, External, amount, currency, Reference);
        Step(Services(users, s.transactions + [t]),
             lookups + [UserPut(idUser, -delta), TransactionPost(t)],
             Success(UserView(idUser, users[idUser])))
  }

  /** The transfer route: debit the sender, then credit the receiver, and
      answer with the receiver's account. */
  function TransferStep(s: Services, idUser: int, idTarget: int, currency: string, amount: real, quote: real): Step
    requires Ready(s, Transfer(idUser, idTarget, currency, amount), quote)
  {
    if amount <= 0.0 then Step(s, [], Rejected(InvalidAmount))
    else if SameAccountGuard(idUser, idTarget) then Step(s, [], Rejected(SameAccount))
    else
      var delta := Converted(amount, currency, quote);
      var lookups := RateRequests(currency) + [UserGet(idUser)];
      if s.users[idUser] < delta then Step(s, lookups, Rejected(NoBalanceToTransfer))
      else
        var debited := ApplyDelta(s.users, idUser, -delta);
        var credited := ApplyDelta(debited, idTarget, delta);
        var t := Record(idUser, idTarget, amount, currency, Reference);
        Step(Services(credited, s.transactions + [t]),
             lookups + [UserPut(idUser, -delta), UserPut(idTarget, delta), TransactionPost(t)],
             Success(UserView(idTarget, credited[idTarget])))
  }

  function Execute(s: Services, op: Operation, quote: real): Step
    requires Ready(s, op, quote)
  {
    match op
    case Deposit(idUser, currency, amount) => DepositStep(s, idUser, currency, amount, quote)
    case Withdraw(idUser, currency, amount) => WithdrawStep(s, idUser, currency, amount, quote)
    case Transfer(idUser, idTarget, currency, amount) =>
      TransferStep(s, idUser, idTarget, currency, amount, quote)
  }

  /** The ledger record a successful request appends. */
  function RecordOf(op: Operation): Record {
    match op
    case Deposit(idUser, currency, amount) => Record(External, idUser, amount, currency, Reference)
    case Withdraw(idUser, currency, amount) => Record(idUser, External, amount, currency, Reference)
    case Transfer(idUser, idTarget, currency, amount) => Record(idUser, idTarget, amount, currency, Reference)
  }

  // ---------------------------------------------------------------------
  // Rejections

  /** A non-positive amount is answered 406 before anything else happens:
      no rate lookup, no balance read, no update, no record. */
  lemma NonPositiveAmountRejectedFirst(s: Services, op: Operation, quote: real)
    requires Ready(s, op, quote)
    requires op.amount <= 0.0
    ensures Execute(s, op, quote) == Step(s, [], Rejected(InvalidAmount))
    ensures Execute(s, op, quote).outcome.Status() == 406
  {
  }

  /** Every rejection comes before the first mutating request: a rejected
      request leaves balances and ledger as they were and issues only
      reads. */
  lemma RejectionMutatesNothing(s: Services, op: Operation, quote: real)
    requires Ready(s, op, quote)
    ensures var step := Execute(s, op, quote);
            step.outcome.Rejected? ==>
              step.after == s &&
              forall r :: r in step.issued ==> !r.IsMutating()
  {
  }

  /** A request is rejected exactly when the amount is not positive, when
      a transfer trips the same-account guard, or when a withdrawal or
      transfer finds the balance below the converted amount; the reason
      says which. */
  lemma RejectionReasons(s: Services, op: Operation, quote: real)
    requires Ready(s, op, quote)
    ensures var out := Execute(s, op, quote).outcome;
            (out == Rejected(InvalidAmount) <==> op.amount <= 0.0) &&
            (out == Rejected(SameAccount) <==>
               op.Transfer? && op.amount > 0.0 && SameAccountGuard(op.idUser, op.idTarget)) &&
            (out.Rejected? && out.reason in {NoBalanceToWithdraw, NoBalanceToTransfer} <==>
               !op.Deposit? && op.amount > 0.0 &&
               !(op.Transfer? && SameAccountGuard(op.idUser, op.idTarget)) &&
               s.users[op.idUser] < Delta(op, quote)) &&
            (out == Rejected(NoBalanceToWithdraw) ==> op.Withdraw?) &&
            (out == Rejected(NoBalanceToTransfer) ==> op.Transfer?) &&
            (out.Status() == 406 <==>
               op.amount <= 0.0 ||
               (op.Transfer? && SameAccountGuard(op.idUser, op.idTarget)) ||
               (!op.Deposit? && s.users[op.idUser] < Delta(op, quote)))
  {
  }

  /** The guard lets a transfer from a positive account to itself through:
      it is checked against the balance, the debit and credit cancel, and
      the ledger records a transfer from the user to the user. */
  lemma PositiveSelfTransferPassesGuard(s: Services, id: int, currency: string, amount: real, quote: real)
    requires id > 0 && amount > 0.0 && id in s.users
    requires s.users[id] >= Converted(amount, currency, quote)
    ensures var step := TransferStep(s, id, id, currency, amount, quote);
            step.outcome == Success(UserView(id, s.users[id])) &&
            step.after.users == s.users &&
            step.after.transactions == s.transactions + [Record(id, id, amount, currency, Reference)]
  {
  }

  // ---------------------------------------------------------------------
  // Conversion

  /** The rate provider is consulted only for a foreign currency, only
      once the amount (and, for a transfer, the guard) has been accepted,
      as the very first request and never again. */
  lemma ProviderConsultedOnlyForForeignCurrency(s: Services, op: Operation, quote: real)
    requires Ready(s, op, quote)
    ensures var issued := Execute(s, op, quote).issued;
            var passed := op.amount > 0.0 && !(op.Transfer? && SameAccountGuard(op.idUser, op.idTarget));
            (RateQuery(op.currency) in issued <==> passed && op.currency != Reference) &&
            (forall r :: r in issued && r.RateQuery? ==> r == RateQuery(op.currency)) &&
            (RateQuery(op.currency) in issued ==> issued[0] == RateQuery(op.currency)) &&
            (forall i :: 0 < i < |issued| ==> !issued[i].RateQuery?)
  {
  }

  /** For the reference currency the delta is the amount itself. */
  lemma ReferenceCurrencyDeltaIsAmount(op: Operation, quote: real)
    requires op.currency == Reference
    ensures Delta(op, quote) == op.amount
  {
  }

  /** Balances are only ever updated by the converted amount: every
      balance update is by `amount * rate`, credited or debited. */
  lemma UpdatesCarryConvertedAmount(s: Services, op: Operation, quote: real)
    requires Ready(s, op, quote)
    ensures forall r :: r in Execute(s, op, quote).issued && r.UserPut? ==>
              r.delta == Delta(op, quote) || r.delta == -Delta(op, quote)
  {
  }

  // ---------------------------------------------------------------------
  // Successful requests

  /** The exact sequence of requests of a successful request: the rate
      lookup if any, the balance read before a debit, the debit before the
      credit, and the ledger post last. */
  lemma SuccessRequestOrder(s: Services, op: Operation, quote: real)
    requires Ready(s, op, quote)
    ensures var step := Execute(s, op, quote);
            var d := Delta(op, quote);
            step.outcome.Success? ==>
              step.issued == RateRequests(op.currency) +
                match op
                case Deposit(id, _, _) => [UserPut(id, d), TransactionPost(RecordOf(op))]
                case Withdraw(id, _, _) => [UserGet(id), UserPut(id, -d), TransactionPost(RecordOf(op))]
                case Transfer(id, target, _, _) =>
                  [UserGet(id), UserPut(id, -d), UserPut(target, d), TransactionPost(RecordOf(op))]
  {
  }

  /** A successful request appends exactly one record, and the record keeps
      the original amount and currency (never the converted amount), the
      reference currency as target currency, and the sentinel on the
      outside end of a deposit or withdrawal. */
  lemma SuccessAppendsOneRecord(s: Services, op: Operation, quote: real)
    requires Ready(s, op, quote)
    ensures var step := Execute(s, op, quote);
            step.outcome.Success? ==>
              |step.after.transactions| == |s.transactions| + 1 &&
              step.after.transactions[..|s.transactions|] == s.transactions &&
              var t := step.after.transactions[|s.transactions|];
              t.amount == op.amount && t.currencySource == op.currency &&
              t.currencyTarget == "USD" &&
              (op.Deposit? ==> t.idSource == -1 && t.idTarget == op.idUser) &&
              (op.Withdraw? ==> t.idSource == op.idUser && t.idTarget == -1) &&
              (op.Transfer? ==> t.idSource == op.idUser && t.idTarget == op.idTarget)
  {
  }

  /** A deposit always succeeds once the amount is positive: it makes no
      balance check. */
  lemma DepositNeverChecksBalance(s: Services, idUser: int, currency: string, amount: real, quote: real)
    requires amount > 0.0 && idUser in s.users
    ensures var step := DepositStep(s, idUser, currency, amount, quote);
            step.outcome.Success? && forall r :: r in step.issued ==> !r.UserGet?
  {
  }

  /** What a successful request does to the balances: the converted amount
      is added to the depositor, taken from the withdrawer, or taken from
      the sender and given to the receiver; no other account changes and
      no account appears or disappears. */
  lemma SuccessMovesConvertedAmount(s: Services, op: Operation, quote: real)
    requires Ready(s, op, quote)
    ensures var after := Execute(s, op, quote).after.users;
            var d := Delta(op, quote);
            after.Keys == s.users.Keys &&
            (forall k :: k in s.users && k != op.idUser && (op.Transfer? ==> k != op.idTarget)
                         ==> after[k] == s.users[k]) &&
            (Execute(s, op, quote).outcome.Success? ==>
              match op
              case Deposit(id, _, _) => after[id] == s.users[id] + d
              case Withdraw(id, _, _) => after[id] == s.users[id] - d
              case Transfer(id, target, _, _) =>
                if id == target then after[id] == s.users[id]
                else after[id] == s.users[id] - d && after[target] == s.users[target] + d)
  {
  }

  /** A successful transfer answers with the receiver's account, as updated
      by the credit. */
  lemma TransferAnswersWithReceiver(s: Services, op: Operation, quote: real)
    requires Ready(s, op, quote) && op.Transfer?
    ensures var step := Execute(s, op, quote);
            step.outcome.Success? ==>
              step.outcome.view == UserView(op.idTarget, step.after.users[op.idTarget])
  {
  }

  // ---------------------------------------------------------------------
  // Invariants of the services

  /** The money in the bank grows by the converted amount on a deposit,
      shrinks by it on a withdrawal, and is conserved by a transfer and by
      every rejection. */
  lemma MoneyAccounting(s: Services, op: Operation, quote: real)
    requires Ready(s, op, quote)
    ensures var step := Execute(s, op, quote);
            Total(step.after.users) ==
              Total(s.users) +
              if step.outcome.Rejected? then 0.0
              else match op
                   case Deposit(_, _, _) => Delta(op, quote)
                   case Withdraw(_, _, _) => -Delta(op, quote)
                   case Transfer(_, _, _, _) => 0.0
  {
    var step := Execute(s, op, quote);
    if step.outcome.Success? {
      var d := Delta(op, quote);
      if op.Deposit? {
        TotalApplyDelta(s.users, op.idUser, d);
      } else if op.Withdraw? {
        TotalApplyDelta(s.users, op.idUser, -d);
      } else {
        TotalApplyDelta(s.users, op.idUser, -d);
        TotalApplyDelta(ApplyDelta(s.users, op.idUser, -d), op.idTarget, d);
      }
    }
  }

  /** With a positive rate, the bank's checks keep every balance
      non-negative: deposits only add, and a debit happens only after the
      balance was found to cover it. */
  lemma BalancesStayNonNegative(s: Services, op: Operation, quote: real)
    requires Ready(s, op, quote)
    requires quote > 0.0 && NonNegative(s.users)
    ensures NonNegative(Execute(s, op, quote).after.users)
  {
  }

  /** The ledger is append-only: every request keeps the records already
      there, and adds at most one. */
  lemma LedgerAppendOnly(s: Services, op: Operation, quote: real)
    requires Ready(s, op, quote)
    ensures var ts := Execute(s, op, quote).after.transactions;
            s.transactions <= ts && |ts| <= |s.transactions| + 1
  {
  }

  // ---------------------------------------------------------------------
  // What the history route then shows

  /** A transfer that passes both checks succeeds and appends its record. */
  lemma TransferRecorded(s: Services, idUser: int, idTarget: int, currency: string, amount: real, quote: real)
    requires amount > 0.0 && !SameAccountGuard(idUser, idTarget)
    requires idUser in s.users && idTarget in s.users
    requires s.users[idUser] >= Converted(amount, currency, quote)
    ensures var step := TransferStep(s, idUser, idTarget, currency, amount, quote);
            step.outcome.Success? &&
            step.after.transactions == s.transactions + [Record(idUser, idTarget, amount, currency, Reference)]
  {
  }

  /** A deposit shows up in the history route as the user's newest
      deposit, and nowhere else. */
  lemma DepositShowsInHistory(s: Services, idUser: int, currency: string, amount: real, quote: real)
    requires amount > 0.0 && idUser in s.users && idUser != External
    ensures var step := DepositStep(s, idUser, currency, amount, quote);
            var before := History.Classify(s.transactions, idUser);
            History.Classify(step.after.transactions, idUser)
              == before.(deposits := before.deposits + [Record(External, idUser, amount, currency, Reference)])
  {
    History.ClassifyAppend(s.transactions, Record(External, idUser, amount, currency, Reference), idUser);
  }

  /** A successful withdrawal shows up as the user's newest withdrawal,
      and nowhere else. */
  lemma WithdrawShowsInHistory(s: Services, idUser: int, currency: string, amount: real, quote: real)
    requires amount > 0.0 && idUser in s.users && idUser != External
    requires s.users[idUser] >= Converted(amount, currency, quote)
    ensures var step := WithdrawStep(s, idUser, currency, amount, quote);
            var before := History.Classify(s.transactions, idUser);
            History.Classify(step.after.transactions, idUser)
              == before.(withdraws := before.withdraws + [Record(idUser, External, amount, currency, Reference)])
  {
    History.ClassifyAppend(s.transactions, Record(idUser, External, amount, currency, Reference), idUser);
  }

  /** A successful transfer between two different real accounts shows up
      as the sender's newest sent transfer and as the receiver's newest
      received transfer. */
  lemma TransferShowsInHistory(s: Services, idUser: int, idTarget: int, currency: string, amount: real, quote: real)
    requires amount > 0.0 && idUser != idTarget && idUser != External && idTarget != External
    requires idUser in s.users && idTarget in s.users
    requires s.users[idUser] >= Converted(amount, currency, quote)
    ensures var step := TransferStep(s, idUser, idTarget, currency, amount, quote);
            var t := Record(idUser, idTarget, amount, currency, Reference);
            var sender := History.Classify(s.transactions, idUser);
            var receiver := History.Classify(s.transactions, idTarget);
            History.Classify(step.after.transactions, idUser)
              == sender.(transfersSent := sender.transfersSent + [t]) &&
            History.Classify(step.after.transactions, idTarget)
              == receiver.(transfersReceived := receiver.transfersReceived + [t])
  {
    var t := Record(idUser, idTarget, amount, currency, Reference);
    TransferRecorded(s, idUser, idTarget, currency, amount, quote);
    History.ClassifyAppend(s.transactions, t, idUser);
    History.ClassifyAppend(s.transactions, t, idTarget);
  }

  /** A self-transfer that the guard lets through leaves the user's
      history as it was: its record lands in no bucket. */
  lemma SelfTransferHiddenFromHistory(s: Services, id: int, currency: string, amount: real, quote: real)
    requires id > 0 && amount > 0.0 && id in s.users
    requires s.users[id] >= Converted(amount, currency, quote)
    ensures var step := TransferStep(s, id, id, currency, amount, quote);
            step.outcome.Success? &&
            History.Classify(step.after.transactions, id) == History.Classify(s.transactions, id)
  {
    TransferRecorded(s, id, id, currency, amount, quote);
    History.ClassifyAppend(s.transactions, Record(id, id, amount, currency, Reference), id);
  }

  /** The guard also lets a transfer to the sentinel through (when that
      id has an account): its record then reads, in the sender's history,
      as a withdrawal and not as a sent transfer. */
  lemma TransferToSentinelReadsAsWithdrawal(s: Services, idUser: int, currency: string, amount: real, quote: real)
    requires amount > 0.0 && idUser != External
    requires idUser in s.users && External in s.users
    requires s.users[idUser] >= Converted(amount, currency, quote)
    ensures var step := TransferStep(s, idUser, External, currency, amount, quote);
            var before := History.Classify(s.transactions, idUser);
            var t := Record(idUser, External, amount, currency, Reference);
            step.outcome.Success? &&
            History.Classify(step.after.transactions, idUser)
              == before.(withdraws := before.withdraws + [t])
  {
    TransferRecorded(s, idUser, External, currency, amount, quote);
    History.ClassifyAppend(s.transactions, Record(idUser, External, amount, currency, Reference), idUser);
  }

  /** The mirror case: a transfer from the sentinel (when that id has an
      account) passes the guard too, and in the receiver's history its
      record reads as a deposit and not as a received transfer. */
  lemma TransferFromSentinelReadsAsDeposit(s: Services, idTarget: int, currency: string, amount: real, quote: real)
    requires amount > 0.0 && idTarget != External
    requires External in s.users && idTarget in s.users
    requires s.users[External] >= Converted(amount, currency, quote)
    ensures var step := TransferStep(s, External, idTarget, currency, amount, quote);
            var before := History.Classify(s.transactions, idTarget);
            var t := Record(External, idTarget, amount, currency, Reference);
            step.outcome.Success? &&
            History.Classify(step.after.transactions, idTarget)
              == before.(deposits := before.deposits + [t])
  {
    TransferRecorded(s, External, idTarget, currency, amount, quote);
    History.ClassifyAppend(s.transactions, Record(External, idTarget, amount, currency, Reference), idTarget);
  }

  // ---------------------------------------------------------------------
  // Scenarios

  /** Depositing 50 USD into account 1 adds 50 and records {-1 -> 1, 50}. */
  lemma DepositScenario(users: map<int, real>, ts: seq<Record>)
    requires 1 in users
    ensures var step := DepositStep(Services(users, ts), 1, "USD", 50.0, 7.0);
            step.after.users == users[1 := users[1] + 50.0] &&
            step.after.transactions == ts + [Record(-1, 1, 50.0, "USD", "USD")] &&
            step.issued == [UserPut(1, 50.0), TransactionPost(Record(-1, 1, 50.0, "USD", "USD"))]
  {
  }

  /** Withdrawing 50 USD from an account holding 30 is refused and changes
      nothing. */
  lemma WithdrawScenario(users: map<int, real>, ts: seq<Record>)
    requires 1 in users && users[1] == 30.0
    ensures WithdrawStep(Services(users, ts), 1, "USD", 50.0, 7.0)
            == Step(Services(users, ts), [UserGet(1)], Rejected(NoBalanceToWithdraw))
  {
  }

  /** Transferring 20 USD from account 1 (holding 100) to account 2 debits
      1 by 20, then credits 2 by 20, and records {1 -> 2, 20}. */
  lemma TransferScenario(users: map<int, real>, ts: seq<Record>)
    requires 1 in users && 2 in users && users[1] == 100.0
    ensures var step := TransferStep(Services(users, ts), 1, 2, "USD", 20.0, 7.0);
            step.after.users == users[1 := 80.0][2 := users[2] + 20.0] &&
            step.after.transactions == ts + [Record(1, 2, 20.0, "USD", "USD")] &&
            step.issued == [UserGet(1), UserPut(1, -20.0), UserPut(2, 20.0),
                            TransactionPost(Record(1, 2, 20.0, "USD", "USD"))] &&
            step.outcome == Success(UserView(2, users[2] + 20.0))
  {
  }
}
