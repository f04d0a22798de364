/** Values exchanged between the bank service and its collaborators: the
    user service (balances), the transaction service (ledger) and the
    currency-rate provider. */
module BankTypes {

  /** The reference currency every balance is kept in. */
  const Reference: string := "USD"

  /** Account id standing for "outside the bank": the source of a deposit,
      the target of a withdrawal. */
  const External: int := -1

  /** A ledger entry as posted to the transaction service. The payload has
      exactly these five fields (id_source, id_target, amount,
      currency_source, currency_target); no rate is sent. */
  datatype Record = Record(
    idSource: int,
    idTarget: int,
    amount: real,
    currencySource: string,
    currencyTarget: string)

  /** The part of the user service's answer to a balance update that the
      model keeps: whose account it is and its new balance. */
  datatype UserView = UserView(id: int, balance: real)

  /** One request sent to a collaborator, in the order it is issued. */
  datatype Request =
    | RateQuery(baseCurrency: string)      // GET on the rate provider
    | UserGet(id: int)                     // GET user: read a balance
    | UserPut(id: int, delta: real)        // PUT user: apply a signed delta
    | TransactionPost(record: Record)      // POST transaction: append to the ledger
    | TransactionsGet(idUser: int)         // GET transactions of one user
  {
    /** A request that changes the state of a collaborator. */
    predicate IsMutating() {
      UserPut? || TransactionPost?
    }
  }

  /** The business rejections, all answered with status 406: three kinds
      (amount, same account, balance) and four messages, since the balance
      message differs between the transfer and the withdraw route. */
  datatype Rejection = InvalidAmount | SameAccount | NoBalanceToTransfer | NoBalanceToWithdraw
  {
    function Message(): string {
      match this
      case InvalidAmount => "Amount must be an positive number"
      case SameAccount => "Transfer must be done to a different user. For deposits, use the deposit route"
      case NoBalanceToTransfer => "User has no enough balance to transfer."
      case NoBalanceToWithdraw => "User has no enough balance to withdraw."
    }
  }

  /** What a deposit, withdraw or transfer handler answers. */
  datatype Outcome = Success(view: UserView) | Rejected(reason: Rejection)
  {
    /** The HTTP status code of the answer. */
    function Status(): int {
      if Success? then 200 else 406
    }
  }
}
