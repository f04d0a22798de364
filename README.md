# Bank service: operation orchestrator and history classifier

This project models the core of a small bank service. The service has no
storage of its own. It moves money between accounts kept by a separate
**user service** (balances). It records every movement in a separate
**transaction service** (an append-only ledger). It converts foreign
currencies to USD with a third-party **rate provider**. Four routes are
modelled:

- `/deposit`, `/withdraw` and `/transfer` (`add_cash_to_user`,
  `rem_cash_from_user`, `transfer_cash_to_user`). Each one validates the
  amount and picks a rate: 1 for USD, otherwise the provider's value. It
  converts the amount, checks the balance for a withdrawal or transfer,
  applies signed deltas through the user service and posts one record to
  the transaction service.
- `/transactions` (`get_transactions_from_user`). It sorts a user's records
  into deposits, withdraws, transfers sent and transfers received.

Files:

- `bank_types.dfy` (`BankTypes`): the ledger `Record`, with the field names of
  the posted payload; the view the user service returns; the `Request`s sent
  to the collaborators; the 406 rejections with their exact messages (three
  kinds of rejection, four messages: the balance message differs between
  transfer, app.py:121, and withdraw, app.py:183).
- `accounts.dfy` (`Accounts`): the balances as `map<int, real>`, the user
  service's delta update `ApplyDelta`, and `Total`, the money in the bank.
- `history.dfy` (`History`): the four list comprehensions as pure functions,
  with lemmas on order, disjointness, coverage and stability.
- `orchestrator.dfy` (`Orchestrator`): what each money-moving route does, as a
  function from the two services' state to the new state, the requests sent
  (in order) and the answer. The lemmas state the routes' guarantees.
- `bank_service.dfy` (`BankService`): class `Bank`. Its fields are the
  balances, the ledger and the log of requests sent. The route handlers are
  methods that run the source's steps in the source's order, through one
  method per outgoing call. Each handler is proved to have exactly the effect
  of its `Orchestrator` step function.

The rate provider's answer is the parameter `quote`. A handler reads it only
for a non-USD currency, and that read is logged as a `RateQuery` request.

Where the code does something other than one would expect, the model
follows the code:

- **Same-account guard.** One would expect every transfer whose source
  equals its target to be rejected. The code's guard is the chained comparison
  `id_user == id_target <= 0` (app.py:107). That means "equal ids and a
  non-positive target". So a transfer from a positive account to itself is
  not rejected. It is checked against the balance, the debit and credit
  cancel, and a record from the user to the user is written. That record then
  appears in none of the user's four history buckets
  (`PositiveSelfTransferPassesGuard`, `SelfTransferHiddenFromHistory`). The
  guard also lets a transfer from any other account to account -1 through; in
  the sender's history that record reads as a withdrawal
  (`TransferToSentinelReadsAsWithdrawal`). In the same way a transfer from
  account -1 to any other account passes, and in the receiver's history it
  reads as a deposit (`TransferFromSentinelReadsAsDeposit`). Both cases need
  account -1 to exist and the sender's balance to cover the amount.
- **No rate in the record.** One would expect each record to keep the rate
  used. The payloads posted at app.py:73-79, 142-148 and 193-199 have no rate
  field, so `Record` has none. The record keeps the original amount and
  currency, never the converted amount.
- **Classifier with focal id -1.** The comprehensions do not exclude the
  sentinel as focal user. For id -1, a record from -1 to -1 is both a deposit
  and a withdrawal (`SentinelFocalOverlaps`). A deposit into an account -1
  writes exactly that record. So these lemmas require a focal id other
  than -1: the disjointness, partition, self-record and reclassification
  lemmas (`BucketsDisjoint`, `ClassifyPartitions`, `SelfRecordInNoBucket`,
  `ReclassifyBucket`), and the history effects of a deposit and a
  withdrawal (`DepositShowsInHistory`, `WithdrawShowsInHistory`).

## Model

| member | source | states |
|---|---|---|
| BankService.Bank.AddCashToUser | app.py:42-85 | The deposit handler runs the source's steps in order. Its new balances, ledger, request log and answer are exactly those of `DepositStep`: reject a non-positive amount with nothing sent; query the provider only for non-USD; PUT `amount*rate` on the user; POST `{-1, id_user, amount, currency, "USD"}`; answer with the updated account |
| BankService.Bank.TransferCashToUser | app.py:89-154 | The transfer handler has exactly the effect of `TransferStep`. Order: amount check, chained same-account guard, rate, GET sender balance, balance check, debit sender, credit receiver, POST record. It answers with the receiver's view, because the second PUT's response overwrites the first |
| BankService.Bank.RemCashFromUser | app.py:158-202 | The withdraw handler has exactly the effect of `WithdrawStep`. Order: amount check, rate, delta, GET balance, reject if `balance < delta`, PUT `-delta`, then POST `{id_user, -1, amount, currency, "USD"}` |
| BankService.Bank.GetTransactionsFromUser | app.py:206-231 | Sends one GET transactions request and returns the four buckets. Given that the transaction service returns the records the user takes part in, the answer is the classification of the whole ledger |
| BankService.Bank.QueryRate | app.py:24-32 | One GET to the rate provider is logged, and the rate returned is the provider's quote |
| BankService.Bank.ReadBalance | app.py:180 | One GET user is logged, and it returns that account's current balance |
| BankService.Bank.UpdateBalance | app.py:186-191 | One PUT user is logged. The balances become `ApplyDelta(old, id, delta)`, and it returns the updated account view |
| BankService.Bank.PostRecord | app.py:200 | One POST transaction is logged, and exactly that record is appended to the ledger |
| BankService.Bank.ListTransactions | app.py:215 | One GET transactions is logged. It returns the ledger records the user takes part in, in ledger order |
| Accounts.ApplyDelta | app.py:64-69 | A PUT with a delta moves that account's balance by exactly the delta. No other account changes, and no account appears or disappears |
| Accounts.TotalWithout | app.py:64-69 | The sum of all balances equals one account's balance plus the sum of the others, whichever account is taken out |
| Accounts.TotalApplyDelta | app.py:64-69 | A delta on one account changes the money in the bank by exactly that delta |
| Accounts.ApplyDeltaUndone | app.py:125-138 | A debit of `d` and then a credit of `d` on the same account restore the balances |
| History.Select | app.py:219-229 | A bucket holds exactly the input records that meet its comprehension's condition (both directions), and it is no longer than the input |
| History.Classify | app.py:217-231 | A record is in a bucket of the answer exactly when it is among the input records and meets that bucket's condition (both directions). For a focal id other than -1, no record is in two buckets |
| History.SelectAppend | app.py:219-229 | The bucket of a concatenation is the concatenation of the buckets, so input order is preserved |
| History.SelectIsSubsequence | app.py:219-229 | Each bucket is an order-preserving subsequence of the input |
| History.ClassifyAppend | app.py:219-229 | A record appended to the ledger is appended to exactly the buckets whose condition it meets |
| History.BelongsToAtMostOne | app.py:219-229 | For a focal id other than -1, a record meets at most one of the four conditions |
| History.BucketsDisjoint | app.py:219-229 | For a focal id other than -1, the four buckets are pairwise disjoint |
| History.SentinelFocalOverlaps | app.py:219-223 | For focal id -1, a record from -1 to -1 is both a deposit and a withdrawal, so disjointness needs a focal id other than -1 |
| History.SelfRecordInNoBucket | app.py:225-229 | For a focal id other than -1, a record with source and target both equal to the focal user lands in no bucket (for -1 such a record is both a deposit and a withdrawal) |
| History.ClassifyPartitions | app.py:219-229 | As a multiset, the four buckets together hold exactly the records the user takes part in that are not user-to-user, so each such record lands in exactly one bucket |
| History.ClassifyIgnoresUninvolved | app.py:215-229 | Classifying only the records the user takes part in gives the same four buckets as classifying the whole ledger |
| History.ReclassifyBucket | app.py:219-229 | For a focal id other than -1, classifying a bucket again gives back that bucket and leaves the other three empty |
| History.ClassifyExample | app.py:219-229 | For user 5, the records [{-1,5},{5,-1},{5,2},{3,5}] give one record per bucket, in that order |
| Orchestrator.NonPositiveAmountRejectedFirst | app.py:54-56 | In all three routes (also app.py:103-105 and 170-172), a non-positive amount is answered 406 `InvalidAmount`. No request is sent and nothing changes |
| Orchestrator.RejectionMutatesNothing | app.py:103-122 | Every rejection (amount, same account, balance) leaves balances and ledger unchanged. Every request sent before it is a read |
| Orchestrator.RejectionReasons | app.py:103-122 | A request gets each rejection reason exactly when its condition holds (both directions). `InvalidAmount` means amount <= 0. `SameAccount` means the chained guard holds on a transfer. A balance rejection means a withdraw or transfer whose balance is below `amount*rate`; `NoBalanceToWithdraw` comes only from the withdraw route and `NoBalanceToTransfer` only from the transfer route. The answer's status is 406 exactly when one of these conditions holds (also app.py:54-56 and 170-184) |
| Orchestrator.PositiveSelfTransferPassesGuard | app.py:107-109 | A transfer from a positive id to itself with enough balance succeeds. It leaves every balance unchanged and records `{id, id, amount, currency, "USD"}` |
| Orchestrator.ProviderConsultedOnlyForForeignCurrency | app.py:111-112 | The provider is queried exactly when the currency is not USD and the request passed the earlier checks (both directions). The query is then the first request sent, and it is the only rate query |
| Orchestrator.ReferenceCurrencyDeltaIsAmount | app.py:101 | For USD the converted amount is the amount itself (rate 1) |
| Orchestrator.UpdatesCarryConvertedAmount | app.py:118-138 | Every balance update sent is by `amount*rate`, credited or debited |
| Orchestrator.SuccessRequestOrder | app.py:111-150 | On success the exact request sequence is: optional rate query, then the balance read (withdraw and transfer), the debit, the credit (transfer), and the ledger post last |
| Orchestrator.SuccessAppendsOneRecord | app.py:142-148 | A success appends exactly one record. It holds the original amount and currency, target currency "USD", and -1 on the outside end of a deposit or withdrawal |
| Orchestrator.DepositNeverChecksBalance | app.py:64-69 | A deposit with a positive amount always succeeds and sends no balance read at all |
| Orchestrator.SuccessMovesConvertedAmount | app.py:124-138 | Only participants' balances change, and no account appears or disappears. On success the depositor gains `amount*rate`, the withdrawer loses it, and a sender loses it to a distinct receiver (a self-transfer nets zero) |
| Orchestrator.TransferAnswersWithReceiver | app.py:138-154 | A successful transfer answers with the receiver's account as updated by the credit |
| Orchestrator.MoneyAccounting | app.py:124-138 | The money in the bank grows by `amount*rate` on a deposit and shrinks by it on a withdrawal. A transfer or any rejection leaves it unchanged |
| Orchestrator.BalancesStayNonNegative | app.py:180-191 | With a positive rate, every route keeps all balances non-negative: a debit happens only after the balance covered it |
| Orchestrator.LedgerAppendOnly | app.py:193-200 | Every request keeps the existing ledger as a prefix and adds at most one record |
| Orchestrator.TransferRecorded | app.py:142-150 | A transfer that passes both checks succeeds and appends `{id_user, id_target, amount, currency, "USD"}` |
| Orchestrator.DepositShowsInHistory | app.py:73-81 | For a depositor other than -1, after a deposit the user's history gains the record as its newest deposit and nothing else changes |
| Orchestrator.WithdrawShowsInHistory | app.py:193-200 | For a user other than -1 whose balance covers the converted amount, after the withdrawal the user's history gains the record as its newest withdrawal and nothing else changes |
| Orchestrator.TransferShowsInHistory | app.py:142-150 | After a transfer between two distinct real accounts, the record is the sender's newest sent transfer and the receiver's newest received transfer |
| Orchestrator.SelfTransferHiddenFromHistory | app.py:107 | A self-transfer from a positive id that the guard lets through, with a balance covering the converted amount, succeeds, yet the user's history is unchanged |
| Orchestrator.TransferToSentinelReadsAsWithdrawal | app.py:107 | When account -1 exists and the balance covers the converted amount, a transfer from an account other than -1 to account -1 passes the guard and succeeds, and in the sender's history it appears as a withdrawal |
| Orchestrator.TransferFromSentinelReadsAsDeposit | app.py:107 | When account -1 exists and its balance covers the converted amount, a transfer from account -1 to another account passes the guard and succeeds, and in the receiver's history it appears as a deposit |
| Orchestrator.DepositScenario | app.py:64-81 | Depositing 50 USD into account 1 adds 50 to it, sends only the PUT and the POST, and records {-1, 1, 50, "USD", "USD"} |
| Orchestrator.WithdrawScenario | app.py:180-184 | A withdrawal of 50 USD from an account holding 30 is rejected after one balance read, with nothing changed |
| Orchestrator.TransferScenario | app.py:116-154 | A transfer of 20 USD from account 1 (holding 100) to account 2 debits 1 by 20, then credits 2 by 20, records {1, 2, 20}, and answers with account 2 |

## Left out

- Flask/OpenAPI setup, tags, CORS and the `home` redirect (app.py:1-17, 34-38) are framework wiring.
- The HTTP calls, endpoint URLs, JSON decoding and `API_KEY` (app.py:19-32) are not modelled. The three services are plain state (two fields and a request log), and the provider's answer is the parameter `quote`.
- The model has no error paths for provider, transport or "user not found" failures, and none for missing JSON keys. The code has none of its own. So a handler requires the accounts it touches to exist, and only on the path where it touches them.
- The model does not capture that the POST of a record may fail after the balance update is done. The code ignores the POST's answer, so the model treats the post as always succeeding.
- A transfer's debit and credit are two separate PUTs with no compensation. The model runs them in sequence and does not model a crash or concurrent request between them.
- `History.Involving` stands for the transaction service's query filter, which is not part of this model. The model assumes the service returns exactly the records the user takes part in, in ledger order. Given that, `History.ClassifyIgnoresUninvolved` shows the answer is the classification of the whole ledger. A service that dropped some of the user's records would change the answer, and the model does not cover that.
- Amounts, rates and balances are `real`; IEEE rounding is not modelled.
- Transaction ids and timestamps are set by the transaction service. User names and dates in the user view are also left out. The view keeps only the id and balance.
- The `print` calls (app.py:83, 152, 178) are logging only.
- schemas/BankSchema.py is data shapes with default values; only its field names are used.
