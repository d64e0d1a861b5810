# Money transfer between accounts — a Dafny model of `AccountsService`

This project models the account service of a small banking back end. The
service keeps accounts, each with a string ID and a balance, in a
repository keyed by ID. Its core operation is `transferMoney(fromId, toId,
amount)`. It does four things in order:

1. It refuses a non-positive amount.
2. It looks up both accounts.
3. It refuses the transfer when the source balance is below the amount.
4. Otherwise it debits the source, credits the destination, and calls the
   notification service twice: first for the source ("Transferred …"),
   then for the destination ("Received …").

Around it sit `createAccount`, which the repository refuses for an ID it
already holds, and `getAccount`.

The model has five modules:

- `Amounts` (amounts.dfy): the decimal text of an amount (`NatToString`),
  its reader (`ParseNat`), and round trips both ways.
- `Messages` (messages.dfy): the two notification texts and a reader
  (`Decompose`). Reading a text back gives its amount and its counterpart ID.
- `Ledger` (ledger.dfy): what `transferMoney` means, on values.
  - `Validate` does the checks in the source's order. `Move` does the two
    writes. `Transfer` combines them and appends the notices.
  - Lemmas state each failure case, the exact debit and credit,
    conservation, the notification order and the self-transfer.
  - `Total` is the sum of all balances. `Replay` runs a sequence of
    transfers in turn. Both carry conservation and non-negativity over
    whole runs.
- `Service` (service.dfy): the Java objects.
  - `Account` is a class whose `balance` is overwritten in place.
  - `Notifier` records each `notifyAboutTransfer` call it receives.
  - `AccountsService` holds the repository as a map from ID to account
    object. Its `TransferMoney` follows the Java method statement by
    statement, and its contract ties the outcome and the new state to
    `Ledger.Transfer`.
- `Scenarios` (scenarios.dfy): the unit tests, as client methods that
  derive each expected outcome from the service's contracts alone.

Amounts and balances are `int`: whole numbers, that is, `BigDecimal`
values of scale zero, where one unit prints as "1". `BigDecimal` arithmetic
is exact, so integer arithmetic matches it for such values.

Points where the code's behaviour is easy to misread:

- A missing account makes the code throw a `NullPointerException` at
  `synchronized (accountFrom)` or `synchronized (accountTo)`. That happens
  after both lookups and before any write. The model returns
  `AccountNotFound` with the source ID first, then the destination ID, and
  leaves the state unchanged.
- A self-transfer (`fromId == toId`) passes the same checks as any other
  transfer. Both writes hit the same object, so its balance is net
  unchanged, and both notifications are sent (`SelfTransferIsNetZero`).
- The texts have no space between "account" and the ID:
  "Transferred 200 to account456".
- `transferMoney` catches nothing. An exception thrown by
  `notifyAboutTransfer` at line 49 or line 50 reaches the caller after both
  balance writes (lines 47-48) have happened; one thrown at line 50 also
  comes after the first notification. That outcome, a failure with the
  balances already changed, is not modelled: the model treats the
  notification service as a log that always accepts a call (see the
  notification line under "## Left out").

## Model

| member | source | states |
|---|---|---|
| `Amounts.NatToString` | src/main/java/com/dws/challenge/service/AccountsService.java:49-50 | the amount printed in a notification is a canonical decimal numeral: non-empty, digits only, and a leading zero only for the amount zero |
| `Amounts.ParseNatToString` | src/main/java/com/dws/challenge/service/AccountsService.java:49-50 | reading the printed amount gives back exactly that amount |
| `Amounts.NatToStringParse` | src/main/java/com/dws/challenge/service/AccountsService.java:49-50 | every canonical numeral is the printed form of its own value, so the printing is one-to-one with the numerals |
| `Messages.SentMessageReadsBack` | src/main/java/com/dws/challenge/service/AccountsService.java:49 | the source's text "Transferred <amount> to account<toId>" determines the amount and the destination ID |
| `Messages.ReceivedMessageReadsBack` | src/main/java/com/dws/challenge/service/AccountsService.java:50 | the destination's text "Received <amount> from account<fromId>" determines the amount and the source ID |
| `Messages.SentAndReceivedDiffer` | src/main/java/com/dws/challenge/service/AccountsService.java:49-50 | a debit text never equals a credit text |
| `Ledger.Validate` | src/main/java/com/dws/challenge/service/AccountsService.java:36-45 | a transfer may go ahead exactly when the amount is positive, both IDs are stored and the source balance is at least the amount; a balance equal to the amount passes |
| `Ledger.Move` | src/main/java/com/dws/challenge/service/AccountsService.java:47-48 | the writes keep the set of accounts and change no other account; for distinct IDs the source drops by the amount and the destination rises by it; for one ID the map is unchanged |
| `Ledger.FailureChangesNothing` | src/main/java/com/dws/challenge/service/AccountsService.java:36-45 | a rejected transfer leaves all balances and the notification log as they were |
| `Ledger.NonPositiveAmountRejected` | src/main/java/com/dws/challenge/service/AccountsService.java:36-38 | an amount of zero or less gives IllegalArgument "TransferAmount should be positive", whatever the IDs, with no effect |
| `Ledger.MissingAccountRejected` | src/main/java/com/dws/challenge/service/AccountsService.java:39-42 | with a positive amount, an unknown source ID is reported first, then an unknown destination ID, with no effect |
| `Ledger.InsufficientFundsRejected` | src/main/java/com/dws/challenge/service/AccountsService.java:43-45 | a source balance strictly below the amount gives InsufficientFund "Insufficient Funds in account<fromId>" with no effect |
| `Ledger.TransferSucceedsIff` | src/main/java/com/dws/challenge/service/AccountsService.java:36-48 | a transfer succeeds if and only if the amount is positive, both accounts exist and the source covers the amount |
| `Ledger.DebitAndCredit` | src/main/java/com/dws/challenge/service/AccountsService.java:39-48 | on success between two accounts the source loses exactly the amount, the destination gains it, their sum is kept, and every other account is unchanged |
| `Ledger.ExactBalanceEmptiesSource` | src/main/java/com/dws/challenge/service/AccountsService.java:43-47 | sending the whole balance succeeds and leaves the source at exactly zero |
| `Ledger.SuccessNotifiesBoth` | src/main/java/com/dws/challenge/service/AccountsService.java:49-50 | a success appends exactly two notices, the source's "Transferred" text and then the destination's "Received" text |
| `Ledger.SelfTransferIsNetZero` | src/main/java/com/dws/challenge/service/AccountsService.java:39-50 | a self-transfer that passes the checks leaves every balance unchanged yet still sends two notifications |
| `Ledger.TotalRemove` | src/main/java/com/dws/challenge/service/AccountsService.java:47-48 | the sum of all balances is one account's balance plus the sum of the rest |
| `Ledger.TransferConservesTotal` | src/main/java/com/dws/challenge/service/AccountsService.java:47-48 | any transfer, successful or not, keeps the sum of all balances |
| `Ledger.TransferKeepsNonNegative` | src/main/java/com/dws/challenge/service/AccountsService.java:43-48 | if no balance is negative before a transfer, none is negative after it |
| `Ledger.ReplayKeepsAccounts` | src/main/java/com/dws/challenge/service/AccountsService.java:35-53 | any run of transfers neither opens nor closes an account |
| `Ledger.ReplayConservesTotal` | src/main/java/com/dws/challenge/service/AccountsService.java:35-53 | any run of transfers, taken one at a time as the synchronized method does, keeps the sum of all balances |
| `Ledger.ReplayKeepsNonNegative` | src/main/java/com/dws/challenge/service/AccountsService.java:35-53 | any run of transfers over non-negative balances keeps every balance non-negative |
| `Ledger.ReplayNotifiesTwicePerSuccess` | src/main/java/com/dws/challenge/service/AccountsService.java:35-53 | a run only appends to the notification log, two entries per successful transfer and none per failure |
| `Service.Notifier.NotifyAboutTransfer` | src/main/java/com/dws/challenge/service/AccountsService.java:49-50 | each call to the notification service is recorded, in call order, with the account object and the text |
| `Service.AccountsService.constructor` | src/main/java/com/dws/challenge/service/AccountsService.java:22-25 | the service starts over the repository contents it is given, each account stored under its own ID, and with the notification service it is given |
| `Service.AccountsService.CreateAccount` | src/main/java/com/dws/challenge/service/AccountsService.java:27-29 | a new ID stores the account under it; an ID already stored gives DuplicateAccountId "Account id <id> already exists!" and the stored account is kept |
| `Service.AccountsService.GetAccount` | src/main/java/com/dws/challenge/service/AccountsService.java:31-33 | returns the very object stored under the ID, or null when the ID is not stored |
| `Service.AccountsService.TransferMoney` | src/main/java/com/dws/challenge/service/AccountsService.java:35-53 | the outcome is Validate's verdict on the old balances; the new balances are Move of the old ones on success and the old ones on failure; on success the source's and then the destination's account object are notified with the two texts; outcome and new state are exactly Ledger.Transfer of the old state |
| `Service.AccountsService.TransferApplied` | src/main/java/com/dws/challenge/service/AccountsService.java:47-50 | the two in-place writes and two notify calls of a successful transfer, and nothing else, produce the state Ledger.Transfer specifies |
| `Scenarios.AddAccount` | src/test/java/com/dws/challenge/AccountsServiceTest.java:37-43 | after creating account "Id-123", getAccount("Id-123") returns that same account |
| `Scenarios.AddAccountFailsOnDuplicateId` | src/test/java/com/dws/challenge/AccountsServiceTest.java:45-57 | creating the same account twice fails with "Account id <id> already exists!" and the first stays stored |
| `Scenarios.TransferNotifiesBothAccounts` | src/test/java/com/dws/challenge/AccountsServiceTest.java:59-78 | moving 200 from 1000 to 500 leaves 800 and 700 and sends exactly "Transferred 200 to account456" to the source and then "Received 200 from account123" to the destination |
| `Scenarios.TestTexts` | src/test/java/com/dws/challenge/AccountsServiceTest.java:74-75 | the texts for 200 between "123" and "456" are exactly the ones the test expects |
| `Scenarios.TransferFailsOnInsufficientFunds` | src/test/java/com/dws/challenge/AccountsServiceTest.java:80-96 | moving 200 out of 100 fails with InsufficientFund, leaves 100 and 500, and sends nothing |
| `Scenarios.TransferFailsOnNegativeAmount` | src/test/java/com/dws/challenge/AccountsServiceTest.java:98-102 | an amount of -100 fails with IllegalArgument even with no accounts stored, and sends nothing |

## Left out

- Locking: the `synchronized` method and the nested `synchronized` blocks on the two accounts are not modelled. `TransferMoney` is one atomic step, and `Ledger.Replay` stands for transfers serialized one after another. Deadlock freedom and interleavings are concurrency properties outside a sequential model.
- Framework wiring (`@Service`, `@Autowired`, Lombok `@Getter` on the repository) has no behaviour to model.
- The notification service's delivery is an external collaborator. It is modelled only as a log of calls, and a delivery failure is not modelled: an exception from `notifyAboutTransfer` would reach the caller after the balance writes, and possibly after the first notification, which the model does not capture.
- The repository's implementation is not part of this model. It is the map field `accounts`. `createAccount` refusing a stored ID is taken from the unit test. `getAccount` returns null for an unknown ID.
- The `Account` class is not part of this model beyond an immutable ID and an overwritable balance. Any validation it may do, such as a non-negative opening balance, is absent. So `Ledger.TransferKeepsNonNegative` assumes non-negative balances rather than deriving them.
- A missing account is reported as `AccountNotFound` instead of the JVM's `NullPointerException`. Both happen before any write or notification.
- `BigDecimal` scale is not modelled. Amounts are whole numbers (one unit prints as "1"), printed as plain digits, which is `BigDecimal.toString` for scale zero. Values such as `200.00` or exponent forms are not covered.
- `Amounts.NatToString`: does not model `BigDecimal.toString` for non-zero scale, because amounts here are unscaled whole units.
