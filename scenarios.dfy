/**
 * The service's unit tests, as clients that prove their expected outcomes
 * from the contracts of AccountsService alone.
 */
module Scenarios {
  import opened Amounts
  import opened Messages
  import opened Ledger
  import opened Service

  /** A stored account is the one lookup returns. */
  method AddAccount() returns (account: Account, found: Account?)
    ensures found == account && account.id == "Id-123" && account.balance == 1000
  {
    var notifier := new Notifier();
    var service := new AccountsService(map[], notifier);
    account := new Account("Id-123", 1000);
    var r := service.CreateAccount(account);
    found := service.GetAccount("Id-123");
  }

  /** A second account under a used ID is refused with the duplicate-ID text, and the first stays. */
  method AddAccountFailsOnDuplicateId(uniqueId: string) returns (r: Outcome, found: Account?, account: Account)
    ensures r == Fail(DuplicateAccountId("Account id " + uniqueId + " already exists!"))
    ensures found == account
  {
    var notifier := new Notifier();
    var service := new AccountsService(map[], notifier);
    account := new Account(uniqueId, 0);
    r := service.CreateAccount(account);
    r := service.CreateAccount(account);
    found := service.GetAccount(uniqueId);
  }

  /** A service whose repository holds account "123" and account "456" with the given balances. */
  method Setup(fromBalance: int, toBalance: int) returns (service: AccountsService, from: Account, to: Account)
    ensures fresh(service) && fresh(service.notifier) && fresh(from) && fresh(to)
    ensures service.Valid() && service.notifier.sent == []
    ensures service.accounts == map["123" := from, "456" := to]
    ensures from.id == "123" && from.balance == fromBalance
    ensures to.id == "456" && to.balance == toBalance
  {
    var notifier := new Notifier();
    service := new AccountsService(map[], notifier);
    from := new Account("123", fromBalance);
    to := new Account("456", toBalance);
    var r := service.CreateAccount(from);
    r := service.CreateAccount(to);
  }

  /** Moving 200 from 1000 to 500 leaves 800 and 700 and sends exactly the two expected texts. */
  method TransferNotifiesBothAccounts() returns (r: Outcome, from: Account, to: Account, sent: seq<Notification>)
    ensures r == Pass && from.balance == 800 && to.balance == 700
    ensures sent == [Notification(from, "Transferred 200 to account456"),
                     Notification(to, "Received 200 from account123")]
  {
    var service;
    service, from, to := Setup(1000, 500);
    r := service.TransferMoney("123", "456", 200);
    sent := service.notifier.sent;
    TestTexts();
  }

  /** The amount 200 prints as "200". */
  lemma TwoHundredText()
    ensures NatToString(200) == "200"
  {
    assert NatToString(2) == "2";
    assert NatToString(20) == "20";
  }

  /** The two texts of moving 200 from "123" to "456", spelled out. */
  lemma TestTexts()
    ensures SentMessage(200, "456") == "Transferred 200 to account456"
    ensures ReceivedMessage(200, "123") == "Received 200 from account123"
  {
    TwoHundredText();
  }

  /** Moving 200 out of 100 is refused, both balances stay and nothing is sent. */
  method TransferFailsOnInsufficientFunds() returns (r: Outcome, from: Account, to: Account, sent: seq<Notification>)
    ensures r == Fail(InsufficientFund("Insufficient Funds in account123"))
    ensures from.balance == 100 && to.balance == 500 && sent == []
  {
    var service;
    service, from, to := Setup(100, 500);
    r := service.TransferMoney("123", "456", 200);
    sent := service.notifier.sent;
    assert InsufficientFundsMessage("123") == "Insufficient Funds in account123";
  }

  /** A negative amount is refused before any lookup, so even unknown IDs give IllegalArgument, and nothing is sent. */
  method TransferFailsOnNegativeAmount() returns (r: Outcome, sent: seq<Notification>)
    ensures r == Fail(IllegalArgument("TransferAmount should be positive")) && sent == []
  {
    var notifier := new Notifier();
    var service := new AccountsService(map[], notifier);
    r := service.TransferMoney("123", "456", -100);
    sent := service.notifier.sent;
  }
}
