/**
 * AccountsService as objects. Accounts are objects whose balance
 * transferMoney overwrites in place; the repository is the service's map
 * from ID to account object; the notification service is an object that
 * records each notifyAboutTransfer call it receives.
 */
module Service {
  import opened Amounts
  import opened Messages
  import opened Ledger

  class Account {
    const id: string
    var balance: int

    constructor (id: string, balance: int)
      ensures this.id == id && this.balance == balance
    {
      this.id := id;
      this.balance := balance;
    }
  }

  /** One call of notifyAboutTransfer: the account object passed, and the text. */
  datatype Notification = Notification(account: Account, message: string)

  /** What each notification says, with the account named by its ID. */
  function Notices(sent: seq<Notification>): (ns: seq<Notice>)
    ensures |ns| == |sent|
    ensures forall i :: 0 <= i < |sent| ==> ns[i] == Notice(sent[i].account.id, sent[i].message)
  {
    seq(|sent|, i requires 0 <= i < |sent| => Notice(sent[i].account.id, sent[i].message))
  }

  /** Projecting a log to notices commutes with appending to it. */
  lemma NoticesAppend(a: seq<Notification>, b: seq<Notification>)
    ensures Notices(a + b) == Notices(a) + Notices(b)
  {
  }

  /** The notification service, seen as the log of the calls made to it. */
  class Notifier {
    var sent: seq<Notification>

    constructor ()
      ensures sent == []
    {
      sent := [];
    }

    method NotifyAboutTransfer(account: Account, message: string)
      modifies this
      ensures sent == old(sent) + [Notification(account, message)]
    {
      sent := sent + [Notification(account, message)];
    }
  }

  class AccountsService {
    /** The repository's contents: each ID maps to the account object stored under it. */
    var accounts: map<string, Account>
    const notifier: Notifier

    /** Every account is stored under its own ID, so distinct IDs hold distinct objects. */
    ghost predicate Valid()
      reads this
    {
      forall id :: id in accounts ==> accounts[id].id == id
    }

    /** The balance of every stored account, by ID. */
    function Balances(): (b: map<string, int>)
      reads this, accounts.Values
      ensures b.Keys == accounts.Keys
      ensures forall id :: id in accounts ==> b[id] == accounts[id].balance
    {
      map id | id in accounts :: accounts[id].balance
    }

    /** The service's state as the transfer specification sees it. */
    function Snapshot(): State
      reads this, accounts.Values, notifier
    {
      State(Balances(), Notices(notifier.sent))
    }

    /** A service over a repository that already holds the given accounts, each under its own ID. */
    constructor (stored: map<string, Account>, notifier: Notifier)
      requires forall id :: id in stored ==> stored[id].id == id
      ensures Valid() && accounts == stored && this.notifier == notifier
    {
      accounts := stored;
      this.notifier := notifier;
    }

    /** Stores the account under its ID; an ID already present is refused and the stored account is kept. */
    method CreateAccount(account: Account) returns (r: Outcome)
      requires Valid()
      modifies this
      ensures Valid()
      ensures account.id in old(accounts) ==>
                r == Fail(DuplicateAccountId(DuplicateIdMessage(account.id))) && accounts == old(accounts)
      ensures account.id !in old(accounts) ==>
                r == Pass && accounts == old(accounts)[account.id := account]
    {
      if account.id in accounts {
        return Fail(DuplicateAccountId(DuplicateIdMessage(account.id)));
      }
      accounts := accounts[account.id := account];
      r := Pass;
    }

    /** The account stored under accountId, or null when there is none. */
    method GetAccount(accountId: string) returns (a: Account?)
      requires Valid()
      ensures a == null <==> accountId !in accounts
      ensures a != null ==> a == accounts[accountId] && a.id == accountId
    {
      a := if accountId in accounts then accounts[accountId] else null;
    }

    /**
     * Moves amount from one account to another and tells both owners. The
     * outcome and the new balances and notifications are those Transfer
     * specifies; on success the two notified objects are the source's and
     * the destination's accounts, in that order.
     */
    method TransferMoney(fromId: string, toId: string, amount: int) returns (r: Outcome)
      requires Valid()
      modifies notifier, accounts.Values
      ensures Valid() && accounts == old(accounts)
      ensures r == Validate(old(Balances()), fromId, toId, amount)
      ensures Balances() == if r.Pass? then Move(old(Balances()), fromId, toId, amount) else old(Balances())
      ensures notifier.sent == old(notifier.sent) + if r.Fail? then [] else [
                Notification(accounts[fromId], SentMessage(amount, toId)),
                Notification(accounts[toId], ReceivedMessage(amount, fromId))]
      ensures Step(Snapshot(), r) == Transfer(old(Snapshot()), fromId, toId, amount)
    {
      if amount <= 0 {
        return Fail(IllegalArgument(NonPositiveAmountMessage));
      }
      var accountFrom := GetAccount(fromId);
      var accountTo := GetAccount(toId);
      if accountFrom == null {
        return Fail(AccountNotFound(fromId));
      }
      if accountTo == null {
        return Fail(AccountNotFound(toId));
      }
      if accountFrom.balance < amount {
        return Fail(InsufficientFund(InsufficientFundsMessage(fromId)));
      }
      accountFrom.balance := accountFrom.balance - amount;
      accountTo.balance := accountTo.balance + amount;
      notifier.NotifyAboutTransfer(accountFrom, SentMessage(amount, toId));
      notifier.NotifyAboutTransfer(accountTo, ReceivedMessage(amount, fromId));
      r := Pass;
      TransferApplied(Request(fromId, toId, amount));
    }

    /**
     * The two writes and the two notifications of a successful transfer, and
     * nothing else, take the service to the state Transfer specifies.
     */
    twostate lemma TransferApplied(req: Request)
      requires old(Valid()) && accounts == old(accounts)
      requires Validate(old(Balances()), req.fromId, req.toId, req.amount) == Pass
      requires req.fromId != req.toId ==>
        && accounts[req.fromId].balance == old(accounts[req.fromId].balance) - req.amount
        && accounts[req.toId].balance == old(accounts[req.toId].balance) + req.amount
      requires req.fromId == req.toId ==> accounts[req.fromId].balance == old(accounts[req.fromId].balance)
      requires notifier.sent == old(notifier.sent) + [
        Notification(accounts[req.fromId], SentMessage(req.amount, req.toId)),
        Notification(accounts[req.toId], ReceivedMessage(req.amount, req.fromId))]
      requires forall id :: id in accounts && id != req.fromId && id != req.toId ==>
        accounts[id].balance == old(accounts[id].balance)
      ensures Balances() == Move(old(Balances()), req.fromId, req.toId, req.amount)
      ensures Step(Snapshot(), Pass) == Transfer(old(Snapshot()), req.fromId, req.toId, req.amount)
    {
      var from, to := accounts[req.fromId], accounts[req.toId];
      assert Balances() == Move(old(Balances()), req.fromId, req.toId, req.amount);
      NoticesAppend(old(notifier.sent), [Notification(from, SentMessage(req.amount, req.toId)),
                                         Notification(to, ReceivedMessage(req.amount, req.fromId))]);
    }
  }
}
