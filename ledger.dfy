/**
 * The meaning of AccountsService.transferMoney, on values: a map from
 * account ID to balance plus the log of notifications sent so far. The
 * service method runs as one atomic step (the method is synchronized), so a
 * run of transfers is this function applied to the requests in the order
 * they took the lock.
 */
module Ledger {
  import opened Amounts
  import opened Messages

  /** The exceptions the service throws, each with the text it carries. */
  datatype Error =
    | IllegalArgument(message: string)
    | AccountNotFound(accountId: string)
    | InsufficientFund(message: string)
    | DuplicateAccountId(message: string)

  datatype Outcome = Pass | Fail(error: Error)

  /** One call of notifyAboutTransfer: which account, and what text. */
  datatype Notice = Notice(accountId: string, message: string)

  datatype State = State(balances: map<string, int>, notices: seq<Notice>)

  datatype Step = Step(state: State, outcome: Outcome)

  datatype Request = Request(fromId: string, toId: string, amount: int)

  const NonPositiveAmountMessage := "TransferAmount should be positive"

  function InsufficientFundsMessage(fromId: string): string {
    "Insufficient Funds in account" + fromId
  }

  function DuplicateIdMessage(accountId: string): string {
    "Account id " + accountId + " already exists!"
  }

  /**
   * The checks of transferMoney, in its order: the amount first, then the
   * source account, then the destination account, then the source's funds.
   * A balance equal to the amount passes.
   */
  function Validate(b: map<string, int>, fromId: string, toId: string, amount: int): (o: Outcome)
    ensures o.Pass? <==> amount > 0 && fromId in b && toId in b && b[fromId] >= amount
  {
    if amount <= 0 then Fail(IllegalArgument(NonPositiveAmountMessage))
    else if fromId !in b then Fail(AccountNotFound(fromId))
    else if toId !in b then Fail(AccountNotFound(toId))
    else if b[fromId] < amount then Fail(InsufficientFund(InsufficientFundsMessage(fromId)))
    else Pass
  }

  /**
   * The two writes: debit the source, then credit the destination as it
   * stands after the debit (for a self-transfer that is the debited account).
   */
  function Move(b: map<string, int>, fromId: string, toId: string, amount: int): (b': map<string, int>)
    requires fromId in b && toId in b
    ensures b'.Keys == b.Keys
    ensures forall id :: id in b && id != fromId && id != toId ==> b'[id] == b[id]
    ensures fromId != toId ==> b'[fromId] == b[fromId] - amount && b'[toId] == b[toId] + amount
    ensures fromId == toId ==> b' == b
  {
    var debited := b[fromId := b[fromId] - amount];
    debited[toId := debited[toId] + amount]
  }

  /** The two notifications of a successful transfer, source first. */
  function Notify(fromId: string, toId: string, amount: nat): seq<Notice> {
    [Notice(fromId, SentMessage(amount, toId)), Notice(toId, ReceivedMessage(amount, fromId))]
  }

  /** transferMoney(fromId, toId, amount) applied to s. */
  function Transfer(s: State, fromId: string, toId: string, amount: int): Step {
    var o := Validate(s.balances, fromId, toId, amount);
    if o.Fail? then Step(s, o)
    else Step(State(Move(s.balances, fromId, toId, amount), s.notices + Notify(fromId, toId, amount)), Pass)
  }

  /** The requests applied one after another, each to the state the previous one left. */
  function Replay(s: State, requests: seq<Request>): State
    decreases |requests|
  {
    if requests == [] then s
    else
      var r := requests[0];
      Replay(Transfer(s, r.fromId, r.toId, r.amount).state, requests[1..])
  }

  /** The sum of all balances. */
  ghost function Total(b: map<string, int>): int
    decreases |b|
  {
    if b == map[] then 0
    else
      var k :| k in b;
      assert |(b - {k}).Keys| < |b.Keys| by {
        assert (b - {k}).Keys == b.Keys - {k};
      }
      b[k] + Total(b - {k})
  }

  ghost predicate NonNegative(b: map<string, int>) {
    forall id :: id in b ==> b[id] >= 0
  }

  // ---------------------------------------------------------------------
  // Failures

  /** A rejected transfer changes no balance and sends no notification. */
  lemma FailureChangesNothing(s: State, fromId: string, toId: string, amount: int)
    ensures Transfer(s, fromId, toId, amount).outcome.Fail? ==> Transfer(s, fromId, toId, amount).state == s
  {
  }

  /** A non-positive amount is refused before any account is looked up. */
  lemma NonPositiveAmountRejected(s: State, fromId: string, toId: string, amount: int)
    requires amount <= 0
    ensures Transfer(s, fromId, toId, amount) == Step(s, Fail(IllegalArgument(NonPositiveAmountMessage)))
  {
  }

  /** A missing account is reported by ID, the source's before the destination's. */
  lemma MissingAccountRejected(s: State, fromId: string, toId: string, amount: int)
    requires amount > 0 && (fromId !in s.balances || toId !in s.balances)
    ensures Transfer(s, fromId, toId, amount)
            == Step(s, Fail(AccountNotFound(if fromId !in s.balances then fromId else toId)))
  {
  }

  /** A source balance strictly below the amount is refused and nothing changes. */
  lemma InsufficientFundsRejected(s: State, fromId: string, toId: string, amount: int)
    requires amount > 0 && fromId in s.balances && toId in s.balances
    requires s.balances[fromId] < amount
    ensures Transfer(s, fromId, toId, amount)
            == Step(s, Fail(InsufficientFund(InsufficientFundsMessage(fromId))))
  {
  }

  // ---------------------------------------------------------------------
  // Success

  /** A transfer succeeds exactly when the amount is positive, both accounts exist and the source covers it. */
  lemma TransferSucceedsIff(s: State, fromId: string, toId: string, amount: int)
    ensures Transfer(s, fromId, toId, amount).outcome.Pass?
            <==> amount > 0 && fromId in s.balances && toId in s.balances && s.balances[fromId] >= amount
  {
  }

  /** Between two accounts, the source loses exactly the amount, the destination gains it, the pair's sum is kept and no other account moves. */
  lemma DebitAndCredit(s: State, fromId: string, toId: string, amount: int)
    requires Transfer(s, fromId, toId, amount).outcome.Pass? && fromId != toId
    ensures var b, b' := s.balances, Transfer(s, fromId, toId, amount).state.balances;
      && b'.Keys == b.Keys
      && b'[fromId] == b[fromId] - amount
      && b'[toId] == b[toId] + amount
      && b'[fromId] + b'[toId] == b[fromId] + b[toId]
      && (forall id :: id in b && id != fromId && id != toId ==> b'[id] == b[id])
  {
  }

  /** A balance equal to the amount may be sent in full and leaves exactly zero. */
  lemma ExactBalanceEmptiesSource(s: State, fromId: string, toId: string, amount: int)
    requires amount > 0 && fromId in s.balances && toId in s.balances && fromId != toId
    requires s.balances[fromId] == amount
    ensures Transfer(s, fromId, toId, amount).outcome == Pass
    ensures Transfer(s, fromId, toId, amount).state.balances[fromId] == 0
  {
  }

  /** A successful transfer appends exactly two notifications: the source's, then the destination's. */
  lemma SuccessNotifiesBoth(s: State, fromId: string, toId: string, amount: int)
    requires Transfer(s, fromId, toId, amount).outcome.Pass?
    ensures amount > 0
    ensures Transfer(s, fromId, toId, amount).state.notices
            == s.notices + [Notice(fromId, SentMessage(amount, toId)), Notice(toId, ReceivedMessage(amount, fromId))]
  {
  }

  /** A self-transfer that passes the funds check leaves every balance as it was, yet still notifies twice. */
  lemma SelfTransferIsNetZero(s: State, id: string, amount: int)
    requires Transfer(s, id, id, amount).outcome.Pass?
    ensures Transfer(s, id, id, amount).state.balances == s.balances
    ensures |Transfer(s, id, id, amount).state.notices| == |s.notices| + 2
  {
  }

  // ---------------------------------------------------------------------
  // Invariants over all accounts and over runs of transfers

  /** Removing one account takes exactly its balance out of the total. */
  lemma {:induction false} TotalRemove(b: map<string, int>, k: string)
    requires k in b
    ensures Total(b) == b[k] + Total(b - {k})
    decreases |b|
  {
    var j :| j in b && Total(b) == b[j] + Total(b - {j});
    if j != k {
      assert (b - {j}).Keys == b.Keys - {j};
      assert (b - {k}).Keys == b.Keys - {k};
      TotalRemove(b - {j}, k);
      TotalRemove(b - {k}, j);
      assert b - {j} - {k} == b - {k} - {j};
    }
  }

  /** Setting one existing account's balance changes the total by the difference. */
  lemma TotalUpdate(b: map<string, int>, k: string, v: int)
    requires k in b
    ensures Total(b[k := v]) == Total(b) - b[k] + v
  {
    TotalRemove(b, k);
    TotalRemove(b[k := v], k);
    assert b[k := v] - {k} == b - {k};
  }

  /** A transfer, successful or not, keeps the sum of all balances. */
  lemma TransferConservesTotal(s: State, fromId: string, toId: string, amount: int)
    ensures Total(Transfer(s, fromId, toId, amount).state.balances) == Total(s.balances)
  {
    var b := s.balances;
    if Validate(b, fromId, toId, amount).Pass? {
      var debited := b[fromId := b[fromId] - amount];
      TotalUpdate(b, fromId, b[fromId] - amount);
      TotalUpdate(debited, toId, debited[toId] + amount);
    }
  }

  /** A transfer never makes a non-negative ledger negative. */
  lemma TransferKeepsNonNegative(s: State, fromId: string, toId: string, amount: int)
    requires NonNegative(s.balances)
    ensures NonNegative(Transfer(s, fromId, toId, amount).state.balances)
  {
  }

  /** Transfers neither open nor close accounts. */
  lemma {:induction false} ReplayKeepsAccounts(s: State, requests: seq<Request>)
    ensures Replay(s, requests).balances.Keys == s.balances.Keys
    decreases |requests|
  {
    if requests != [] {
      var r := requests[0];
      ReplayKeepsAccounts(Transfer(s, r.fromId, r.toId, r.amount).state, requests[1..]);
    }
  }

  /** Any run of transfers keeps the sum of all balances: money is neither lost nor made. */
  lemma {:induction false} ReplayConservesTotal(s: State, requests: seq<Request>)
    ensures Total(Replay(s, requests).balances) == Total(s.balances)
    decreases |requests|
  {
    if requests != [] {
      var r := requests[0];
      TransferConservesTotal(s, r.fromId, r.toId, r.amount);
      ReplayConservesTotal(Transfer(s, r.fromId, r.toId, r.amount).state, requests[1..]);
    }
  }

  /** Any run of transfers over non-negative balances leaves every balance non-negative. */
  lemma {:induction false} ReplayKeepsNonNegative(s: State, requests: seq<Request>)
    requires NonNegative(s.balances)
    ensures NonNegative(Replay(s, requests).balances)
    decreases |requests|
  {
    if requests != [] {
      var r := requests[0];
      TransferKeepsNonNegative(s, r.fromId, r.toId, r.amount);
      ReplayKeepsNonNegative(Transfer(s, r.fromId, r.toId, r.amount).state, requests[1..]);
    }
  }

  /** Every notification of a run is one of a pair for a successful request; a run of failures sends none. */
  lemma {:induction false} ReplayNotifiesTwicePerSuccess(s: State, requests: seq<Request>)
    ensures |Replay(s, requests).notices| == |s.notices| + 2 * Successes(s, requests)
    ensures Replay(s, requests).notices[..|s.notices|] == s.notices
    decreases |requests|
  {
    if requests != [] {
      var r := requests[0];
      var t := Transfer(s, r.fromId, r.toId, r.amount).state;
      ReplayNotifiesTwicePerSuccess(t, requests[1..]);
      assert t.notices[..|s.notices|] == s.notices;
    }
  }

  /** How many of the requests succeed when run in order from s. */
  function Successes(s: State, requests: seq<Request>): nat
    decreases |requests|
  {
    if requests == [] then 0
    else
      var r := requests[0];
      var step := Transfer(s, r.fromId, r.toId, r.amount);
      (if step.outcome.Pass? then 1 else 0) + Successes(step.state, requests[1..])
  }
}
