/**
 * The texts transferMoney hands to the notification service, and a reader
 * for them. The reader shows that a text carries the amount and the
 * counterpart account ID without loss. The account ID follows the word
 * "account" with no space in between, as in "Transferred 200 to account456".
 */
module Messages {
  import opened Amounts

  datatype Option<T> = None | Some(value: T)

  /** What a notification text says: how much, and which other account. */
  datatype Parsed = Parsed(amount: nat, accountId: string)

  const SentPrefix := "Transferred "
  const SentInfix := " to account"
  const ReceivedPrefix := "Received "
  const ReceivedInfix := " from account"

  /** prefix, the amount's digits, infix, then the counterpart's ID. */
  function Compose(prefix: string, amount: nat, infix: string, accountId: string): string {
    prefix + NatToString(amount) + infix + accountId
  }

  /** The text sent to the debited account. */
  function SentMessage(amount: nat, toId: string): string {
    Compose(SentPrefix, amount, SentInfix, toId)
  }

  /** The text sent to the credited account. */
  function ReceivedMessage(amount: nat, fromId: string): string {
    Compose(ReceivedPrefix, amount, ReceivedInfix, fromId)
  }

  /** The length of the run of digits that s starts with. */
  function DigitRun(s: string): (k: nat)
    ensures k <= |s| && AllDigits(s[..k])
    ensures k < |s| ==> !IsDigit(s[k])
    decreases |s|
  {
    if s == [] || !IsDigit(s[0]) then 0 else 1 + DigitRun(s[1..])
  }

  /** The digit run of a string of digits followed by a non-digit stops at the non-digit. */
  lemma {:induction false} DigitRunOf(d: string, t: string)
    requires AllDigits(d)
    requires t != [] ==> !IsDigit(t[0])
    ensures DigitRun(d + t) == |d|
    decreases |d|
  {
    if d != [] {
      assert (d + t)[1..] == d[1..] + t;
      DigitRunOf(d[1..], t);
    }
  }

  /** Reads back a text built by Compose with the same prefix and infix. */
  function Decompose(prefix: string, infix: string, m: string): Option<Parsed> {
    if |m| < |prefix| || m[..|prefix|] != prefix then None
    else
      var rest := m[|prefix|..];
      var k := DigitRun(rest);
      if k == 0 || |rest| - k < |infix| || rest[k..k + |infix|] != infix then None
      else Some(Parsed(ParseNat(rest[..k]), rest[k + |infix|..]))
  }

  /** A composed text reads back to its amount and account ID. */
  lemma DecomposeCompose(prefix: string, infix: string, amount: nat, accountId: string)
    requires infix != [] && !IsDigit(infix[0])
    ensures Decompose(prefix, infix, Compose(prefix, amount, infix, accountId))
            == Some(Parsed(amount, accountId))
  {
    var digits := NatToString(amount);
    var m := Compose(prefix, amount, infix, accountId);
    var rest := digits + infix + accountId;
    assert m == prefix + rest;
    assert m[..|prefix|] == prefix && m[|prefix|..] == rest;
    DigitRunOf(digits, infix + accountId);
    assert rest == digits + (infix + accountId);
    assert rest[..|digits|] == digits;
    assert rest[|digits|..|digits| + |infix|] == infix;
    assert rest[|digits| + |infix|..] == accountId;
    ParseNatToString(amount);
  }

  /** The debited account's text names the amount and the destination. */
  lemma SentMessageReadsBack(amount: nat, toId: string)
    ensures Decompose(SentPrefix, SentInfix, SentMessage(amount, toId)) == Some(Parsed(amount, toId))
  {
    DecomposeCompose(SentPrefix, SentInfix, amount, toId);
  }

  /** The credited account's text names the amount and the source. */
  lemma ReceivedMessageReadsBack(amount: nat, fromId: string)
    ensures Decompose(ReceivedPrefix, ReceivedInfix, ReceivedMessage(amount, fromId))
            == Some(Parsed(amount, fromId))
  {
    DecomposeCompose(ReceivedPrefix, ReceivedInfix, amount, fromId);
  }

  /** The two kinds of text never coincide, so a recipient can tell a debit from a credit. */
  lemma SentAndReceivedDiffer(a: nat, toId: string, b: nat, fromId: string)
    ensures SentMessage(a, toId) != ReceivedMessage(b, fromId)
  {
    assert SentMessage(a, toId)[0] == 'T';
    assert ReceivedMessage(b, fromId)[0] == 'R';
  }
}
