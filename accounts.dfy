/** The Account class of the test suite: a second, standalone implementation of
    the account rules. Its operations return the new funds, every failure is a
    ValueError, a transfer checks for a missing recipient but not for a transfer
    to itself, and the phone check looks at the length before the prefix. */
module Accounts {

  /** Every failure is a ValueError; the kind stands for its message. */
  datatype ValueError =
    | AmountNotPositive
    | InsufficientFunds
    | RecipientNotFound
    | InvalidPhoneNumber

  datatype Outcome<T> = Returned(value: T) | Raised(error: ValueError)

  /** The funds an operation leaves: the returned ones on success, the old ones on error. */
  function Settle(funds: real, r: Outcome<real>): real {
    if r.Returned? then r.value else funds
  }

  // ---------------------------------------------------------------------------
  // The rules, on values

  function AfterDeposit(funds: real, amount: real): (r: Outcome<real>)
    ensures r.Returned? <==> amount > 0.0
    ensures r.Raised? ==> r.error == AmountNotPositive
    ensures r.Returned? ==> r.value - funds == amount
  {
    if amount <= 0.0 then Raised(AmountNotPositive) else Returned(funds + amount)
  }

  function AfterWithdraw(funds: real, amount: real): (r: Outcome<real>)
    ensures r.Returned? <==> 0.0 < amount <= funds
    ensures amount <= 0.0 ==> r == Raised(AmountNotPositive)
    ensures 0.0 < amount && funds < amount ==> r == Raised(InsufficientFunds)
    ensures r.Returned? ==> funds - r.value == amount && 0.0 <= r.value
  {
    if amount <= 0.0 then Raised(AmountNotPositive)
    else if funds < amount then Raised(InsufficientFunds)
    else Returned(funds - amount)
  }

  /** What transfer returns or raises, checked in order: a missing recipient,
      a non-positive amount, then insufficient funds. */
  function TransferOutcome(funds: real, hasRecipient: bool, amount: real): (r: Outcome<bool>)
    ensures r.Returned? <==> hasRecipient && 0.0 < amount <= funds
    ensures r.Returned? ==> r.value
    ensures !hasRecipient ==> r == Raised(RecipientNotFound)
    ensures hasRecipient && amount <= 0.0 ==> r == Raised(AmountNotPositive)
    ensures hasRecipient && 0.0 < amount && funds < amount ==> r == Raised(InsufficientFunds)
  {
    if !hasRecipient then Raised(RecipientNotFound)
    else if amount <= 0.0 then Raised(AmountNotPositive)
    else if funds < amount then Raised(InsufficientFunds)
    else Returned(true)
  }

  /** The phone rule of recharge: eight characters, then prefix "77" or "17".
      The characters are not required to be digits. */
  predicate ValidNumber(number: string) {
    |number| == 8 && ("77" <= number || "17" <= number)
  }

  function AfterRecharge(funds: real, amount: real, number: string): (r: Outcome<real>)
    ensures !ValidNumber(number) ==> r == Raised(InvalidPhoneNumber)
    ensures ValidNumber(number) ==> r == AfterWithdraw(funds, amount)
    ensures r.Returned? <==> ValidNumber(number) && 0.0 < amount <= funds
    ensures r.Returned? ==> funds - r.value == amount && 0.0 <= r.value
  {
    if !ValidNumber(number) then Raised(InvalidPhoneNumber) else AfterWithdraw(funds, amount)
  }

  // ---------------------------------------------------------------------------
  // One account

  class Account {
    const accountId: string
    const passcode: string
    var funds: real

    constructor (accountId: string, passcode: string, funds: real)
      ensures this.accountId == accountId && this.passcode == passcode
      ensures this.funds == funds
    {
      this.accountId := accountId;
      this.passcode := passcode;
      this.funds := funds;
    }

    /** The same constructor with the default argument funds=0.0. */
    constructor WithoutFunds(accountId: string, passcode: string)
      ensures this.accountId == accountId && this.passcode == passcode
      ensures funds == 0.0
    {
      this.accountId := accountId;
      this.passcode := passcode;
      funds := 0.0;
    }

    method Deposit(amount: real) returns (r: Outcome<real>)
      modifies this
      ensures r == AfterDeposit(old(funds), amount)
      ensures funds == Settle(old(funds), r)
    {
      if amount <= 0.0 {
        return Raised(AmountNotPositive);
      }
      funds := funds + amount;
      r := Returned(funds);
    }

    method Withdraw(amount: real) returns (r: Outcome<real>)
      modifies this
      ensures r == AfterWithdraw(old(funds), amount)
      ensures funds == Settle(old(funds), r)
    {
      if amount <= 0.0 {
        return Raised(AmountNotPositive);
      }
      if funds < amount {
        return Raised(InsufficientFunds);
      }
      funds := funds - amount;
      r := Returned(funds);
    }

    /** Debits this account and credits the recipient, one after the other.
        There is no check against this == recipient: such a transfer passes
        the guards and leaves the funds as they were. */
    method Transfer(amount: real, recipient: Account?) returns (r: Outcome<bool>)
      modifies this, recipient
      ensures r == TransferOutcome(old(funds), recipient != null, amount)
      ensures r.Raised? ==> funds == old(funds)
      ensures r.Raised? && recipient != null ==> recipient.funds == old(recipient.funds)
      ensures r.Returned? && recipient != this ==>
        funds == old(funds) - amount && recipient.funds == old(recipient.funds) + amount
      ensures r.Returned? && recipient == this ==> funds == old(funds)
      ensures recipient == null ==> [funds] == Moved([old(funds)], 0, amount, -1)
      ensures recipient == this ==> [funds] == Moved([old(funds)], 0, amount, 0)
      ensures recipient != null && recipient != this ==>
        [funds, recipient.funds] == Moved([old(funds), old(recipient.funds)], 0, amount, 1)
    {
      if recipient == null {
        return Raised(RecipientNotFound);
      }
      if amount <= 0.0 {
        return Raised(AmountNotPositive);
      }
      if funds < amount {
        return Raised(InsufficientFunds);
      }
      funds := funds - amount;
      recipient.funds := recipient.funds + amount;
      r := Returned(true);
    }

    method Recharge(amount: real, number: string) returns (r: Outcome<real>)
      modifies this
      ensures r == AfterRecharge(old(funds), amount, number)
      ensures funds == Settle(old(funds), r)
    {
      if |number| != 8 || !("77" <= number || "17" <= number) {
        return Raised(InvalidPhoneNumber);
      }
      r := Withdraw(amount);
    }
  }

  // ---------------------------------------------------------------------------
  // Sequences of operations over several accounts, on values

  /** One call on the account at index `who` of a ledger of funds. A transfer
      names its recipient by index; an index outside the ledger stands for the
      None that a failed lookup gives. */
  datatype Op =
    | Deposit(who: nat, amount: real)
    | Withdraw(who: nat, amount: real)
    | Transfer(who: nat, amount: real, to: int)
    | Recharge(who: nat, amount: real, number: string)

  /** The ledger after one call. A transfer applies its two updates in turn,
      so with to == who the account ends where it started. */
  function Apply(ledger: seq<real>, op: Op): (r: seq<real>)
    requires op.who < |ledger|
    ensures |r| == |ledger|
    ensures forall j :: 0 <= j < |ledger| && j != op.who && !(op.Transfer? && j == op.to) ==> r[j] == ledger[j]
    ensures !op.Transfer? ==> r[op.who] - ledger[op.who] == NetFlow(ledger, op)
  {
    var i := op.who;
    match op
    case Deposit(_, a) => ledger[i := Settle(ledger[i], AfterDeposit(ledger[i], a))]
    case Withdraw(_, a) => ledger[i := Settle(ledger[i], AfterWithdraw(ledger[i], a))]
    case Recharge(_, a, n) => ledger[i := Settle(ledger[i], AfterRecharge(ledger[i], a, n))]
    case Transfer(_, a, to) => Moved(ledger, i, a, to)
  }

  /** The ledger after account i transfers amount a to index `to`: the debit
      and then the credit, or nothing when a guard fails. */
  function Moved(ledger: seq<real>, i: nat, a: real, to: int): (r: seq<real>)
    requires i < |ledger|
    ensures |r| == |ledger|
    ensures TransferOutcome(ledger[i], 0 <= to < |ledger|, a).Raised? || to == i ==> r == ledger
    ensures TransferOutcome(ledger[i], 0 <= to < |ledger|, a).Returned? && to != i ==>
      r[i] == ledger[i] - a && r[to] == ledger[to] + a
    ensures forall j :: 0 <= j < |ledger| && j != i && j != to ==> r[j] == ledger[j]
  {
    if TransferOutcome(ledger[i], 0 <= to < |ledger|, a).Raised? then ledger
    else
      var debited := ledger[i := ledger[i] - a];
      debited[to := debited[to] + a]
  }

  predicate Addressed(n: nat, ops: seq<Op>) {
    forall k :: 0 <= k < |ops| ==> ops[k].who < n
  }

  function Replay(ledger: seq<real>, ops: seq<Op>): seq<real>
    requires Addressed(|ledger|, ops)
    decreases |ops|
  {
    if ops == [] then ledger else Replay(Apply(ledger, ops[0]), ops[1..])
  }

  predicate NonNegative(ledger: seq<real>) {
    forall i :: 0 <= i < |ledger| ==> ledger[i] >= 0.0
  }

  /** The sum of all funds. */
  function Total(ledger: seq<real>): real {
    if ledger == [] then 0.0 else ledger[0] + Total(ledger[1..])
  }

  /** Money entering (positive) or leaving (negative) the ledger by one call:
      a deposit brings it in, a withdrawal or recharge takes it out, a
      transfer only moves it, and a failed call does nothing. */
  function NetFlow(ledger: seq<real>, op: Op): real
    requires op.who < |ledger|
  {
    var f := ledger[op.who];
    match op
    case Deposit(_, a) => if AfterDeposit(f, a).Returned? then a else 0.0
    case Withdraw(_, a) => if AfterWithdraw(f, a).Returned? then -a else 0.0
    case Recharge(_, a, n) => if AfterRecharge(f, a, n).Returned? then -a else 0.0
    case Transfer(_, _, _) => 0.0
  }

  lemma ApplyKeepsNonNegative(ledger: seq<real>, op: Op)
    requires op.who < |ledger| && NonNegative(ledger)
    ensures NonNegative(Apply(ledger, op))
  {
  }

  /** Starting from non-negative funds, no sequence of deposits, withdrawals,
      transfers and recharges makes any account's funds negative. */
  lemma {:induction false} ReplayKeepsNonNegative(ledger: seq<real>, ops: seq<Op>)
    requires Addressed(|ledger|, ops) && NonNegative(ledger)
    ensures |Replay(ledger, ops)| == |ledger|
    ensures NonNegative(Replay(ledger, ops))
    decreases |ops|
  {
    if ops != [] {
      ApplyKeepsNonNegative(ledger, ops[0]);
      ReplayKeepsNonNegative(Apply(ledger, ops[0]), ops[1..]);
    }
  }

  /** Setting one account's funds changes the total by the difference. */
  lemma {:induction false} TotalUpdate(ledger: seq<real>, i: nat, v: real)
    requires i < |ledger|
    ensures Total(ledger[i := v]) == Total(ledger) - ledger[i] + v
  {
    if i == 0 {
      assert ledger[i := v][1..] == ledger[1..];
    } else {
      assert ledger[i := v][1..] == ledger[1..][i - 1 := v];
      TotalUpdate(ledger[1..], i - 1, v);
    }
  }

  /** Each call changes the total by exactly its net flow; in particular a
      transfer, successful or not, conserves the total. */
  lemma {:induction false} ApplyTotal(ledger: seq<real>, op: Op)
    requires op.who < |ledger|
    ensures Total(Apply(ledger, op)) == Total(ledger) + NetFlow(ledger, op)
  {
    var i := op.who;
    if op.Transfer? {
      TransferTotal(ledger, i, op.amount, op.to);
    } else {
      var v := Apply(ledger, op)[i];
      assert Apply(ledger, op) == ledger[i := v];
      assert v == ledger[i] + NetFlow(ledger, op);
      TotalUpdate(ledger, i, v);
    }
  }

  /** A transfer, successful or not, leaves the total unchanged. */
  lemma {:induction false} TransferTotal(ledger: seq<real>, i: nat, a: real, to: int)
    requires i < |ledger|
    ensures Total(Moved(ledger, i, a, to)) == Total(ledger)
  {
    if TransferOutcome(ledger[i], 0 <= to < |ledger|, a).Returned? {
      var debited := ledger[i := ledger[i] - a];
      TotalUpdate(ledger, i, ledger[i] - a);
      TotalUpdate(debited, to, debited[to] + a);
    }
  }

  predicate OnlyTransfers(ops: seq<Op>) {
    forall k :: 0 <= k < |ops| ==> ops[k].Transfer?
  }

  /** Any sequence of transfers leaves the total of all funds unchanged. */
  lemma {:induction false} ReplayTransfersConserveTotal(ledger: seq<real>, ops: seq<Op>)
    requires Addressed(|ledger|, ops) && OnlyTransfers(ops)
    ensures Total(Replay(ledger, ops)) == Total(ledger)
    decreases |ops|
  {
    if ops != [] {
      ApplyTotal(ledger, ops[0]);
      ReplayTransfersConserveTotal(Apply(ledger, ops[0]), ops[1..]);
    }
  }
}
