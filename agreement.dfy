/** The User rules of the app and the Account rules of the test suite, compared:
    apart from the error kinds, which correspond one to one, and the transfer
    guards (a self-transfer check in one, a missing-recipient check in the
    other), they accept the same calls and leave the same balances. */
module Agreement {
  import L = Ledger
  import A = Accounts

  /** The test suite's error for each account error of the app. */
  function KindOf(e: L.BankError): A.ValueError
    requires e == L.InvalidAmount || e == L.BalanceTooLow || e == L.InvalidPhoneNumber
  {
    match e
    case InvalidAmount => A.AmountNotPositive
    case BalanceTooLow => A.InsufficientFunds
    case InvalidPhoneNumber => A.InvalidPhoneNumber
  }

  /** An app result read in the test suite's terms. */
  function Translate(r: L.Result<real>): A.Outcome<real>
    requires r.Err? ==> r.error == L.InvalidAmount || r.error == L.BalanceTooLow || r.error == L.InvalidPhoneNumber
  {
    if r.Ok? then A.Returned(r.value) else A.Raised(KindOf(r.error))
  }

  /** Checking the prefix first or the length first accepts the same numbers. */
  lemma PhoneRulesAgree(phone: string)
    ensures L.ValidPhone(phone) <==> A.ValidNumber(phone)
  {
  }

  /** deposit, withdraw and recharge agree, errors included. */
  lemma SingleAccountRulesAgree(balance: real, amount: real, phone: string)
    ensures A.AfterDeposit(balance, amount) == Translate(L.Deposited(balance, amount))
    ensures A.AfterWithdraw(balance, amount) == Translate(L.Withdrawn(balance, amount))
    ensures A.AfterRecharge(balance, amount, phone) == Translate(L.Recharged(balance, phone, amount))
  {
  }

  /** Between two distinct accounts, transfer_to succeeds exactly when
      Account.transfer does, and both leave the same two balances; on
      failure the error corresponds. */
  lemma TransferRulesAgree(sender: real, recipient: real, amount: real)
    ensures L.Transferred(false, sender, recipient, amount).Ok?
        <==> A.TransferOutcome(sender, true, amount).Returned?
    ensures L.Transferred(false, sender, recipient, amount).Ok? ==>
      L.Transferred(false, sender, recipient, amount).value == (sender - amount, recipient + amount)
    ensures L.Transferred(false, sender, recipient, amount).Err? ==>
      A.TransferOutcome(sender, true, amount) == A.Raised(KindOf(L.Transferred(false, sender, recipient, amount).error))
  {
  }
}
