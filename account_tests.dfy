/** The unit tests of TestBankingSystem as scenarios: each method runs one
    test against the fixture and promises the result the test asserts. */
module AccountTests {
  import opened Accounts

  /** setUp: a user with 1000 and a recipient with 500. */
  method SetUp() returns (user: Account, recipient: Account)
    ensures fresh(user) && fresh(recipient)
    ensures user.funds == 1000.0 && recipient.funds == 500.0
  {
    user := new Account("12345", "0000", 1000.0);
    recipient := new Account("54321", "1111", 500.0);
  }

  method TestValidDeposit() returns (r: Outcome<real>)
    ensures r == Returned(1200.0)
  {
    var user, _ := SetUp();
    r := user.Deposit(200.0);
  }

  method TestNegativeDeposit() returns (r: Outcome<real>, funds: real)
    ensures r.Raised? && funds == 1000.0
  {
    var user, _ := SetUp();
    r := user.Deposit(-100.0);
    funds := user.funds;
  }

  method TestValidWithdrawal() returns (r: Outcome<real>)
    ensures r == Returned(700.0)
  {
    var user, _ := SetUp();
    r := user.Withdraw(300.0);
  }

  method TestInsufficientFundsWithdrawal() returns (r: Outcome<real>, funds: real)
    ensures r.Raised? && funds == 1000.0
  {
    var user, _ := SetUp();
    r := user.Withdraw(2000.0);
    funds := user.funds;
  }

  method TestNegativeWithdrawal() returns (r: Outcome<real>, funds: real)
    ensures r.Raised? && funds == 1000.0
  {
    var user, _ := SetUp();
    r := user.Withdraw(-50.0);
    funds := user.funds;
  }

  method TestValidTransfer() returns (r: Outcome<bool>, userFunds: real, recipientFunds: real)
    ensures r == Returned(true)
    ensures userFunds == 800.0 && recipientFunds == 700.0
  {
    var user, recipient := SetUp();
    r := user.Transfer(200.0, recipient);
    userFunds, recipientFunds := user.funds, recipient.funds;
  }

  method TestInvalidTransferAmount() returns (r: Outcome<bool>, userFunds: real, recipientFunds: real)
    ensures r.Raised?
    ensures userFunds == 1000.0 && recipientFunds == 500.0
  {
    var user, recipient := SetUp();
    r := user.Transfer(-100.0, recipient);
    userFunds, recipientFunds := user.funds, recipient.funds;
  }

  method TestTransferToNone() returns (r: Outcome<bool>, funds: real)
    ensures r.Raised? && funds == 1000.0
  {
    var user, _ := SetUp();
    r := user.Transfer(100.0, null);
    funds := user.funds;
  }

  method TestTransferInsufficientFunds() returns (r: Outcome<bool>, userFunds: real, recipientFunds: real)
    ensures r.Raised?
    ensures userFunds == 1000.0 && recipientFunds == 500.0
  {
    var user, recipient := SetUp();
    r := user.Transfer(2000.0, recipient);
    userFunds, recipientFunds := user.funds, recipient.funds;
  }

  method TestValidRecharge() returns (r: Outcome<real>)
    ensures r == Returned(900.0)
  {
    var user, _ := SetUp();
    r := user.Recharge(100.0, "77123456");
  }

  method TestInvalidPhoneNumberPrefix() returns (r: Outcome<real>, funds: real)
    ensures r.Raised? && funds == 1000.0
  {
    var user, _ := SetUp();
    assert !ValidNumber("66123456") by {
      assert "66123456"[0] != "77"[0] && "66123456"[0] != "17"[0];
    }
    r := user.Recharge(100.0, "66123456");
    funds := user.funds;
  }

  method TestInvalidPhoneNumberLength() returns (r: Outcome<real>, funds: real)
    ensures r.Raised? && funds == 1000.0
  {
    var user, _ := SetUp();
    r := user.Recharge(100.0, "7712345");
    funds := user.funds;
  }
}
