/** Scenarios for the app's User and Bank: each method runs one sequence of
    calls and promises what the user would observe. */
module LedgerTests {
  import opened Decimal
  import opened Ledger

  /** A user created in an empty bank logs in with its own password, a wrong
      password is refused, and after deletion its password is refused too. */
  method LoginScenario() returns (right: Result<User>, wrong: Result<User>, deleted: Result<User>)
    ensures right.Ok? && right.value.userId == DecimalString(12345) && right.value.balance == 0.0
    ensures wrong == Err(InvalidLogin)
    ensures deleted == Err(InvalidLogin)
  {
    var bank := new Bank();
    assert DecimalString([12345][0]) !in bank.users;
    var user, _ := bank.CreateUser([12345], 1111);
    right := bank.Authenticate(user.userId, user.password);
    wrong := bank.Authenticate(user.userId, user.password + "0");
    bank.DeleteUser(user);
    deleted := bank.Authenticate(user.userId, user.password);
  }

  /** A drawn id that is already taken is drawn again. */
  method RetryScenario() returns (firstId: string, secondId: string, count: nat)
    ensures firstId == DecimalString(12345) && secondId == DecimalString(23456)
    ensures count == 2
  {
    var bank := new Bank();
    assert DecimalString([12345][0]) !in bank.users;
    var first, _ := bank.CreateUser([12345], 1111);
    DecimalStringInjective(12345, 23456);
    assert DecimalString([12345, 23456][1]) !in bank.users;
    var second, _ := bank.CreateUser([12345, 23456], 2222);
    firstId, secondId, count := first.userId, second.userId, |bank.users|;
  }

  /** A with 1000 sends 200 to B with 500: A ends with 800, B with 700; a
      transfer from A to A is refused and changes nothing. */
  method TransferScenario() returns (s: Status, a: real, b: real, self: Status, a2: real)
    ensures s == Done && a == 800.0 && b == 700.0
    ensures self == Raised(CannotTransferToSelf) && a2 == 800.0
  {
    var userA := new User("12345", "1111");
    var userB := new User("23456", "2222");
    var _ := userA.Deposit(1000.0);
    var _ := userB.Deposit(500.0);
    s := userA.TransferTo(userB, 200.0);
    a, b := userA.balance, userB.balance;
    self := userA.TransferTo(userA, 50.0);
    a2 := userA.balance;
  }

  /** Recharging "77123456" with 100 from 1000 leaves 900; "66123456" is
      refused before the amount is looked at; "77abcdef" passes the phone
      rule, which does not ask for digits. */
  method RechargeScenario() returns (ok: Status, bad: Status, letters: Status, balance: real)
    ensures ok == Done
    ensures bad == Raised(InvalidPhoneNumber)
    ensures letters == Done
    ensures balance == 850.0
  {
    var user := new User("12345", "1111");
    var _ := user.Deposit(1000.0);
    ok := user.RechargePhone("77123456", 100.0);
    assert !ValidPhone("66123456") by {
      assert "66123456"[0] != "77"[0] && "66123456"[0] != "17"[0];
    }
    bad := user.RechargePhone("66123456", -5.0);
    letters := user.RechargePhone("77abcdef", 50.0);
    balance := user.balance;
  }

  /** Withdrawing more than the balance is refused and the balance stays. */
  method OverdraftScenario() returns (s: Status, balance: real)
    ensures s == Raised(BalanceTooLow) && balance == 1000.0
  {
    var user := new User("12345", "1111");
    var _ := user.Deposit(1000.0);
    s := user.Withdraw(2000.0);
    balance := user.balance;
  }
}
