/** The account rules and the user registry of the banking app: a User owns a
    balance and four guarded operations, a Bank maps user ids to Users.
    Amounts are exact reals; exceptions become the BankError kinds below. */
module Ledger {
  import opened Decimal

  /** The exception kinds. CannotTransferToSelf is the base BankError, which the
      source raises directly for a transfer to the same user. */
  datatype BankError =
    | CannotTransferToSelf
    | InvalidAmount
    | BalanceTooLow
    | InvalidLogin
    | InvalidPhoneNumber

  datatype Result<T> = Ok(value: T) | Err(error: BankError)

  /** How a mutating operation ended: normally, or by raising an error. */
  datatype Status = Done | Raised(error: BankError)

  function StatusOf<T>(r: Result<T>): Status {
    if r.Ok? then Done else Raised(r.error)
  }

  /** The balance an operation leaves: the new one on success, the old one on error. */
  function Settle(balance: real, r: Result<real>): real {
    if r.Ok? then r.value else balance
  }

  // ---------------------------------------------------------------------------
  // The rules of one account, on values

  /** deposit: the balance after it, or the error it raises. */
  function Deposited(balance: real, amount: real): (r: Result<real>)
    ensures r.Ok? <==> amount > 0.0
    ensures r.Err? ==> r.error == InvalidAmount
    ensures r.Ok? ==> r.value - balance == amount && r.value > balance
  {
    if amount <= 0.0 then Err(InvalidAmount) else Ok(balance + amount)
  }

  /** withdraw: the amount check comes before the balance check, and a
      successful withdrawal never leaves a negative balance. */
  function Withdrawn(balance: real, amount: real): (r: Result<real>)
    ensures r.Ok? <==> 0.0 < amount <= balance
    ensures amount <= 0.0 ==> r == Err(InvalidAmount)
    ensures 0.0 < amount && balance < amount ==> r == Err(BalanceTooLow)
    ensures r.Ok? ==> balance - r.value == amount && 0.0 <= r.value < balance
  {
    if amount <= 0.0 then Err(InvalidAmount)
    else if balance < amount then Err(BalanceTooLow)
    else Ok(balance - amount)
  }

  /** The phone rule of recharge_phone: prefix "77" or "17" and eight
      characters. The characters are not required to be digits. */
  predicate ValidPhone(phone: string) {
    ("77" <= phone || "17" <= phone) && |phone| == 8
  }

  /** recharge_phone: the phone check precedes every amount check; a valid
      phone makes it a withdrawal. */
  function Recharged(balance: real, phone: string, amount: real): (r: Result<real>)
    ensures !ValidPhone(phone) ==> r == Err(InvalidPhoneNumber)
    ensures r.Ok? <==> ValidPhone(phone) && 0.0 < amount <= balance
    ensures ValidPhone(phone) ==> r == Withdrawn(balance, amount)
    ensures ValidPhone(phone) && r.Err? ==> r.error != InvalidPhoneNumber
    ensures r.Ok? ==> balance - r.value == amount && r.value >= 0.0
  {
    if !ValidPhone(phone) then Err(InvalidPhoneNumber) else Withdrawn(balance, amount)
  }

  /** transfer_to: the balances (sender, recipient) afterwards. `same` says
      whether the recipient is the sender object itself. The withdrawal runs
      first; once it succeeds the deposit of the same amount cannot fail, so a
      transfer either moves the whole amount or changes nothing. */
  function Transferred(same: bool, sender: real, recipient: real, amount: real): (r: Result<(real, real)>)
    ensures same ==> r == Err(CannotTransferToSelf)
    ensures !same ==> StatusOf(r) == StatusOf(Withdrawn(sender, amount))
    ensures r.Ok? <==> !same && 0.0 < amount <= sender
    ensures r.Ok? ==> sender - r.value.0 == amount && r.value.1 - recipient == amount
    ensures r.Ok? ==> r.value.0 + r.value.1 == sender + recipient && r.value.0 >= 0.0
  {
    if same then Err(CannotTransferToSelf)
    else
      match Withdrawn(sender, amount)
      case Err(e) => Err(e)
      case Ok(debited) =>
        var credited := Deposited(recipient, amount);
        assert credited.Ok?;
        Ok((debited, credited.value))
  }

  /** Depositing an amount and withdrawing it again restores the balance. */
  lemma DepositWithdrawRoundTrip(balance: real, amount: real)
    requires balance >= 0.0 && amount > 0.0
    ensures Withdrawn(Deposited(balance, amount).value, amount) == Ok(balance)
  {
  }

  // ---------------------------------------------------------------------------
  // One account

  class User {
    const userId: string
    const password: string
    var balance: real

    constructor (userId: string, password: string)
      ensures this.userId == userId && this.password == password
      ensures balance == 0.0
    {
      this.userId := userId;
      this.password := password;
      balance := 0.0;
    }

    method Deposit(amount: real) returns (s: Status)
      modifies this
      ensures s == StatusOf(Deposited(old(balance), amount))
      ensures balance == Settle(old(balance), Deposited(old(balance), amount))
    {
      if amount <= 0.0 {
        return Raised(InvalidAmount);
      }
      balance := balance + amount;
      s := Done;
    }

    method Withdraw(amount: real) returns (s: Status)
      modifies this
      ensures s == StatusOf(Withdrawn(old(balance), amount))
      ensures balance == Settle(old(balance), Withdrawn(old(balance), amount))
    {
      if amount <= 0.0 {
        return Raised(InvalidAmount);
      }
      if balance < amount {
        return Raised(BalanceTooLow);
      }
      balance := balance - amount;
      s := Done;
    }

    /** Moves amount from this user to other; the two are compared by identity. */
    method TransferTo(other: User, amount: real) returns (s: Status)
      modifies this, other
      ensures var r := Transferred(this == other, old(balance), old(other.balance), amount);
        && s == StatusOf(r)
        && balance == (if r.Ok? then r.value.0 else old(balance))
        && other.balance == (if r.Ok? then r.value.1 else old(other.balance))
    {
      if this == other {
        return Raised(CannotTransferToSelf);
      }
      s := Withdraw(amount);
      if s.Raised? {
        return;
      }
      var credited := other.Deposit(amount);
      assert credited == Done;
    }

    method RechargePhone(phone: string, amount: real) returns (s: Status)
      modifies this
      ensures s == StatusOf(Recharged(old(balance), phone, amount))
      ensures balance == Settle(old(balance), Recharged(old(balance), phone, amount))
    {
      if !ValidPhone(phone) {
        return Raised(InvalidPhoneNumber);
      }
      s := Withdraw(amount);
    }
  }

  // ---------------------------------------------------------------------------
  // The registry

  /** Ids are the text of a number in 10000..99999, passwords of one in 1000..9999. */
  predicate IsUserId(id: string) {
    IsDecimalIn(id, 10000, 99999)
  }

  predicate IsPassword(pw: string) {
    IsDecimalIn(pw, 1000, 9999)
  }

  /** A user stored under `id` carries that id, and both its id and its
      password have the shape create_user gives them. */
  predicate Registered(id: string, user: User) {
    user.userId == id && IsUserId(id) && IsPassword(user.password)
  }

  /** Adding a Registered entry to a map of Registered entries keeps them all Registered. */
  lemma InsertRegistered(m: map<string, User>, id: string, user: User)
    requires forall k :: k in m ==> Registered(k, m[k])
    requires Registered(id, user)
    ensures var m' := m[id := user]; forall k :: k in m' ==> Registered(k, m'[k])
  {
  }

  class Bank {
    var users: map<string, User>

    /** Every entry is Registered under its key. */
    ghost predicate Valid()
      reads this
    {
      forall id :: id in users ==> Registered(id, users[id])
    }

    constructor ()
      ensures Valid() && users == map[]
    {
      users := map[];
    }

    /** create_user. Each element of `draws` is one result of
        random.randint(10000, 99999), taken in order until one is not yet an
        id; `passwordDraw` is the result of random.randint(1000, 9999). */
    method CreateUser(draws: seq<nat>, passwordDraw: nat) returns (user: User, ghost k: nat)
      requires Valid()
      requires forall j :: 0 <= j < |draws| ==> 10000 <= draws[j] <= 99999
      requires exists j :: 0 <= j < |draws| && DecimalString(draws[j]) !in users
      requires 1000 <= passwordDraw <= 9999
      modifies this
      ensures Valid()
      ensures fresh(user) && user.balance == 0.0
      ensures user.userId !in old(users) && users == old(users)[user.userId := user]
      ensures k < |draws| && user.userId == DecimalString(draws[k])
      ensures forall j :: 0 <= j < k ==> DecimalString(draws[j]) in old(users)
      ensures user.password == DecimalString(passwordDraw)
      ensures Authenticate(user.userId, user.password) == Ok(user)
    {
      var i := 0;
      while true
        invariant i < |draws|
        invariant forall j :: 0 <= j < i ==> DecimalString(draws[j]) in users
        invariant exists j :: i <= j < |draws| && DecimalString(draws[j]) !in users
        decreases |draws| - i
      {
        if DecimalString(draws[i]) !in users {
          break;
        }
        i := i + 1;
      }
      var uid := DecimalString(draws[i]);
      var pwd := DecimalString(passwordDraw);
      DecimalStringIn(draws[i], 10000, 99999);
      DecimalStringIn(passwordDraw, 1000, 9999);
      user := new User(uid, pwd);
      k := i;
      InsertRegistered(users, uid, user);
      users := users[uid := user];
    }

    /** authenticate: a lookup that never changes the registry. An unknown id
        and a wrong password raise the same error. */
    function Authenticate(userId: string, password: string): (r: Result<User>)
      reads this
      ensures r.Ok? <==> userId in users && users[userId].password == password
      ensures r.Ok? ==> r.value == users[userId]
      ensures r.Err? ==> r.error == InvalidLogin
    {
      if userId !in users || users[userId].password != password then Err(InvalidLogin)
      else Ok(users[userId])
    }

    /** delete_user: `del` on the user's id, which must be present. */
    method DeleteUser(user: User)
      requires Valid()
      requires user.userId in users
      modifies this
      ensures Valid()
      ensures users == old(users) - {user.userId}
      ensures forall pw :: Authenticate(user.userId, pw) == Err(InvalidLogin)
    {
      users := users - {user.userId};
    }
  }

  /** Under the registry invariant no user object is stored under two ids. */
  lemma OneIdPerUser(bank: Bank, id: string, other: string)
    requires bank.Valid()
    requires id in bank.users && other in bank.users && id != other
    ensures bank.users[id] != bank.users[other]
  {
  }

  /** Under the registry invariant a successful login returns the user whose
      id is the one logged in with. */
  lemma LoginYieldsOwner(bank: Bank, id: string, password: string)
    requires bank.Valid()
    ensures bank.Authenticate(id, password).Ok? ==> bank.Authenticate(id, password).value.userId == id
  {
  }
}
