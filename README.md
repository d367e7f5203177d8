# Banking ledger core, modelled in Dafny

This project models the business rules of a small single-currency banking app
(`RupendraGhalley_02240091_A3.py`). It also models the independent `Account`
class that the app's test file (`RupendraGhalley_02240091_A3_test.py`) defines
and tests.

- `Ledger` (ledger.dfy) models the app's core. The exception kinds become the
  `BankError` datatype. `User` is a class with a mutable `balance` and four
  guarded operations: `Deposit`, `Withdraw`, `TransferTo` and `RechargePhone`.
  `Bank` is a class whose `users` field is a `map<string, User>`. Its
  operations are `CreateUser`, `Authenticate` and `DeleteUser`. Each mutating
  method is proved against a value-level rule function (`Deposited`,
  `Withdrawn`, `Recharged`, `Transferred`). Each of those functions states
  which error each failing guard raises, in the source's order, and the exact
  balance change on success. Each method's contract adds that the balance is
  unchanged when an error is raised.
  `Bank.Valid()` is the registry invariant: every key is the `userId` of its
  user, ids are the decimal text of a number in 10000..99999, and passwords are
  the decimal text of a number in 1000..9999.
- `Decimal` (decimal.dfy) models Python's `str()` of a non-negative integer,
  which `create_user` uses for ids and passwords. It proves the shape of the
  text and that reading it back gives the number, so distinct draws give
  distinct ids.
- `Accounts` (accounts.dfy) models the test file's `Account` class and its
  rules on values. `Replay` runs a sequence of calls over a ledger of funds.
  The lemmas about it prove that funds never become negative, that each call
  changes the total by exactly its net flow, and that transfers conserve the
  total.
- `Agreement` (agreement.dfy) proves that the two implementations accept the
  same calls and leave the same balances. Their error kinds correspond one to
  one. They differ only in their transfer guards.
- `AccountTests` and `LedgerTests` (account_tests.dfy, ledger_tests.dfy) are
  scenarios. `AccountTests` follows the unit tests of `TestBankingSystem`.
  Each scenario method promises, in its `ensures`, the values that its test
  asserts.

Amounts are Dafny `real` values, which are exact. The source's success
messages are replaced by a `Status` (`Done` or `Raised(error)`).

The model follows the code in these points, where a reader might expect
otherwise:
- The phone rule checks only the `77`/`17` prefix and the length 8. It does not
  check that the characters are digits. `LedgerTests.RechargeScenario` shows
  that "77abcdef" is accepted.
- A self-transfer raises the base `BankError`. The model calls this kind
  `CannotTransferToSelf`.
- `delete_user` is an unguarded `del`. The model requires the id to be present
  rather than returning a not-found error.
- `Account.transfer` has no self-transfer check. A transfer to itself passes
  the guards, returns true, and leaves the funds unchanged.

## Model

| member | source | states |
|---|---|---|
| `Ledger.Deposited` | RupendraGhalley_02240091_A3.py:24-27 | deposit fails, with InvalidAmount, exactly when amount <= 0; otherwise the balance grows by exactly amount |
| `Ledger.Withdrawn` | RupendraGhalley_02240091_A3.py:30-35 | withdraw succeeds exactly when 0 < amount <= balance; amount <= 0 gives InvalidAmount before the balance is checked, otherwise balance < amount gives BalanceTooLow; success lowers the balance by exactly amount and never leaves it negative |
| `Ledger.Recharged` | RupendraGhalley_02240091_A3.py:45-48 | a phone without the 77/17 prefix or not 8 long gives InvalidPhoneNumber whatever the amount; with a valid phone the result is exactly withdraw's, so amount <= 0 gives InvalidAmount and amount > balance gives BalanceTooLow; success lowers the balance by exactly amount |
| `Ledger.Transferred` | RupendraGhalley_02240091_A3.py:38-42 | a transfer to the same object always fails with the base BankError; otherwise it ends as withdraw(amount) ends, succeeds exactly when 0 < amount <= sender, debits the sender by amount, credits the recipient by amount, and conserves the sum of the two balances |
| `Ledger.DepositWithdrawRoundTrip` | RupendraGhalley_02240091_A3.py:24-35 | depositing a positive amount and then withdrawing it restores the original balance |
| `Ledger.User.constructor` | RupendraGhalley_02240091_A3.py:19-22 | a new user keeps the given id and password and starts with balance 0 |
| `Ledger.User.Deposit` | RupendraGhalley_02240091_A3.py:24-28 | the method raises what Deposited raises, and the balance becomes Deposited's result on success and stays unchanged on error |
| `Ledger.User.Withdraw` | RupendraGhalley_02240091_A3.py:30-36 | the method raises what Withdrawn raises, and the balance becomes Withdrawn's result on success and stays unchanged on error |
| `Ledger.User.TransferTo` | RupendraGhalley_02240091_A3.py:38-43 | comparing by object identity, the method ends as Transferred says; both balances take Transferred's values on success, and neither changes on any error, so a transfer to a real (non-None) recipient is all-or-nothing |
| `Ledger.User.RechargePhone` | RupendraGhalley_02240091_A3.py:45-49 | the method raises what Recharged raises; the balance becomes Recharged's result on success and stays unchanged on error |
| `Ledger.Bank.constructor` | RupendraGhalley_02240091_A3.py:53-54 | a new bank has no users and satisfies the registry invariant |
| `Ledger.Bank.CreateUser` | RupendraGhalley_02240091_A3.py:56-64 | the id is the text of the first draw that is not yet a key, and every earlier draw was a key; the password is the text of the password draw; the new user is fresh with balance 0; it is added under its own id and no other entry changes; the invariant is kept; and the new user can log in with its password |
| `Ledger.Bank.Authenticate` | RupendraGhalley_02240091_A3.py:66-70 | it returns the stored user exactly when the id is a key whose password equals the given one; an unknown id and a wrong password both give InvalidLogin; it reads the registry without changing it |
| `Ledger.Bank.DeleteUser` | RupendraGhalley_02240091_A3.py:72-73 | for an id that is present, exactly that key is removed, every other entry is unchanged, the invariant is kept, and no password logs in to that id afterwards |
| `Ledger.OneIdPerUser` | RupendraGhalley_02240091_A3.py:62-63 | under the registry invariant no user object is stored under two ids |
| `Ledger.LoginYieldsOwner` | RupendraGhalley_02240091_A3.py:66-70 | under the registry invariant a successful login returns a user whose id is the one logged in with |
| `Decimal.DecimalStringShape` | RupendraGhalley_02240091_A3.py:58 | str(n) is all digits, NumDigits(n) characters long, and has no leading zero |
| `Decimal.DecimalRoundTrip` | RupendraGhalley_02240091_A3.py:58 | reading back the decimal text of n gives n |
| `Decimal.DecimalStringInjective` | RupendraGhalley_02240091_A3.py:58-59 | two numbers have the same decimal text exactly when they are equal, so the uniqueness check on the id text is a check on the drawn number |
| `Decimal.DecimalStringIn` | RupendraGhalley_02240091_A3.py:58-61 | the text of a draw in a range is a canonical decimal text of a number in that range |
| `Decimal.DecimalWidth` | RupendraGhalley_02240091_A3.py:58-61 | ids are five characters long and passwords four |
| `Accounts.AfterDeposit` | RupendraGhalley_02240091_A3_test.py:10-14 | deposit raises, as a non-positive amount, exactly when amount <= 0; otherwise it returns funds plus amount |
| `Accounts.AfterWithdraw` | RupendraGhalley_02240091_A3_test.py:16-22 | withdraw returns exactly when 0 < amount <= funds, checking the amount before the funds; the returned funds are old funds minus amount and never negative |
| `Accounts.TransferOutcome` | RupendraGhalley_02240091_A3_test.py:24-33 | the checks run in order: a missing recipient, then a non-positive amount, then insufficient funds; otherwise the transfer returns true |
| `Accounts.AfterRecharge` | RupendraGhalley_02240091_A3_test.py:35-38 | a number not 8 long or without the 77/17 prefix is rejected whatever the amount; otherwise the outcome is exactly withdraw's, errors included, and success returns the funds it leaves |
| `Accounts.Account.constructor` | RupendraGhalley_02240091_A3_test.py:5-8 | a new account keeps its id, passcode and initial funds |
| `Accounts.Account.WithoutFunds` | RupendraGhalley_02240091_A3_test.py:5-8 | a new account made without the funds argument keeps its id and passcode and starts at the default 0.0 |
| `Accounts.Account.Deposit` | RupendraGhalley_02240091_A3_test.py:10-14 | the method returns AfterDeposit's outcome; the funds become the returned value on success and stay unchanged on error |
| `Accounts.Account.Withdraw` | RupendraGhalley_02240091_A3_test.py:16-22 | the method returns AfterWithdraw's outcome; the funds become the returned value on success and stay unchanged on error |
| `Accounts.Account.Transfer` | RupendraGhalley_02240091_A3_test.py:24-33 | the method returns TransferOutcome's result; on error no funds change; on success between two accounts the sender loses amount and the recipient gains it; a transfer to itself succeeds and leaves the funds unchanged; in every case (None, itself, another account) the funds after the call are those Moved gives for the same transfer on a ledger of the accounts involved |
| `Accounts.Account.Recharge` | RupendraGhalley_02240091_A3_test.py:35-38 | the method returns AfterRecharge's outcome; the funds become the returned value on success and stay unchanged on error |
| `Accounts.Apply` | RupendraGhalley_02240091_A3_test.py:10-38 | one call on a ledger of funds changes no account other than its caller and, for a transfer, its recipient; a deposit, withdrawal or recharge changes its caller by exactly its net flow |
| `Accounts.Moved` | RupendraGhalley_02240091_A3_test.py:24-33 | a transfer on a ledger changes nothing when a guard fails or when the recipient is the sender; otherwise it debits the sender and credits the recipient by amount, and no other account changes |
| `Accounts.ApplyKeepsNonNegative` | RupendraGhalley_02240091_A3_test.py:10-33 | one deposit, withdraw, transfer or recharge on a ledger of non-negative funds leaves every account non-negative |
| `Accounts.ReplayKeepsNonNegative` | RupendraGhalley_02240091_A3_test.py:10-38 | starting from non-negative funds, no sequence of deposits, withdrawals, transfers and recharges makes any account's funds negative |
| `Accounts.ApplyTotal` | RupendraGhalley_02240091_A3_test.py:10-38 | each call changes the sum of all funds by exactly its net flow: a successful deposit adds its amount, a successful withdrawal or recharge removes it, and a transfer or a failed call changes nothing |
| `Accounts.TransferTotal` | RupendraGhalley_02240091_A3_test.py:24-33 | one transfer conserves the sum of all funds: it fails and changes nothing, or it debits and credits the same amount, also when sender and recipient are the same account |
| `Accounts.ReplayTransfersConserveTotal` | RupendraGhalley_02240091_A3_test.py:24-33 | any sequence of transfers, including ones to a missing recipient or to the sender itself, leaves the total of all funds unchanged |
| `Agreement.PhoneRulesAgree` | RupendraGhalley_02240091_A3_test.py:36 | checking the length first accepts exactly the numbers that checking the prefix first accepts |
| `Agreement.SingleAccountRulesAgree` | RupendraGhalley_02240091_A3_test.py:10-22 | deposit, withdraw and recharge in the two implementations succeed on the same inputs with the same new balance, and fail with corresponding errors |
| `Agreement.TransferRulesAgree` | RupendraGhalley_02240091_A3_test.py:24-33 | between distinct accounts, transfer_to and Account.transfer succeed on the same inputs, leave the same two balances, and fail with corresponding errors |
| `AccountTests.SetUp` | RupendraGhalley_02240091_A3_test.py:42-44 | the fixture holds a user with 1000 and a recipient with 500 |
| `AccountTests.TestValidDeposit` | RupendraGhalley_02240091_A3_test.py:47-48 | depositing 200 into 1000 returns 1200 |
| `AccountTests.TestNegativeDeposit` | RupendraGhalley_02240091_A3_test.py:50-52 | depositing -100 raises and the funds stay 1000 |
| `AccountTests.TestValidWithdrawal` | RupendraGhalley_02240091_A3_test.py:55-56 | withdrawing 300 from 1000 returns 700 |
| `AccountTests.TestInsufficientFundsWithdrawal` | RupendraGhalley_02240091_A3_test.py:58-60 | withdrawing 2000 from 1000 raises and the funds stay 1000 |
| `AccountTests.TestNegativeWithdrawal` | RupendraGhalley_02240091_A3_test.py:62-64 | withdrawing -50 raises and the funds stay 1000 |
| `AccountTests.TestValidTransfer` | RupendraGhalley_02240091_A3_test.py:67-71 | transferring 200 returns true and leaves 800 and 700 |
| `AccountTests.TestInvalidTransferAmount` | RupendraGhalley_02240091_A3_test.py:73-75 | transferring -100 raises and neither account changes |
| `AccountTests.TestTransferToNone` | RupendraGhalley_02240091_A3_test.py:77-79 | transferring to None raises and the funds stay 1000 |
| `AccountTests.TestTransferInsufficientFunds` | RupendraGhalley_02240091_A3_test.py:81-83 | transferring 2000 raises and neither account changes |
| `AccountTests.TestValidRecharge` | RupendraGhalley_02240091_A3_test.py:86-87 | recharging 100 to "77123456" from 1000 returns 900 |
| `AccountTests.TestInvalidPhoneNumberPrefix` | RupendraGhalley_02240091_A3_test.py:89-91 | recharging to "66123456" raises and the funds stay 1000 |
| `AccountTests.TestInvalidPhoneNumberLength` | RupendraGhalley_02240091_A3_test.py:93-95 | recharging to "7712345" raises and the funds stay 1000 |
| `LedgerTests.LoginScenario` | RupendraGhalley_02240091_A3.py:56-73 | a created user logs in with its own password and has balance 0; a wrong password gives InvalidLogin; after deletion its password gives InvalidLogin |
| `LedgerTests.RetryScenario` | RupendraGhalley_02240091_A3.py:57-63 | a draw that is already an id is skipped, the next free draw becomes the id, and the registry then holds two users |
| `LedgerTests.TransferScenario` | RupendraGhalley_02240091_A3.py:38-42 | A with 1000 sending 200 to B with 500 leaves 800 and 700; a transfer from A to A raises the base BankError and changes nothing |
| `LedgerTests.RechargeScenario` | RupendraGhalley_02240091_A3.py:45-48 | "77123456" is recharged; "66123456" is refused as an invalid phone even with a negative amount; "77abcdef" passes the phone rule |
| `LedgerTests.OverdraftScenario` | RupendraGhalley_02240091_A3.py:30-35 | withdrawing 2000 from 1000 raises BalanceTooLow and the balance stays 1000 |

## Left out

- The tkinter front end (`BankApp` and the `__main__` entry point, RupendraGhalley_02240091_A3.py:75-202) is not modelled. This includes the login-state check, the recipient lookup in the transfer dialog, the message boxes and the `float(...)` parsing of dialog input. It is presentation and input handling, not ledger rules.
- Python `float` arithmetic is not modelled. Amounts are exact reals, so there is no rounding, NaN or infinity.
- The success-message strings (`"Deposited Nu.…"` and the others) are not modelled. The `User` methods return a `Status` instead.
- Ledger.Bank.CreateUser: `random.randint` becomes parameters. `draws` holds the successive id draws and `passwordDraw` the password draw. The method requires that some draw is free, so termination of the real random retry loop is not modelled.
- Ledger.Bank.DeleteUser: the `KeyError` that `del` raises for an id that is already absent is not modelled. The method requires the id to be present.
- The `unittest` machinery (`TestCase`, `assertRaises`, `unittest.main`) is not modelled. Its test bodies appear only as scenario methods.
- Python's dynamic typing is not modelled. Amounts are always numbers, phone numbers strings and recipients accounts (or null for the test file's `None`).
- Ledger.User.TransferTo: `other` is a non-null `User`, so `transfer_to(None, amount)` is not modelled. In the source (RupendraGhalley_02240091_A3.py:41-42) that call debits the sender through `withdraw` and then raises AttributeError on `None.deposit`, so the debit stays. The all-or-nothing contract holds only for a real recipient.
