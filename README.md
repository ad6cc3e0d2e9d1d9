# Bank accounts, modelled in Dafny

This project models a small bank-account simulation that exists in two
versions of the same object model.

- `source/acc_framework.py` (module `AccFramework`, file `acc_framework.dfy`)
  is the framework version. An account has a private balance, name and
  password. It comes as a savings or a current variant. A separate fixed
  deposit can be broken into an account's balance with a 9 % bonus.
- `source/accounts.py` (module `Accounts`, file `accounts.dfy`) is the simpler
  version. Its balance is a plain public attribute. The variants apply their
  deposit and withdrawal ceilings, and interest is paid once an account is a
  year old.

Both versions are classes whose methods update fields in place. The Python
subclasses `SavingsAccount` and `CurrentAccount` become one Dafny class with
a `kind` field. Every exception the code raises becomes an `Outcome` or
`Result` value, so no operation has a precondition the Python callers do not
have. The shared modules are:

- `Outcomes`: the errors and result types.
- `Credentials`: the constructor asserts and the name/password setter
  asserts, which are the same in every class of both files.
- `Variants`: the account kind and its ceilings.
- `Files`: the directory of `<name>.pkl` files, as a map from name to record
  held in a `Directory` object.

Money is `real`, so 0.05, 0.07 and 0.09 are exact. The clock is a `now`
parameter.

These behaviours of the framework version are kept as written:

- Inside `SavingsAccount` and `CurrentAccount`, `self.__balance` is
  name-mangled to `_SavingsAccount__balance` or `_CurrentAccount__balance`.
  No constructor sets these attributes. So their `deposit` and `withdraw`
  run their asserts and then raise AttributeError, and the balance never
  changes. The model returns `AttributeMissing` and its methods have no
  `modifies` clause.
- The `balance` setter takes no value argument. Assigning to `balance`
  therefore raises TypeError (`ArgumentCount`) and changes nothing.
- `load` returns `None` when no record exists under the name.
- `load` unpickles whatever is filed under a name. A fixed deposit's record
  has no `check_passwd`, so loading one raises AttributeError.

Records are never re-checked when they are loaded. A record that was saved
from an object whose password has at least 8 characters still has such a
password, so a store filled only by `save` yields only valid objects.

## Model

| member | source | states |
|---|---|---|
| `Credentials.CreationCheck` | source/acc_framework.py:25-27 | construction passes iff balance > 0 and the password has at least 8 characters; the funds assert is checked first |
| `Credentials.NameChange` | source/acc_framework.py:64-68 | a new name is accepted iff it differs from the current one; otherwise "name already in use" |
| `Credentials.PasswdChange` | source/acc_framework.py:70-75 | a new password is accepted iff it differs from the current one and has at least 8 characters; equality is reported before length |
| `Credentials.SetterRefusesRepeat` | source/accounts.py:30-41 | setting a name or password to its own current value is always refused, with "already in use" |
| `Variants.DepositCheck` | source/accounts.py:97-101 | deposit passes iff amount > 0 and, for savings, amount <= 1000000; failures say which assert fired (current variant: lines 114-117) |
| `Variants.WithdrawCheck` | source/accounts.py:91-95 | withdraw passes iff amount > 0 and, for savings, amount <= 200000; no check against the balance (current variant: lines 109-112) |
| `Variants.CeilingBoundaries` | source/accounts.py:91-117 | the savings ceilings are inclusive (1000000 and 200000 pass, one more fails); a current account accepts any positive amount |
| `Files.Directory.Dump` | source/acc_framework.py:91-92 | writing a file creates or overwrites the record under that name only |
| `Files.Directory.Open` | source/acc_framework.py:113-115 | opening succeeds iff a record exists under the name and yields that record; otherwise FileNotFoundError |
| `Files.Directory.Remove` | source/acc_framework.py:196 | removing deletes the record under the name; a missing file raises FileNotFoundError and leaves the directory unchanged |
| `AccFramework.BreakValue` | source/acc_framework.py:194 | the credit for breaking a deposit of balance b is b × 1.09 |
| `AccFramework.Account.Create` | source/acc_framework.py:25-32 | creation succeeds iff balance > 0 and the password has at least 8 characters; the new object's fields equal the arguments and its creation time is `now` |
| `AccFramework.Account.ReadPasswd` | source/acc_framework.py:55-62 | reading `passwd` always yields None |
| `AccFramework.Account.SetName` | source/acc_framework.py:64-68 | the current name is refused and kept; any other name replaces it |
| `AccFramework.Account.SetPasswd` | source/acc_framework.py:70-75 | the current or a short password is refused and kept; otherwise the new one replaces it, after which only the new one passes check_passwd; the length invariant is preserved |
| `AccFramework.Account.AssignBalance` | source/acc_framework.py:77-79 | assigning the balance always raises TypeError and changes nothing |
| `AccFramework.Account.CheckPasswd` | source/acc_framework.py:171-184 | true exactly when the candidate equals the stored password |
| `AccFramework.Account.Save` | source/acc_framework.py:81-92 | the account's state is written under its current name, overwriting; other records untouched; every record stays filed under its own name; saving a valid account keeps every stored password at least 8 characters long |
| `AccFramework.Account.SaveDeposit` | source/acc_framework.py:81-92 | `save` applied to a fixed deposit: its state is written under its name, overwriting; saving a valid deposit keeps every stored password long enough |
| `AccFramework.Account.Load` | source/acc_framework.py:94-120 | no record gives None; a deposit record raises AttributeError; an account record with another password raises "Wrong Password!"; otherwise a new object with the stored state, named as requested, and valid when every stored password is long enough |
| `AccFramework.Account.Withdraw` | source/acc_framework.py:210-216 | always fails: a failed assert as for the savings/current ceilings, otherwise AttributeError on the mangled balance; the balance never changes (current variant: lines 236-241) |
| `AccFramework.Account.Deposit` | source/acc_framework.py:218-222 | always fails: a failed assert, otherwise AttributeError on the mangled balance; the balance never changes (current variant: lines 243-246) |
| `AccFramework.Account.ReceiveSum` | source/acc_framework.py:162-169 | the balance rises by exactly the amount, with no check |
| `AccFramework.Account.Transfer` | source/acc_framework.py:149-160 | fails for amount <= 0 with both balances unchanged; otherwise the sender loses and the receiver gains exactly the amount, with no ceiling or funds check; the sum is preserved and a self-transfer changes nothing |
| `AccFramework.Account.BreakFd` | source/acc_framework.py:186-196 | the balance rises by fd.balance × 1.09 and the deposit's record is removed; a missing record raises FileNotFoundError after the credit; the deposit itself is untouched; the store invariants are preserved |
| `AccFramework.FixedDeposit.Create` | source/acc_framework.py:255-263 | creation succeeds iff balance > 0 and the password has at least 8 characters; fields equal the arguments, creation time `now` |
| `AccFramework.FixedDeposit.ReadPasswd` | source/acc_framework.py:285-293 | reading `passwd` always yields None |
| `AccFramework.FixedDeposit.SetName` | source/acc_framework.py:295-299 | the current name is refused and kept; any other name replaces it |
| `AccFramework.FixedDeposit.SetPasswd` | source/acc_framework.py:301-306 | the current or a short password is refused and kept; otherwise replaced; the length invariant is preserved |
| `AccFramework.FixedDeposit.AssignBalance` | source/acc_framework.py:308-310 | assigning the balance always raises TypeError and changes nothing |
| `AccFramework.FixedDeposit.CheckMaturity` | source/acc_framework.py:312-322 | true iff now − created_on >= time_period, inclusive at the boundary |
| `AccFramework.MaturityIsMonotone` | source/acc_framework.py:320 | once a deposit has matured it stays matured at every later time |
| `AccFramework.SaveThenLoad` | source/acc_framework.py:81-120 | save then load with the stored password gives a distinct object with the same state; a wrong password raises "Wrong Password!" |
| `AccFramework.BreakThenLoad` | source/acc_framework.py:186-196 | after break_fd the deposit's name has no record, so load returns None; the credit is fd.balance × 1.09 either way |
| `Accounts.AccruedIsGrowth` | source/accounts.py:103-105 | one due interest payment multiplies the balance by 1 + rate |
| `Accounts.RepeatedInterestCompounds` | source/accounts.py:103-105 | n calls of apply_interest after the year give balance × (1 + rate)^n: each call pays again |
| `Accounts.EarlyInterestIsNoOp` | source/accounts.py:119-121 | before 31536000 seconds have passed, any number of calls leaves the balance unchanged |
| `Accounts.InterestNotIdempotent` | source/accounts.py:103-105 | on a non-zero balance, a second call after the year changes the balance again |
| `Accounts.Account.Create` | source/accounts.py:13-20 | creation succeeds iff balance > 0 and the password has at least 8 characters; fields equal the arguments, creation time `now` |
| `Accounts.Account.ReadPasswd` | source/accounts.py:26-28 | reading `passwd` always yields None |
| `Accounts.Account.SetName` | source/accounts.py:30-34 | the current name is refused and kept; any other name replaces it |
| `Accounts.Account.SetPasswd` | source/accounts.py:36-41 | the current or a short password is refused and kept; otherwise replaced, after which only the new one passes check_passwd |
| `Accounts.Account.CheckPasswd` | source/accounts.py:84-87 | true exactly when the candidate equals the stored password |
| `Accounts.Account.Save` | source/accounts.py:43-46 | the state is written under the current name, overwriting; every record stays filed under its own name; saving a valid account keeps every stored password long enough |
| `Accounts.Account.Load` | source/accounts.py:48-59 | no record raises FileNotFoundError, a different password raises "Wrong Password!" (two distinct errors); otherwise a new object with the stored state, named as requested, and valid when every stored password is long enough |
| `Accounts.Account.Withdraw` | source/accounts.py:91-95 | the checks of the variant decide; on success the balance falls by exactly the amount and may go negative; on failure it is unchanged (current variant: lines 109-112) |
| `Accounts.Account.Deposit` | source/accounts.py:97-101 | the checks of the variant decide; on success the balance rises by exactly the amount; on failure it is unchanged (current variant: lines 114-117) |
| `Accounts.Account.ApplyInterest` | source/accounts.py:103-105 | once now − created_on >= 31536000 the balance is multiplied by 1.07 (savings) or 1.05 (current, lines 119-121); before that it is unchanged |
| `Accounts.Account.Transfer` | source/accounts.py:78-82 | fails for amount <= 0 with both balances unchanged; otherwise the sender loses and the receiver gains exactly the amount; the sum is preserved and a self-transfer changes nothing |
| `Accounts.RenameTwice` | source/accounts.py:30-34 | renaming twice to the same name: the second call raises "Name already in use" and the name stays the one the first call set |
| `Accounts.SaveThenLoad` | source/accounts.py:43-59 | save then load with the stored password gives a distinct object with the same state; a wrong password and an unknown name give the two distinct errors |

## Left out

- Pickle serialisation and the files themselves: a record is the object's state as a value, and the directory is a map from name to record. I/O errors other than a missing file on `open` for reading and on `remove` are not modelled.
- `AccFramework.Account.Save`, `AccFramework.Account.SaveDeposit` and `Accounts.Account.Save` never fail. `open(f"{name}.pkl", "wb")` raises when the name holds a directory part that does not exist, or when the file cannot be written.
- `time()`: the clock is the `now` parameter of the constructors, `check_maturity` and `apply_interest`.
- IEEE floating point: balances, interest and time are exact reals, so rounding of `balance * 0.07` and similar products is not modelled.
- The `ABC`/`abstractmethod` machinery and the base-class `withdraw`, `deposit` and `apply_interest` bodies. Every variant overrides them and none calls them through `super`.
- `__repr__`, the class constants `bank_name` and `type`, and the dead `if self.__balance: pass`, which the AttributeError on the line before never lets run.
- Python's dynamic typing: amounts that are not numbers, receivers that are not accounts, and passwords without a `len`.
- `AccFramework.Account.BreakFd` takes only a fixed deposit. Python's `break_fd` accepts any object with `balance` and `name`. Given an account, it would credit that account's balance × 1.09 and remove that account's file.
- `created_on` and `time_period` are public attributes in Python that a caller could rebind. Nothing in either file does so, and the model keeps them constant.
- The public `balance` attribute of the simpler version can be reassigned by any caller. In the model it is a public field as well, so that needs no operation of its own.
- Records written by one version of the model and read by the other, and objects other than accounts saved in the simpler version's directory.
- Concurrent access to the same file.
