# Bank account model

A Dafny model of the console banking simulator in `Project-6-bank-system/bank.cpp`.
It covers the account hierarchy and the account registry kept by `main`.

The account hierarchy has an abstract `BankAccount` and three subclasses:
`SavingsAccount`, `CheckingAccount` and `FixedDepositAccount`. In the model:

- `AccountRules` (`rules.dfy`) holds the balance rules as pure functions over exact reals:
  - `Credit` is the deposit rule.
  - `WithdrawRule` is the base withdrawal rule and the Checking overdraft override.
  - `Accrued` is the per-variant interest formula.
  - The module also has the variant datatype `Kind` and the lemmas about these rules.
- `Accounts` (`account.dfy`) holds `class Account`. It models the C++ objects:
  - The account number, holder and variant are fixed at construction.
  - `balance` is the one mutable field. `Deposit`, `Withdraw`, `SetBalance` and
    `CalculateInterest` update it in place.
  - The three subclasses become one class. Its `kind` field selects the variant's
    behaviour where the C++ code uses virtual dispatch.
  - `getBalance` and `getAccountNumber` become plain reads of the `balance` field and
    the `number` constant.
- `Registry` (`registry.dfy`) holds `class Bank`, the registry kept by `main`:
  - a fixed array of ten account slots and the count of slots in use;
  - account creation (menu cases 1-3);
  - deposit and withdrawal by account number (cases 4-5), using a linear
    first-match search with a `found` flag and `break`;
  - the interest pass over all accounts (case 7).
- `Scenarios` (`scenarios.dfy`) works through example runs. It checks them only
  through the method contracts.

The constructors never check the rate, the overdraft limit or the term. So the
safety invariants rest on explicit assumptions, given by the predicate `WellFormed`:

- the overdraft limit is at least 0;
- the Savings rate is at least -100;
- the Fixed Deposit rate times the term is at least -1200.

The safety invariant itself is `Account.Valid()`: the assumptions hold, and the
balance is at or above `Floor(kind)`. The floor is 0 for Savings and Fixed Deposit,
and minus the limit for Checking.

No operation requires these assumptions, because the code accepts any values. Each
operation instead promises that it keeps `Valid()` when `Valid()` held before. The
constructor establishes `Valid()` whenever the assumptions hold.

Deposit and withdrawal keep the floor with no assumption at all. Only interest
accrual needs them. For example, a Savings rate below -100 drives a positive balance
negative. The code would compute that without complaint.

## Model

| member | source | states |
|---|---|---|
| AccountRules.Credit | Project-6-bank-system/bank.cpp:21-28 | A deposit never lowers the balance. The balance changes exactly when the amount is positive, and then it rises by exactly that amount. |
| AccountRules.WithdrawRule | Project-6-bank-system/bank.cpp:30-39 | A withdrawal succeeds iff the amount is positive and the balance minus the amount stays at or above the variant's floor: 0 for the base rule, minus the limit for the Checking override. Success lowers the balance by exactly the amount; failure leaves it unchanged. Either way a balance at or above the floor stays there. |
| AccountRules.OverdraftWithinLimit | Project-6-bank-system/bank.cpp:91-104 | After an accepted Checking withdrawal, a negative balance means the reported overdraft is exactly minus the new balance. It is then positive and at most the limit. Otherwise no overdraft is reported. |
| AccountRules.Accrued | Project-6-bank-system/bank.cpp:65-69 | One accrual multiplies the balance by the variant's growth factor: 1 + rate/100 for Savings, 1 + rate*term/1200 for Fixed Deposit, and 1 for Checking, which leaves the balance unchanged. |
| AccountRules.Compounding | Project-6-bank-system/bank.cpp:65-69 | Repeated accruals compound: n calls multiply the balance by the growth factor raised to the n. |
| AccountRules.CheckingNeverAccrues | Project-6-bank-system/bank.cpp:106-108 | Any number of interest calls leaves a Checking balance unchanged. |
| AccountRules.AccrualKeepsFloor | Project-6-bank-system/bank.cpp:131-135 | Under the attribute assumptions, one accrual keeps a balance at or above its variant's floor. |
| AccountRules.AccrualsKeepFloor | Project-6-bank-system/bank.cpp:65-69 | Under the attribute assumptions, no number of accruals takes a balance below its variant's floor. |
| Accounts.Account.constructor | Project-6-bank-system/bank.cpp:14-19 | Sets the number, holder and variant, then deposits the initial balance into a zero balance. A positive initial balance becomes the balance; any other leaves it at 0. The invariant holds whenever the attribute assumptions do. |
| Accounts.Account.Deposit | Project-6-bank-system/bank.cpp:21-28 | The new balance is the deposit rule applied to the old one, the same for all variants. The safety invariant is preserved. |
| Accounts.Account.Withdraw | Project-6-bank-system/bank.cpp:30-104 | The result and the new balance are the variant's withdrawal rule applied to the old balance: the base rule (bank.cpp:30-39) for Savings and Fixed Deposit, the overdraft override (bank.cpp:91-104) for Checking. The safety invariant is preserved. |
| Accounts.Account.SetBalance | Project-6-bank-system/bank.cpp:43-44 | The balance becomes exactly the given value. |
| Accounts.Account.CalculateInterest | Project-6-bank-system/bank.cpp:65-135 | The new balance is one accrual of the old one under the variant's formula: Savings at bank.cpp:65-69, Checking (none) at bank.cpp:106-108, Fixed Deposit at bank.cpp:131-135. The safety invariant is preserved. |
| Registry.FirstMatch | Project-6-bank-system/bank.cpp:228-234 | Gives the first position in array order holding the key: it matches, and no earlier position does. The result is "none" iff no position matches. |
| Registry.Bank.constructor | Project-6-bank-system/bank.cpp:150-152 | Starts with ten empty slots and a count of 0. |
| Registry.Bank.Open | Project-6-bank-system/bank.cpp:183 | Stores a freshly created account in the next slot and increments the count. The earlier slots are unchanged and the number list grows by the new number. Safety is kept when the new account's attributes meet the assumptions. |
| Registry.Bank.DepositTo | Project-6-bank-system/bank.cpp:227-235 | `found` says whether some account has the number. Only the first account in array order with that number gets the deposit rule; every other balance is unchanged, and nothing changes when no account matches. Safety is kept. |
| Registry.Bank.WithdrawFrom | Project-6-bank-system/bank.cpp:245-253 | `found` says whether some account has the number. Only the first matching account has its own withdrawal rule applied, and `ok` reports that rule's verdict. Every other balance is unchanged, and nothing changes when no account matches. Safety is kept. |
| Registry.Bank.ApplyInterest | Project-6-bank-system/bank.cpp:263-265 | Each account in use receives exactly one accrual under its own variant's formula. Safety is kept. |

## Left out

- Console I/O is not modelled: the menu, the `cin` parsing and every `cout` message. Outcomes are return values instead: `Withdraw` returns its `bool`, and the registry returns `found`. The overdraft message becomes the function `OverdraftUsed`.
- `displayAccountInfo` in all three variants and menu case 6 only print, with no effect on state.
- Floating point is not modelled. Balances, rates and limits are exact reals, so the equalities above hold over reals, not over the `double` rounding of the C++ code.
- Heap deletion at exit and the virtual destructor are not modelled. Dafny has no manual deallocation.
- Registry.Bank.Open requires a free slot. The C++ code increments `accountCount` past `MAX_ACCOUNTS` without a check, which is undefined behaviour, so the model excludes it with this precondition.
- Account numbers need not be unique. The code never enforces uniqueness, so the model keeps first-match semantics.
- Account.Valid and Bank.Safe hold only under the attribute assumptions of `WellFormed`, which the constructors do not check. Deposits and withdrawals keep Savings and Fixed Deposit balances at or above 0 for any attributes. Interest keeps them there only under `WellFormed`: a Savings rate below -100 turns a positive balance negative, and bank.cpp:65-67 computes that without a check.
- Account.SetBalance: access control is not modelled. In the C++ code `setBalance` is protected (bank.cpp:43-44), so only the subclasses can call it. In the model the method is public and does not promise to keep `Valid()`. Within the model, only `Withdraw` and `CalculateInterest` call it.
