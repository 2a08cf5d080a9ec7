/** A bank account object: identity fixed at construction, one mutable
    balance that deposit, withdraw and interest accrual update in place. The
    three C++ subclasses become one class whose `kind` selects the variant's
    withdrawal and interest behaviour. */
module Accounts {
  import opened AccountRules

  class Account {
    const number: int
    const holder: string
    const kind: Kind
    var balance: real

    /** The safety invariant: the attribute assumptions hold and the balance
        is at or above the variant's floor (0, or minus the overdraft limit). */
    ghost predicate Valid()
      reads this
    {
      WellFormed(kind) && balance >= Floor(kind)
    }

    /** Starts from a zero balance and hands the initial balance to Deposit,
        so a non-positive initial balance leaves the account at 0. */
    constructor (number: int, holder: string, initial: real, kind: Kind)
      ensures this.number == number && this.holder == holder && this.kind == kind
      ensures balance == Credit(0.0, initial)
      ensures initial > 0.0 ==> balance == initial
      ensures initial <= 0.0 ==> balance == 0.0
      ensures WellFormed(kind) ==> Valid()
    {
      this.number := number;
      this.holder := holder;
      this.kind := kind;
      balance := 0.0;
      new;
      Deposit(initial);
    }

    /** The same for every variant: a positive amount is added, anything else
        is refused. */
    method Deposit(amount: real)
      modifies this
      ensures balance == Credit(old(balance), amount)
      ensures old(Valid()) ==> Valid()
    {
      if amount > 0.0 {
        balance := balance + amount;
      }
    }

    /** Savings and FixedDeposit use the base rule (never below zero); Checking
        overrides it to allow an overdraft down to minus its limit. */
    method Withdraw(amount: real) returns (ok: bool)
      modifies this
      ensures ok == WithdrawRule(kind, old(balance), amount).ok
      ensures balance == WithdrawRule(kind, old(balance), amount).balance
      ensures old(Valid()) ==> Valid()
    {
      match kind
      case Checking(limit) =>
        if amount > 0.0 && balance + limit >= amount {
          var newBalance := balance - amount;
          SetBalance(newBalance);
          ok := true;
        } else {
          ok := false;
        }
      case _ =>
        if amount > 0.0 && balance >= amount {
          balance := balance - amount;
          ok := true;
        } else {
          ok := false;
        }
    }

    /** The mutator the variants use to store a balance they computed. */
    method SetBalance(newBalance: real)
      modifies this
      ensures balance == newBalance
    {
      balance := newBalance;
    }

    /** One interest accrual with the variant's formula; a no-op on Checking. */
    method CalculateInterest()
      modifies this
      ensures balance == Accrued(kind, old(balance))
      ensures old(Valid()) ==> Valid()
    {
      if Valid() {
        AccrualKeepsFloor(kind, balance);
      }
      match kind
      case Savings(rate) =>
        var interest := balance * rate / 100.0;
        SetBalance(balance + interest);
      case Checking(_) =>
      case FixedDeposit(term, rate) =>
        var interest := balance * rate * term as real / (12.0 * 100.0);
        SetBalance(balance + interest);
    }
  }
}
