/** The balance rules of the three account variants, as pure functions over
    exact real numbers: what a deposit, a withdrawal and one interest accrual
    do to a balance. The class in module Accounts applies them in place. */
module AccountRules {

  /** The closed set of account variants with their variant-specific,
      never-updated attributes (rates are percentages). */
  datatype Kind =
    | Savings(interestRate: real)
    | Checking(overdraftLimit: real)
    | FixedDeposit(termMonths: int, interestRate: real)

  /** Assumptions on the attributes that the account constructors accept
      without checking; the safety invariants below hold only under them. */
  predicate WellFormed(k: Kind)
  {
    match k
    case Savings(rate) => rate >= -100.0
    case Checking(limit) => limit >= 0.0
    case FixedDeposit(term, rate) => rate * term as real >= -1200.0
  }

  /** The lowest balance a variant's withdrawal rule lets an account reach. */
  function Floor(k: Kind): real
  {
    if k.Checking? then -k.overdraftLimit else 0.0
  }

  /** The balance after a deposit of `amount`: only a positive amount is
      accepted; any other amount is refused and changes nothing. */
  function Credit(balance: real, amount: real): (r: real)
    ensures r >= balance
    ensures r == balance <==> amount <= 0.0
    ensures r > balance ==> r - balance == amount
  {
    if amount > 0.0 then balance + amount else balance
  }

  /** Outcome of a withdrawal: whether it was accepted and the resulting balance. */
  datatype Transition = Transition(ok: bool, balance: real)

  /** The withdrawal rule of each variant: the shared base rule for Savings and
      FixedDeposit, the overdraft rule for Checking. */
  function WithdrawRule(k: Kind, balance: real, amount: real): (r: Transition)
    ensures r.ok <==> 0.0 < amount && balance - amount >= Floor(k)
    ensures r.ok ==> r.balance == balance - amount
    ensures !r.ok ==> r.balance == balance
    ensures balance >= Floor(k) ==> r.balance >= Floor(k)
  {
    match k
    case Checking(limit) =>
      if amount > 0.0 && balance + limit >= amount then Transition(true, balance - amount)
      else Transition(false, balance)
    case _ =>
      if amount > 0.0 && balance >= amount then Transition(true, balance - amount)
      else Transition(false, balance)
  }

  /** Overdraft reported after a withdrawal that left `balance`: the amount
      below zero, or nothing when the balance is not negative. */
  function OverdraftUsed(balance: real): real
  {
    if balance < 0.0 then -balance else 0.0
  }

  /** The factor one interest accrual multiplies a balance by. */
  function Growth(k: Kind): real
  {
    match k
    case Savings(rate) => 1.0 + rate / 100.0
    case Checking(_) => 1.0
    case FixedDeposit(term, rate) => 1.0 + rate * term as real / 1200.0
  }

  /** The balance after one interest accrual, computed as the variant's formula
      does: Savings adds `rate` percent, FixedDeposit adds the annual rate
      prorated over the term in months, Checking earns nothing. */
  function Accrued(k: Kind, balance: real): (r: real)
    ensures r == balance * Growth(k)
    ensures k.Checking? ==> r == balance
  {
    match k
    case Savings(rate) =>
      var interest := balance * rate / 100.0;
      balance + interest
    case Checking(_) =>
      balance
    case FixedDeposit(term, rate) =>
      var interest := balance * rate * term as real / (12.0 * 100.0);
      balance + interest
  }

  /** The balance after `n` successive interest accruals. */
  function AccruedTimes(k: Kind, balance: real, n: nat): real
  {
    if n == 0 then balance else Accrued(k, AccruedTimes(k, balance, n - 1))
  }

  function Power(x: real, n: nat): real
  {
    if n == 0 then 1.0 else Power(x, n - 1) * x
  }

  /** `balance` multiplied by `g`, `n` times over. Together with ScaleStep it
      splits the nonlinear proof of Compounding into steps the solver can
      check within its resource budget. */
  function Scaled(g: real, balance: real, n: nat): real
  {
    if n == 0 then balance else Scaled(g, balance, n - 1) * g
  }

  /** Accruals compound: `n` calls multiply the balance by the growth factor
      `n` times over. */
  lemma {:induction false} Compounding(k: Kind, balance: real, n: nat)
    ensures AccruedTimes(k, balance, n) == balance * Power(Growth(k), n)
  {
    AccrualsScale(k, balance, n);
    ScaledIsPower(Growth(k), balance, n);
  }

  /** Each accrual scales the balance by the growth factor once more. */
  lemma {:induction false} AccrualsScale(k: Kind, balance: real, n: nat)
    ensures AccruedTimes(k, balance, n) == Scaled(Growth(k), balance, n)
  {
    if n > 0 {
      AccrualsScale(k, balance, n - 1);
    }
  }

  lemma {:induction false} ScaledIsPower(g: real, balance: real, n: nat)
    ensures Scaled(g, balance, n) == balance * Power(g, n)
  {
    if n > 0 {
      ScaledIsPower(g, balance, n - 1);
      ScaleStep(Scaled(g, balance, n - 1), balance, Power(g, n - 1), g);
    }
  }

  /** Associativity of multiplication, stated separately for Compounding's
      resource budget. */
  lemma ScaleStep(before: real, balance: real, p: real, g: real)
    requires before == balance * p
    ensures before * g == balance * (p * g)
  {
  }

  /** Under the attribute assumptions, one accrual keeps a balance at or above
      its variant's floor. */
  lemma AccrualKeepsFloor(k: Kind, balance: real)
    requires WellFormed(k) && balance >= Floor(k)
    ensures Accrued(k, balance) >= Floor(k)
  {
  }

  /** A Checking balance is unchanged by any number of accruals. */
  lemma {:induction false} CheckingNeverAccrues(limit: real, balance: real, n: nat)
    ensures AccruedTimes(Checking(limit), balance, n) == balance
  {
    if n > 0 {
      CheckingNeverAccrues(limit, balance, n - 1);
    }
  }

  /** Under the attribute assumptions, no number of accruals takes a balance
      below its variant's floor. */
  lemma {:induction false} AccrualsKeepFloor(k: Kind, balance: real, n: nat)
    requires WellFormed(k) && balance >= Floor(k)
    ensures AccruedTimes(k, balance, n) >= Floor(k)
  {
    if n > 0 {
      AccrualsKeepFloor(k, balance, n - 1);
      AccrualKeepsFloor(k, AccruedTimes(k, balance, n - 1));
    }
  }

  /** After an accepted Checking withdrawal the reported overdraft is exactly
      how far the balance went below zero, and never more than the limit. */
  lemma OverdraftWithinLimit(limit: real, balance: real, amount: real)
    requires WithdrawRule(Checking(limit), balance, amount).ok
    ensures var after := WithdrawRule(Checking(limit), balance, amount).balance;
      (after < 0.0 ==> 0.0 < OverdraftUsed(after) == -after <= limit) &&
      (after >= 0.0 ==> OverdraftUsed(after) == 0.0)
  {
  }
}
