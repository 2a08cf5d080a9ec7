/** Worked examples of the account rules, checked through the contracts of
    the Account and Bank methods alone. */
module Scenarios {
  import opened AccountRules
  import opened Accounts
  import opened Registry

  method AccountScenarios()
  {
    // Savings, 1000 at 5%: one accrual gives 1050, a second compounds to 1102.5.
    var s := new Account(1, "Asha", 1000.0, Savings(5.0));
    s.CalculateInterest();
    assert s.balance == 1050.0;
    s.CalculateInterest();
    assert s.balance == 1102.5;

    // Checking, 100 with a 50 overdraft: 120 goes through into a 20 overdraft,
    // 200 is refused and changes nothing.
    var c := new Account(2, "Ravi", 100.0, Checking(50.0));
    var ok := c.Withdraw(200.0);
    assert !ok && c.balance == 100.0;
    ok := c.Withdraw(120.0);
    assert ok && c.balance == -20.0 && OverdraftUsed(c.balance) == 20.0;
    c.CalculateInterest();
    assert c.balance == -20.0;

    // FixedDeposit, 1000 at 6% for 12 months: one accrual gives 1060.
    var f := new Account(3, "Meena", 1000.0, FixedDeposit(12, 6.0));
    f.CalculateInterest();
    assert f.balance == 1060.0;

    // A refused deposit and a refused opening balance.
    f.Deposit(-5.0);
    assert f.balance == 1060.0;
    var z := new Account(4, "Kiran", -10.0, Savings(4.0));
    assert z.balance == 0.0;

    // The base withdrawal rule never overdraws.
    ok := f.Withdraw(2000.0);
    assert !ok && f.balance == 1060.0;
  }

  method FirstMatchScenario()
  {
    var bank := new Bank();
    var a := bank.Open(7, "Asha", 100.0, Savings(10.0));
    var b := bank.Open(7, "Ravi", 50.0, Checking(25.0));
    assert bank.Numbers() == [7, 7];

    // Two accounts share number 7: only the first one in the array moves.
    var found := bank.DepositTo(7, 5.0);
    assert found && a.balance == 105.0 && b.balance == 50.0;

    // No account 8: nothing changes.
    var ok;
    found, ok := bank.WithdrawFrom(8, 1.0);
    assert !found && !ok && a.balance == 105.0 && b.balance == 50.0;
  }

  method InterestPassScenario()
  {
    var bank := new Bank();
    var a := bank.Open(7, "Asha", 100.0, Savings(10.0));
    var c := bank.Open(9, "Meena", 10.0, Checking(0.0));

    // A refused withdrawal through the registry.
    var found, ok := bank.WithdrawFrom(9, 15.0);
    assert found && !ok && c.balance == 10.0;

    // The interest pass touches every account once.
    bank.ApplyInterest();
    assert a.balance == 110.0 && c.balance == 10.0;
  }
}
