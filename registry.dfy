/** The account registry the menu loop keeps: a fixed array of at most ten
    accounts and a count of the slots in use, with deposit and withdrawal by
    account number (first match in array order wins) and the interest pass
    over every account. */
module Registry {
  import opened AccountRules
  import opened Accounts

  const MaxAccounts: nat := 10

  datatype Option<T> = None | Some(value: T)

  /** The position of the first occurrence of `key` in `numbers`. */
  function FirstMatch(numbers: seq<int>, key: int): (r: Option<nat>)
    ensures r.Some? ==> r.value < |numbers| && numbers[r.value] == key
    ensures r.Some? ==> forall j :: 0 <= j < r.value ==> numbers[j] != key
    ensures r.None? <==> key !in numbers
  {
    if |numbers| == 0 then None
    else if numbers[0] == key then Some(0)
    else match FirstMatch(numbers[1..], key)
      case None => None
      case Some(i) => Some(i + 1)
  }

  class Bank {
    const accounts: array<Account?>
    var count: nat

    /** Slots below `count` hold distinct accounts (each created by its own
        allocation), and the count stays within the array. */
    ghost predicate Valid()
      reads this, accounts
    {
      && accounts.Length == MaxAccounts
      && count <= MaxAccounts
      && (forall i :: 0 <= i < count ==> accounts[i] != null)
      && (forall i, j :: 0 <= i < j < count ==> accounts[i] != accounts[j])
    }

    /** The accounts in use. */
    ghost function Accounts(): set<Account>
      reads this, accounts
      requires Valid()
    {
      set i | 0 <= i < count :: accounts[i] as Account
    }

    /** The account numbers in array order. */
    ghost function Numbers(): (ns: seq<int>)
      reads this, accounts
      requires Valid()
      ensures |ns| == count
      ensures forall i :: 0 <= i < count ==> ns[i] == accounts[i].number
    {
      var slots := accounts[..count];
      seq(|slots|, i requires 0 <= i < |slots| && slots[i] != null => slots[i].number)
    }

    /** Every account in use satisfies its safety invariant. */
    ghost predicate Safe()
      reads this, accounts, Accounts()
      requires Valid()
    {
      forall i :: 0 <= i < count ==> accounts[i].Valid()
    }

    constructor ()
      ensures Valid() && fresh(accounts) && count == 0
    {
      accounts := new Account?[MaxAccounts];
      count := 0;
    }

    /** Creates an account of the given kind in the next free slot. */
    method Open(number: int, holder: string, initial: real, kind: Kind) returns (acc: Account)
      requires Valid() && count < MaxAccounts
      modifies this, accounts
      ensures Valid() && fresh(acc)
      ensures count == old(count) + 1 && accounts[old(count)] == acc
      ensures forall i :: 0 <= i < old(count) ==> accounts[i] == old(accounts[i])
      ensures Numbers() == old(Numbers()) + [number]
      ensures acc.holder == holder && acc.kind == kind && acc.balance == Credit(0.0, initial)
      ensures old(Safe()) && WellFormed(kind) ==> Safe()
    {
      acc := new Account(number, holder, initial, kind);
      accounts[count] := acc;
      count := count + 1;
    }

    /** Deposits into the first account, in array order, whose number is
        `accNo`; every other account is left as it was. */
    method DepositTo(accNo: int, amount: real) returns (found: bool)
      requires Valid()
      modifies Accounts()
      ensures Valid() && Numbers() == old(Numbers())
      ensures found <==> accNo in Numbers()
      ensures forall j :: 0 <= j < count ==>
        accounts[j].balance ==
          if FirstMatch(Numbers(), accNo) == Some(j) then Credit(old(accounts[j].balance), amount)
          else old(accounts[j].balance)
      ensures old(Safe()) ==> Safe()
    {
      found := false;
      var i := 0;
      while i < count
        invariant 0 <= i <= count
        invariant forall j :: 0 <= j < i ==> accounts[j].number != accNo
        invariant forall j :: 0 <= j < count ==> accounts[j].balance == old(accounts[j].balance)
      {
        if accounts[i].number == accNo {
          assert FirstMatch(Numbers(), accNo) == Some(i);
          accounts[i].Deposit(amount);
          found := true;
          break;
        }
        i := i + 1;
      }
    }

    /** Withdraws from the first account, in array order, whose number is
        `accNo`, by that account's withdrawal rule; every other account is
        left as it was. `ok` is the withdrawal's own verdict. */
    method WithdrawFrom(accNo: int, amount: real) returns (found: bool, ok: bool)
      requires Valid()
      modifies Accounts()
      ensures Valid() && Numbers() == old(Numbers())
      ensures found <==> accNo in Numbers()
      ensures ok ==> found
      ensures forall j :: 0 <= j < count && FirstMatch(Numbers(), accNo) == Some(j) ==>
        ok == WithdrawRule(accounts[j].kind, old(accounts[j].balance), amount).ok
      ensures forall j :: 0 <= j < count ==>
        accounts[j].balance ==
          if FirstMatch(Numbers(), accNo) == Some(j)
          then WithdrawRule(accounts[j].kind, old(accounts[j].balance), amount).balance
          else old(accounts[j].balance)
      ensures old(Safe()) ==> Safe()
    {
      found, ok := false, false;
      var i := 0;
      while i < count
        invariant 0 <= i <= count
        invariant forall j :: 0 <= j < i ==> accounts[j].number != accNo
        invariant forall j :: 0 <= j < count ==> accounts[j].balance == old(accounts[j].balance)
      {
        if accounts[i].number == accNo {
          assert FirstMatch(Numbers(), accNo) == Some(i);
          ok := accounts[i].Withdraw(amount);
          found := true;
          break;
        }
        i := i + 1;
      }
    }

    /** Applies one interest accrual to each account in use, exactly once. */
    method ApplyInterest()
      requires Valid()
      modifies Accounts()
      ensures Valid()
      ensures forall j :: 0 <= j < count ==>
        accounts[j].balance == Accrued(accounts[j].kind, old(accounts[j].balance))
      ensures old(Safe()) ==> Safe()
    {
      for i := 0 to count
        invariant forall j :: 0 <= j < i ==>
          accounts[j].balance == Accrued(accounts[j].kind, old(accounts[j].balance))
        invariant forall j :: i <= j < count ==> accounts[j].balance == old(accounts[j].balance)
        invariant old(Safe()) ==> Safe()
      {
        accounts[i].CalculateInterest();
      }
    }
  }
}
