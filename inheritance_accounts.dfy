/**
 * The banking demo on inheritance and polymorphism: an abstract bank account
 * with a shared deposit rule, specialised into a savings account (which must
 * keep a minimum balance) and a current account (which may be overdrawn up to
 * a limit).
 *
 * Dafny has no class inheritance here, so the two subclasses become one class
 * whose constant `kind` records which subclass an object is and carries that
 * subclass's own field; Withdraw dispatches on it the way the overriding
 * methods do. Money is `real`: the source's `double` rounding is not modelled.
 */
module InheritanceAndPolymorphism {

  /** The subclass of an account, with the field only that subclass has. */
  datatype AccountKind =
    | Savings(minimumBalance: real)
    | Current(overdraftLimit: real)

  /**
   * The lowest balance a withdrawal may leave: the minimum balance of a
   * savings account, or minus the overdraft limit of a current account.
   */
  function Floor(kind: AccountKind): real
  {
    match kind
    case Savings(minimumBalance) => minimumBalance
    case Current(overdraftLimit) => -overdraftLimit
  }

  /**
   * Whether an account of the given kind and balance accepts a withdrawal of
   * `amount`, using each subclass's own guard. Both come to the same rule: the
   * amount is positive and the balance left is not below the account's floor.
   */
  function WithdrawAccepted(kind: AccountKind, balance: real, amount: real): (ok: bool)
    ensures ok <==> amount > 0.0 && balance - amount >= Floor(kind)
  {
    match kind
    case Savings(minimumBalance) => amount > 0.0 && balance - amount >= minimumBalance
    case Current(overdraftLimit) => amount > 0.0 && balance + overdraftLimit >= amount
  }

  class BankAccount {
    const accountNumber: string
    const accountHolder: string
    const kind: AccountKind
    var balance: real

    /** `new SavingsAccount(accountNumber, accountHolder, initialBalance, minimumBalance)` */
    constructor SavingsAccount(accountNumber: string, accountHolder: string,
                               initialBalance: real, minimumBalance: real)
      ensures this.accountNumber == accountNumber && this.accountHolder == accountHolder
      ensures balance == initialBalance && kind == Savings(minimumBalance)
    {
      this.accountNumber := accountNumber;
      this.accountHolder := accountHolder;
      balance := initialBalance;
      kind := Savings(minimumBalance);
    }

    /** `new CurrentAccount(accountNumber, accountHolder, initialBalance, overdraftLimit)` */
    constructor CurrentAccount(accountNumber: string, accountHolder: string,
                               initialBalance: real, overdraftLimit: real)
      ensures this.accountNumber == accountNumber && this.accountHolder == accountHolder
      ensures balance == initialBalance && kind == Current(overdraftLimit)
    {
      this.accountNumber := accountNumber;
      this.accountHolder := accountHolder;
      balance := initialBalance;
      kind := Current(overdraftLimit);
    }

    /**
     * The deposit rule shared by both subclasses: a positive amount is added,
     * anything else is refused and leaves the balance alone. A deposit never
     * takes the balance below the floor if it was not already below it.
     */
    method Deposit(amount: real) returns (accepted: bool)
      modifies this
      ensures accepted <==> amount > 0.0
      ensures balance == if accepted then old(balance) + amount else old(balance)
      ensures old(balance) >= Floor(kind) ==> balance >= Floor(kind)
    {
      accepted := amount > 0.0;
      if accepted {
        balance := balance + amount;
      }
    }

    /**
     * The overriding Withdraw of the account's subclass: an accepted
     * withdrawal takes `amount` off and leaves the balance at or above the
     * floor; a refused one leaves the balance alone.
     */
    method Withdraw(amount: real) returns (accepted: bool)
      modifies this
      ensures accepted <==> amount > 0.0 && old(balance) - amount >= Floor(kind)
      ensures balance == if accepted then old(balance) - amount else old(balance)
      ensures balance == old(balance) || balance >= Floor(kind)
      ensures old(balance) >= Floor(kind) ==> balance >= Floor(kind)
    {
      accepted := WithdrawAccepted(kind, balance, amount);
      if accepted {
        balance := balance - amount;
      }
    }
  }

  /**
   * The demonstration program: a savings account (5000, minimum 1000) and a
   * current account (3000, overdraft 2000) each receive a deposit of 500 and a
   * withdrawal of 2000, through the same loop over both accounts. Both
   * operations are accepted on both accounts.
   */
  method PolymorphismScenario() returns (savingsBalance: real, currentBalance: real, allAccepted: bool)
    ensures savingsBalance == 3500.0 && currentBalance == 1500.0
    ensures allAccepted
  {
    var savings := new BankAccount.SavingsAccount("123456", "Umar", 5000.0, 1000.0);
    var current := new BankAccount.CurrentAccount("789012", "Azam", 3000.0, 2000.0);
    var accounts := [savings, current];
    allAccepted := true;
    for i := 0 to |accounts|
      invariant savings.balance == if i > 0 then 3500.0 else 5000.0
      invariant current.balance == if i > 1 then 1500.0 else 3000.0
      invariant allAccepted
    {
      var account := accounts[i];
      var deposited := account.Deposit(500.0);
      var withdrawn := account.Withdraw(2000.0);
      allAccepted := allAccepted && deposited && withdrawn;
    }
    savingsBalance, currentBalance := savings.balance, current.balance;
  }
}
