/**
 * The banking demo on encapsulation: one account whose balance is private and
 * changes only through Deposit and Withdraw, and whose number and holder are
 * read-only after construction (here: `const` fields). Money is `real`: the
 * source's `double` rounding is not modelled.
 */
module ObjectOrientedConcept {

  class BankAccount {
    const accountNumber: string
    const accountHolder: string
    var balance: real

    constructor (accountNumber: string, accountHolder: string, initialBalance: real)
      ensures this.accountNumber == accountNumber && this.accountHolder == accountHolder
      ensures balance == initialBalance
    {
      this.accountNumber := accountNumber;
      this.accountHolder := accountHolder;
      balance := initialBalance;
    }

    /** A positive amount is added; anything else is refused and changes nothing. */
    method Deposit(amount: real) returns (accepted: bool)
      modifies this
      ensures accepted <==> amount > 0.0
      ensures balance == if accepted then old(balance) + amount else old(balance)
      ensures old(balance) >= 0.0 ==> balance >= 0.0
    {
      accepted := amount > 0.0;
      if accepted {
        balance := balance + amount;
      }
    }

    /**
     * A withdrawal is accepted only for a positive amount the balance covers;
     * so an account that is not overdrawn never becomes overdrawn.
     */
    method Withdraw(amount: real) returns (accepted: bool)
      modifies this
      ensures accepted <==> 0.0 < amount <= old(balance)
      ensures balance == if accepted then old(balance) - amount else old(balance)
      ensures old(balance) >= 0.0 ==> balance >= 0.0
      ensures balance < old(balance) ==> balance >= 0.0
    {
      accepted := amount > 0.0 && amount <= balance;
      if accepted {
        balance := balance - amount;
      }
    }
  }

  /**
   * The demonstration program: an account opened with 1000 takes a deposit of
   * 500 (1500), a withdrawal of 200 (1300) and a withdrawal of 1500, which is
   * refused and leaves 1300.
   */
  method EncapsulationScenario() returns (afterDeposit: real, afterWithdraw: real,
                                          overdrawAccepted: bool, finalBalance: real)
    ensures afterDeposit == 1500.0 && afterWithdraw == 1300.0
    ensures !overdrawAccepted && finalBalance == 1300.0
  {
    var account := new BankAccount("123456789", "Azam", 1000.0);
    var _ := account.Deposit(500.0);
    afterDeposit := account.balance;
    var _ := account.Withdraw(200.0);
    afterWithdraw := account.balance;
    overdrawAccepted := account.Withdraw(1500.0);
    finalBalance := account.balance;
  }
}
