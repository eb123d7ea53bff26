/** The account registry and the operations the console controller runs on it
    (the state and the non-console methods of UserInterface in BankingApp.java).

    Accounts live in a growable array: `accounts` holds `accountCount` live
    entries, starts with room for five and doubles when it is full. The
    account-number counter, a static field of Account in BankingApp.java, is a
    field of the store here, so that each store numbers its own accounts.

    Console input arrives already parsed: an `Option` stands for the result of
    Integer.parseInt / Double.parseDouble, `None` for a line that did not
    parse (where BankingApp.java uses -1 and NaN as sentinels). */
module Bank {
  import opened Wrappers
  import opened Validation
  import opened Accounts

  /** Room in the account array when the store is created. */
  const InitialCapacity: nat := 5

  /** The number the first account receives. */
  const FirstAccountNumber: int := 1001

  /** Why an operation stopped before it changed anything. */
  datatype Error =
    | InvalidInput           // a number was expected and the line did not parse
    | NegativeAccountNumber  // a parsed account number below zero: the operation stops without a message
    | AccountNotFound
    | InvalidAmount          // a deposit or withdrawal amount that is not positive
    | InsufficientFunds
    | EmptyName
    | NegativeDeposit
    | InvalidEmailFormat
    | InvalidPhoneFormat

  /** The checks createAccount makes, in the order it makes them: the first
      one that fails decides the error, and only when all pass is the initial
      deposit accepted. */
  function CheckNewAccount(name: string, initialDeposit: Option<Money>, email: string, phone: string)
    : (r: Result<Money, Error>)
    ensures r.Ok? <==>
      name != [] && initialDeposit.Some? && initialDeposit.value >= 0.0 && IsValidEmail(email) && IsValidPhone(phone)
    ensures r.Ok? ==> r.value == initialDeposit.value
    ensures r == Err(EmptyName) <==> name == []
    ensures r == Err(InvalidInput) <==> name != [] && initialDeposit.None?
    ensures r == Err(NegativeDeposit) <==> name != [] && initialDeposit.Some? && initialDeposit.value < 0.0
    ensures r == Err(InvalidEmailFormat) <==>
      name != [] && initialDeposit.Some? && initialDeposit.value >= 0.0 && !IsValidEmail(email)
    ensures r == Err(InvalidPhoneFormat) <==>
      name != [] && initialDeposit.Some? && initialDeposit.value >= 0.0 && IsValidEmail(email) && !IsValidPhone(phone)
  {
    if name == [] then Err(EmptyName)
    else if initialDeposit.None? then Err(InvalidInput)
    else if initialDeposit.value < 0.0 then Err(NegativeDeposit)
    else if !IsValidEmail(email) then Err(InvalidEmailFormat)
    else if !IsValidPhone(phone) then Err(InvalidPhoneFormat)
    else Ok(initialDeposit.value)
  }

  class AccountStore {
    var accounts: array<Account?>
    var accountCount: nat
    var nextAccountNumber: int

    /** The store's invariant. Accounts are never removed and each creation
        takes exactly one number, so the entry at index i carries number
        1001 + i and the counter is one past the last number handed out. */
    ghost predicate Valid()
      reads this, accounts
    {
      && 0 < accounts.Length
      && accountCount <= accounts.Length
      && (forall i :: 0 <= i < accountCount ==>
            accounts[i] != null && accounts[i].accountNumber == FirstAccountNumber + i)
      && nextAccountNumber == FirstAccountNumber + accountCount
    }

    /** The live accounts. */
    ghost function LiveAccounts(): set<Account>
      reads this, accounts
      requires accountCount <= accounts.Length
    {
      set a: Account | a in accounts[..accountCount]
    }

    /** Some live account carries number n. */
    ghost predicate HasNumber(n: int)
      reads this, accounts
    {
      exists i :: 0 <= i < accountCount && i < accounts.Length && accounts[i] != null && accounts[i].accountNumber == n
    }

    /** Every live account has a non-negative balance. */
    ghost predicate Solvent()
      reads this, accounts
      requires accountCount <= accounts.Length
      reads LiveAccounts()
    {
      forall a :: a in LiveAccounts() ==> a.balance >= 0.0
    }

    /** Account numbers increase strictly in creation order. */
    lemma NumbersIncrease()
      requires Valid()
      ensures forall i, j :: 0 <= i < j < accountCount ==> accounts[i].accountNumber < accounts[j].accountNumber
    {
    }

    /** An account number names at most one live account. */
    lemma NumbersUnique()
      requires Valid()
      ensures forall a, b :: a in LiveAccounts() && b in LiveAccounts() && a.accountNumber == b.accountNumber ==> a == b
    {
      forall a, b | a in LiveAccounts() && b in LiveAccounts() && a.accountNumber == b.accountNumber
        ensures a == b
      {
        var i :| 0 <= i < accountCount && accounts[i] == a;
        var j :| 0 <= j < accountCount && accounts[j] == b;
      }
    }

    /** The numbers in use are exactly 1001 up to the counter. */
    lemma HasNumberIff(n: int)
      requires Valid()
      ensures HasNumber(n) <==> FirstAccountNumber <= n < nextAccountNumber
    {
      if FirstAccountNumber <= n < nextAccountNumber {
        var i := n - FirstAccountNumber;
        assert accounts[i].accountNumber == n;
      }
    }

    constructor ()
      ensures Valid() && fresh(accounts)
      ensures accounts.Length == InitialCapacity && accountCount == 0
      ensures nextAccountNumber == FirstAccountNumber
    {
      accounts := new Account?[InitialCapacity](_ => null);
      accountCount := 0;
      nextAccountNumber := FirstAccountNumber;
    }

    /** When the array is full, replace it by one twice as long that starts
        with the same entries (Arrays.copyOf); otherwise change nothing. */
    method EnsureCapacity()
      requires Valid()
      modifies this`accounts
      ensures Valid()
      ensures accountCount < accounts.Length
      ensures old(accountCount >= accounts.Length) ==>
        && fresh(accounts)
        && accounts.Length == 2 * old(accounts.Length)
        && accounts[..accountCount] == old(accounts[..accountCount])
        && forall i :: accountCount <= i < accounts.Length ==> accounts[i] == null
      ensures old(accountCount < accounts.Length) ==> accounts == old(accounts)
    {
      if accountCount >= accounts.Length {
        var current := accounts;
        var newSize := current.Length * 2;
        var grown := new Account?[newSize](_ => null);
        var i := 0;
        while i < current.Length
          invariant 0 <= i <= current.Length
          invariant grown[..i] == current[..i]
          invariant forall k :: i <= k < newSize ==> grown[k] == null
        {
          grown[i] := current[i];
          i := i + 1;
        }
        assert grown[..accountCount] == current[..accountCount];
        accounts := grown;
      }
    }

    /** createAccount: run the checks in order; only when all pass, make room,
        number the account from the counter and append it. */
    method CreateAccount(name: string, initialDeposit: Option<Money>, email: string, phone: string)
      returns (r: Result<int, Error>)
      requires Valid()
      modifies this, accounts
      ensures Valid()
      ensures r.Ok? <==> CheckNewAccount(name, initialDeposit, email, phone).Ok?
      ensures r.Err? ==>
        && r.error == CheckNewAccount(name, initialDeposit, email, phone).error
        && accounts == old(accounts) && unchanged(accounts)
        && accountCount == old(accountCount) && nextAccountNumber == old(nextAccountNumber)
      ensures r.Ok? ==>
        && r.value == old(nextAccountNumber)
        && nextAccountNumber == old(nextAccountNumber) + 1
        && accountCount == old(accountCount) + 1
        && (old(accountCount) < old(accounts.Length) ==> accounts == old(accounts))
        && (old(accountCount) == old(accounts.Length) ==> fresh(accounts) && accounts.Length == 2 * old(accounts.Length))
        && accounts[..old(accountCount)] == old(accounts[..accountCount])
        && accounts[old(accountCount)] != null
        && fresh(accounts[old(accountCount)])
        && accounts[old(accountCount)].Snap() == Snapshot(r.value, name, initialDeposit.value, email, phone)
      ensures old(Solvent()) ==> Solvent()
    {
      if name == [] {
        return Err(EmptyName);
      }
      if initialDeposit.None? {
        return Err(InvalidInput);
      }
      if initialDeposit.value < 0.0 {
        return Err(NegativeDeposit);
      }
      if !IsValidEmail(email) {
        return Err(InvalidEmailFormat);
      }
      if !IsValidPhone(phone) {
        return Err(InvalidPhoneFormat);
      }
      var number := AppendAccount(name, initialDeposit.value, email, phone);
      r := Ok(number);
    }

    /** The end of createAccount, once every check has passed: make room,
        number the new account from the counter and append it. */
    method AppendAccount(name: string, deposit: Money, email: string, phone: string) returns (number: int)
      requires Valid()
      modifies this, accounts
      ensures Valid()
      ensures number == old(nextAccountNumber)
      ensures nextAccountNumber == old(nextAccountNumber) + 1
      ensures accountCount == old(accountCount) + 1
      ensures old(accountCount) < old(accounts.Length) ==> accounts == old(accounts)
      ensures old(accountCount) == old(accounts.Length) ==> fresh(accounts) && accounts.Length == 2 * old(accounts.Length)
      ensures accounts[..old(accountCount)] == old(accounts[..accountCount])
      ensures accounts[old(accountCount)] != null && fresh(accounts[old(accountCount)])
      ensures accounts[old(accountCount)].Snap() == Snapshot(number, name, deposit, email, phone)
      ensures old(Solvent()) && deposit >= 0.0 ==> Solvent()
    {
      ghost var before := accounts[..accountCount];
      EnsureCapacity();
      var acct := new Account(nextAccountNumber, name, deposit, email, phone);
      nextAccountNumber := nextAccountNumber + 1;
      accounts[accountCount] := acct;
      accountCount := accountCount + 1;
      assert accounts[..accountCount] == before + [acct];
      number := acct.accountNumber;
    }

    /** findAccount: scan the live entries for the given number. */
    method FindAccount(accountNumber: int) returns (a: Account?)
      requires Valid()
      ensures a == null <==> !HasNumber(accountNumber)
      ensures a != null ==> a in LiveAccounts() && a.accountNumber == accountNumber
    {
      var i := 0;
      while i < accountCount
        invariant 0 <= i <= accountCount
        invariant forall k :: 0 <= k < i ==> accounts[k].accountNumber != accountNumber
      {
        if accounts[i].accountNumber == accountNumber {
          assert accounts[..accountCount][i] == accounts[i];
          return accounts[i];
        }
        i := i + 1;
      }
      return null;
    }

    /** How the lookup that starts every account operation fails, if it does:
        the number did not parse, was negative, or names no account. */
    ghost function LookUpError(accNum: Option<int>): Option<Error>
      reads this, accounts
    {
      match accNum
      case None => Some(InvalidInput)
      case Some(n) =>
        if n < 0 then Some(NegativeAccountNumber)
        else if !HasNumber(n) then Some(AccountNotFound)
        else None
    }

    /** The lookup that starts performDeposit, performWithdrawal,
        showAccountDetails and updateContact. */
    method LookUp(accNum: Option<int>) returns (r: Result<Account, Error>)
      requires Valid()
      ensures r.Err? <==> LookUpError(accNum).Some?
      ensures r.Err? ==> r.error == LookUpError(accNum).value
      ensures r.Ok? ==> r.value in LiveAccounts() && r.value.accountNumber == accNum.value
    {
      if accNum.None? {
        return Err(InvalidInput);
      }
      if accNum.value < 0 {
        return Err(NegativeAccountNumber);
      }
      var a := FindAccount(accNum.value);
      if a == null {
        return Err(AccountNotFound);
      }
      return Ok(a);
    }

    /** performDeposit: look the account up, refuse an amount that did not
        parse or is not positive, then deposit; reports the new balance. */
    method PerformDeposit(accNum: Option<int>, amount: Option<Money>) returns (r: Result<Money, Error>)
      requires Valid()
      modifies LiveAccounts()
      ensures Valid()
      ensures LookUpError(accNum).Some? ==> r == Err(LookUpError(accNum).value)
      ensures LookUpError(accNum).None? && amount.None? ==> r == Err(InvalidInput)
      ensures LookUpError(accNum).None? && amount.Some? && amount.value <= 0.0 ==> r == Err(InvalidAmount)
      ensures r.Ok? <==> LookUpError(accNum).None? && amount.Some? && amount.value > 0.0
      ensures forall a :: a in LiveAccounts() ==>
        a.balance == old(a.balance) + (if r.Ok? && a.accountNumber == accNum.value then amount.value else 0.0)
      ensures forall a :: a in LiveAccounts() ==> a.email == old(a.email) && a.phoneNumber == old(a.phoneNumber)
      ensures r.Ok? ==> forall a :: a in LiveAccounts() && a.accountNumber == accNum.value ==> r.value == a.balance
      ensures old(Solvent()) ==> Solvent()
    {
      var found := LookUp(accNum);
      if found.Err? {
        return Err(found.error);
      }
      var acct := found.value;
      if amount.None? {
        return Err(InvalidInput);
      }
      if amount.value <= 0.0 {
        return Err(InvalidAmount);
      }
      NumbersUnique();
      var ok := acct.Deposit(amount.value);
      r := Ok(acct.balance);
    }

    /** performWithdrawal: look the account up, refuse an amount that did not
        parse or is not positive, then withdraw; the account refuses an amount
        above its balance. Reports the new balance. */
    method PerformWithdrawal(accNum: Option<int>, amount: Option<Money>) returns (r: Result<Money, Error>)
      requires Valid()
      modifies LiveAccounts()
      ensures Valid()
      ensures LookUpError(accNum).Some? ==> r == Err(LookUpError(accNum).value)
      ensures LookUpError(accNum).None? && amount.None? ==> r == Err(InvalidInput)
      ensures LookUpError(accNum).None? && amount.Some? && amount.value <= 0.0 ==> r == Err(InvalidAmount)
      ensures LookUpError(accNum).None? && amount.Some? && amount.value > 0.0 ==>
        (r.Ok? || r == Err(InsufficientFunds)) &&
        forall a :: a in LiveAccounts() && a.accountNumber == accNum.value ==> (r.Ok? <==> amount.value <= old(a.balance))
      ensures forall a :: a in LiveAccounts() ==>
        a.balance == old(a.balance) - (if r.Ok? && a.accountNumber == accNum.value then amount.value else 0.0)
      ensures forall a :: a in LiveAccounts() ==> a.email == old(a.email) && a.phoneNumber == old(a.phoneNumber)
      ensures r.Ok? ==> forall a :: a in LiveAccounts() && a.accountNumber == accNum.value ==> r.value == a.balance
      ensures old(Solvent()) ==> Solvent()
    {
      var found := LookUp(accNum);
      if found.Err? {
        return Err(found.error);
      }
      var acct := found.value;
      if amount.None? {
        return Err(InvalidInput);
      }
      if amount.value <= 0.0 {
        return Err(InvalidAmount);
      }
      NumbersUnique();
      var ok := acct.Withdraw(amount.value);
      if !ok {
        return Err(InsufficientFunds);
      }
      r := Ok(acct.balance);
    }

    /** showAccountDetails: look the account up and show its fields. */
    method ShowAccountDetails(accNum: Option<int>) returns (r: Result<Snapshot, Error>)
      requires Valid()
      ensures r.Err? <==> LookUpError(accNum).Some?
      ensures r.Err? ==> r.error == LookUpError(accNum).value
      ensures r.Ok? ==> forall a :: a in LiveAccounts() && a.accountNumber == accNum.value ==> r.value == a.Snap()
    {
      var found := LookUp(accNum);
      if found.Err? {
        return Err(found.error);
      }
      NumbersUnique();
      r := Ok(found.value.Snap());
    }

    /** updateContact: look the account up, check the new e-mail address,
        then the new phone number, and only then overwrite both. */
    method UpdateContact(accNum: Option<int>, email: string, phone: string) returns (r: Result<(), Error>)
      requires Valid()
      modifies LiveAccounts()
      ensures Valid()
      ensures LookUpError(accNum).Some? ==> r == Err(LookUpError(accNum).value)
      ensures LookUpError(accNum).None? && !IsValidEmail(email) ==> r == Err(InvalidEmailFormat)
      ensures LookUpError(accNum).None? && IsValidEmail(email) && !IsValidPhone(phone) ==> r == Err(InvalidPhoneFormat)
      ensures r.Ok? <==> LookUpError(accNum).None? && IsValidEmail(email) && IsValidPhone(phone)
      ensures forall a :: a in LiveAccounts() ==> a.balance == old(a.balance)
      ensures forall a :: a in LiveAccounts() ==>
        if r.Ok? && a.accountNumber == accNum.value then a.email == email && a.phoneNumber == phone
        else a.email == old(a.email) && a.phoneNumber == old(a.phoneNumber)
    {
      var found := LookUp(accNum);
      if found.Err? {
        return Err(found.error);
      }
      var acct := found.value;
      if !IsValidEmail(email) {
        return Err(InvalidEmailFormat);
      }
      if !IsValidPhone(phone) {
        return Err(InvalidPhoneFormat);
      }
      NumbersUnique();
      acct.UpdateContactDetails(email, phone);
      r := Ok(());
    }
  }
}
