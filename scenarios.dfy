/** Sessions against a fresh store, proved from the operations' contracts
    alone: what a user of the console sees for a short run of menu choices. */
module Scenarios {
  import opened Wrappers
  import opened Validation
  import opened Accounts
  import opened Bank

  /** Alice opens an account with 1000 (and any contact details the
      validators accept), withdraws 500, then tries to withdraw 600; a lookup
      of a number nobody has is refused. */
  method AliceSession(email: string, phone: string)
    returns (created: Result<int, Error>, first: Result<Money, Error>, second: Result<Money, Error>,
             shown: Result<Snapshot, Error>, missing: Result<Snapshot, Error>)
    requires IsValidEmail(email) && IsValidPhone(phone)
    ensures created == Ok(1001)
    ensures first == Ok(500.0)
    ensures second == Err(InsufficientFunds)
    ensures shown.Ok? && shown.value.accountNumber == 1001 && shown.value.balance == 500.0
    ensures missing == Err(AccountNotFound)
  {
    var store, alice;
    store, alice, created := OpenForAlice(email, phone);
    first, second := WithdrawTwice(store, alice);
    shown := store.ShowAccountDetails(Some(1001));
    store.HasNumberIff(1002);
    missing := store.ShowAccountDetails(Some(1002));
  }

  /** A new store; Alice's account, opened with 1000, is its first. */
  method OpenForAlice(email: string, phone: string) returns (store: AccountStore, alice: Account, created: Result<int, Error>)
    requires IsValidEmail(email) && IsValidPhone(phone)
    ensures fresh(store) && fresh(store.accounts) && fresh(alice)
    ensures store.Valid() && store.LiveAccounts() == {alice}
    ensures created == Ok(1001) && alice.accountNumber == 1001 && alice.balance == 1000.0
  {
    store := new AccountStore();
    created := store.CreateAccount("Alice", Some(1000.0), email, phone);
    alice := store.accounts[0];
    OnlyAccount(store, alice);
  }

  lemma OnlyAccount(store: AccountStore, alice: Account)
    requires store.Valid() && store.accountCount == 1 && store.accounts[0] == alice
    ensures store.LiveAccounts() == {alice}
  {
    assert store.accounts[..store.accountCount] == [alice];
  }

  /** From a balance of 1000: withdrawing 500 succeeds, then 600 is refused
      and the balance stays at 500. */
  method WithdrawTwice(store: AccountStore, alice: Account) returns (first: Result<Money, Error>, second: Result<Money, Error>)
    requires store.Valid() && alice in store.LiveAccounts()
    requires alice.accountNumber == 1001 && alice.balance == 1000.0
    modifies store.LiveAccounts()
    ensures store.Valid()
    ensures first == Ok(500.0) && second == Err(InsufficientFunds)
    ensures alice.balance == 500.0
  {
    assert store.HasNumber(1001);
    first := store.PerformWithdrawal(Some(1001), Some(500.0));
    second := store.PerformWithdrawal(Some(1001), Some(600.0));
  }

  /** A refused attempt does not use up an account number: the next account
      created still receives 1001. */
  method RefusedAttemptKeepsNumber(badEmail: string, email: string, phone: string)
    returns (refused: Result<int, Error>, accepted: Result<int, Error>)
    requires !IsValidEmail(badEmail) && IsValidEmail(email) && IsValidPhone(phone)
    ensures refused == Err(InvalidEmailFormat)
    ensures accepted == Ok(1001)
  {
    var store := new AccountStore();
    refused := store.CreateAccount("Bob", Some(0.0), badEmail, phone);
    accepted := store.CreateAccount("Bob", Some(0.0), email, phone);
  }
}
