# Banking console application — Dafny model

This project models the in-memory banking application of `BankingApp.java`:
- bank accounts that hold a holder's name, a balance and contact details;
- a registry that numbers accounts from 1001 and keeps them in a growable array;
- the checks the console controller makes before it creates an account, moves money or changes contact details.

Files and modules:

- `validation.dfy`, module `Validation`: the pure input validators `isValidEmail` and `isValidPhone`.
  - `String.indexOf`, `String.lastIndexOf` and the `replaceAll("\\D", "")` digit filter are written out as functions over `seq<char>`.
- `accounts.dfy`, module `Accounts`: class `Account`.
  - The account number and holder name are `const`.
  - The balance, e-mail and phone number are mutable fields.
  - The balance rule of `deposit`/`withdraw` is also a pure function, `Apply`.
  - `Replay` folds `Apply` over a sequence of requests, so that properties of whole histories can be stated.
- `bank.dfy`, module `Bank`: class `AccountStore`, the state of `UserInterface`.
  - It holds an `array<Account?>` with `accountCount` live entries, starting with five slots and doubling when full.
  - It also holds the account-number counter. In the Java code this counter is a static field of `Account`; here it is a field of the store.
  - The validation chain of `createAccount` is the pure function `CheckNewAccount`.
  - `CreateAccount`, `FindAccount`, `PerformDeposit`, `PerformWithdrawal`, `ShowAccountDetails` and `UpdateContact` are methods.
- `scenarios.dfy`, module `Scenarios`: two short console sessions, proved from the operations' contracts alone.
- `wrappers.dfy`, module `Wrappers`: `Option` and `Result`.

Modelling choices:

- Money is a Dafny `real`, so amounts are exact.
- Console input arrives already parsed. `Option<int>` and `Option<real>` replace the Java code's `-1` and `NaN` "did not parse" sentinels.
- The Java code silently stops an operation when it reads a negative account number. The model returns the error `NegativeAccountNumber` for this case.
- The store invariant `Valid()` says more than the array bounds:
  - the live entry at index `i` has account number `1001 + i`;
  - the counter is `1001 + accountCount`.

  So numbers are unique, increase strictly, and are never consumed by a refused creation.

## Model

| member | source | states |
|---|---|---|
| `Validation.IndexOf` | BankingApp.java:274 | result is -1 exactly when the character is absent, otherwise the position of its first occurrence |
| `Validation.LastIndexOf` | BankingApp.java:275 | result is -1 exactly when the character is absent, otherwise the position of its last occurrence |
| `Validation.IsValidEmail` | BankingApp.java:271-277 | isValidEmail with the first '@' and the last '.' of the address; an accepted address has at least five characters, does not start with '@' and does not end in '.' |
| `Validation.EmailValidIff` | BankingApp.java:271-277 | an address is accepted exactly when its first '@' has at least one character before it, and its last '.' has at least one character between it and that '@' and at least one after it |
| `Validation.EmailDotBeforeAtRefused` | BankingApp.java:274-276 | an address whose last '.' precedes its first '@' has no '.' after that '@' at all, and is refused |
| `Validation.EmailOnlyLastDotCounts` | BankingApp.java:275-276 | only the last '.' is examined: "a@b.c." is refused although "a@b.c" is accepted, and "a.b@c.d" is accepted despite its '.' before the '@' |
| `Validation.EmailExamples` | BankingApp.java:271-277 | "a@b.c" is accepted; "abc", "@b.c", "a@.c", "a@b." and "" are refused |
| `Validation.Digits` | BankingApp.java:282 | the filtered string holds only ASCII digits, each digit of the input as often as in the input, and nothing else |
| `Validation.IsValidPhone` | BankingApp.java:280-284 | isValidPhone as the length of the digit filter's result; an accepted number has at least seven characters, at least one of them a digit |
| `Validation.DigitsOfConcat` | BankingApp.java:282 | the digit filter distributes over concatenation |
| `Validation.DigitsOfAllDigits` | BankingApp.java:282 | a string of digits only passes the filter unchanged |
| `Validation.PhoneIgnoresNonDigit` | BankingApp.java:280-284 | inserting a non-digit anywhere in a phone number never changes whether it is accepted |
| `Validation.PhoneOfDigitsOnly` | BankingApp.java:280-284 | a phone number of digits only is accepted exactly when its length is between 7 and 15 |
| `Validation.PhoneSevenDigitsAccepted` | BankingApp.java:283 | "1234567" (seven digits) is accepted |
| `Validation.PhoneSixDigitsRefused` | BankingApp.java:283 | "123456" (six digits) is refused |
| `Validation.PhoneSixteenDigitsRefused` | BankingApp.java:283 | a sixteen-digit number is refused |
| `Validation.PhoneFormattedAccepted` | BankingApp.java:280-284 | "(123) 456-7890" is accepted: its punctuation and spaces are stripped before the ten digits are counted |
| `Accounts.Apply` | BankingApp.java:33-55 | a request is accepted exactly when its amount is positive and, for a withdrawal, at most the balance; a refused request leaves the balance as it was; an accepted one has a positive amount and moves the balance by exactly that amount (up for a deposit, down for a withdrawal); an accepted withdrawal never leaves the balance negative; a non-negative balance stays non-negative |
| `Accounts.Replay` | BankingApp.java:33-55 | the balance after a history of requests applied one by one; a history of deposits only never lowers the balance, one of withdrawals only never raises it |
| `Accounts.ReplayKeepsNonNegative` | BankingApp.java:33-55 | no sequence of deposits and withdrawals drives a non-negative balance below zero |
| `Accounts.ReplayConcat` | BankingApp.java:33-55 | replaying two batches of requests one after the other is the same as replaying them joined |
| `Accounts.RefusedRequestIsNoOp` | BankingApp.java:34-37 | a refused request can be dropped from a history without changing its final balance |
| `Accounts.Account.constructor` | BankingApp.java:25-31 | the new account carries the given number, holder name, initial balance, e-mail and phone |
| `Accounts.Account.Deposit` | BankingApp.java:33-41 | returns true exactly when the amount is positive; then the balance grows by exactly the amount, otherwise it is unchanged; agrees with `Apply` |
| `Accounts.Account.Withdraw` | BankingApp.java:44-56 | returns true exactly when 0 < amount <= balance; then the balance shrinks by exactly the amount and stays non-negative, otherwise it is unchanged; agrees with `Apply` |
| `Accounts.Account.UpdateContactDetails` | BankingApp.java:67-71 | e-mail and phone become the arguments; nothing else may change (the frame is those two fields, and number and holder are constants) |
| `Accounts.Account.Snap` | BankingApp.java:57-65 | the snapshot carries the five fields displayAccountDetails prints: number, holder name, balance, e-mail and phone |
| `Bank.CheckNewAccount` | BankingApp.java:145-178 | creation is allowed exactly when the name is non-empty, the deposit parsed and is >= 0, the e-mail is valid and the phone is valid; each error is reported exactly when its check is the first to fail, in the order name, deposit parse, deposit sign, e-mail, phone |
| `Bank.AccountStore.constructor` | BankingApp.java:103-108 | an empty store with five slots whose counter starts at 1001 |
| `Bank.AccountStore.NumbersIncrease` | BankingApp.java:26 | account numbers increase strictly in creation order |
| `Bank.AccountStore.NumbersUnique` | BankingApp.java:26 | two live accounts with the same number are the same account |
| `Bank.AccountStore.HasNumberIff` | BankingApp.java:26 | the numbers in use are exactly 1001 up to (not including) the counter |
| `Bank.AccountStore.EnsureCapacity` | BankingApp.java:262-268 | afterwards there is a free slot; a full array is replaced by a fresh one twice as long that keeps the live prefix and is null beyond it; otherwise the array is unchanged |
| `Bank.AccountStore.CreateAccount` | BankingApp.java:145-184 | refused exactly when `CheckNewAccount` refuses, with its error, and then nothing changes (array, count, counter); on success the old counter value is returned, the counter and the count grow by one, earlier entries are untouched, the new fresh account at the old count carries the inputs, the array doubles only if it was full, and all balances stay non-negative |
| `Bank.AccountStore.AppendAccount` | BankingApp.java:180-182 | the counter's value becomes the new account's number and the counter and count grow by one; the array is replaced by a fresh, doubled one only when it was full; earlier entries are untouched; the new account carries the inputs; a non-negative deposit keeps all balances non-negative |
| `Bank.AccountStore.FindAccount` | BankingApp.java:252-259 | returns null exactly when no live account has the number, otherwise a live account with that number |
| `Bank.AccountStore.LookUp` | BankingApp.java:187-194 | an unparsed number gives `InvalidInput`, a negative one `NegativeAccountNumber`, an unknown one `AccountNotFound`; otherwise the live account with that number |
| `Bank.AccountStore.PerformDeposit` | BankingApp.java:186-199 | lookup errors first, then `InvalidInput`/`InvalidAmount` for an unparsed or non-positive amount; succeeds exactly when the account exists and the amount is positive; then only that account's balance grows, by the amount, and the new balance is reported; contact details are never touched |
| `Bank.AccountStore.PerformWithdrawal` | BankingApp.java:201-214 | lookup and amount errors as for deposits; with a positive amount the withdrawal succeeds exactly when it does not exceed the account's balance, and otherwise reports `InsufficientFunds`; only that account's balance shrinks, by the amount; all balances stay non-negative |
| `Bank.AccountStore.ShowAccountDetails` | BankingApp.java:215-225 | fails exactly with the lookup's error; otherwise returns all fields of the account with that number |
| `Bank.AccountStore.UpdateContact` | BankingApp.java:227-249 | lookup errors first, then `InvalidEmailFormat`, then `InvalidPhoneFormat`; succeeds exactly when all pass, then sets only that account's e-mail and phone; no balance changes |
| `Scenarios.AliceSession` | BankingApp.java:145-225 | opening Alice's account with 1000 yields number 1001; withdrawing 500 leaves 500; withdrawing 600 then fails with the balance still 500; looking up 1002 reports "not found" |
| `Scenarios.OpenForAlice` | BankingApp.java:145-184 | the first account created in a new store gets number 1001 and its initial deposit as balance |
| `Scenarios.WithdrawTwice` | BankingApp.java:201-214 | from 1000, withdrawing 500 succeeds with 500 left, and withdrawing 600 is refused as insufficient |
| `Scenarios.RefusedAttemptKeepsNumber` | BankingApp.java:166-182 | a creation refused for its e-mail does not consume a number: the next accepted creation still receives 1001 |

## Left out

- Console I/O is not modelled: `Scanner` reads, `trim()` of input lines, `System.out` messages, `mainMenu`, `printMenu` and the menu dispatch. The operations take the values the console would have read, already trimmed and parsed.
- `readIntFromLine`, `readDoubleFromLine`, `Integer.parseInt` and `Double.parseDouble` are Java library parsing. Their results enter the model as `Option` values.
- `formatMoney` and `DecimalFormat` are presentation only. `displayAccountDetails` appears only as the `Snapshot` of an account's fields, returned by `ShowAccountDetails`.
- The getters `getAccountNumber`, `getBalance`, `getEmail` and `getPhoneNumber` are modelled as direct reads of the fields.
- `double` arithmetic is not modelled: balances are exact reals, with no rounding. Also not modelled are the special values `Double.parseDouble` accepts ("NaN", "Infinity"); a NaN initial deposit would pass the `< 0` check in `createAccount`.
- 32-bit `int` limits are not modelled:
  - the account-number counter would wrap after about 2^31 creations;
  - `accounts.length * 2` would overflow beyond 2^30 slots.

  Memory runs out long before either.
- The account-number counter is static in Java, so it is shared by every `UserInterface` in one process. The model gives each store its own counter. With the single store the program creates, the two agree.
- `null` arguments to `isValidEmail` and `isValidPhone` are not modelled: Dafny strings are never null, and console lines are never null in Java either.
