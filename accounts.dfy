/** One bank account (class Account of BankingApp.java) and the balance rule
    its deposit and withdraw operations follow.

    Money is a Dafny `real`: amounts are exact and the IEEE rounding of the
    `double` balance of BankingApp.java is not modelled. */
module Accounts {

  type Money = real

  // ---------------------------------------------------------------------
  // The balance rule, as values
  // ---------------------------------------------------------------------

  /** A request against a balance: Account.deposit or Account.withdraw. */
  datatype Request = Deposit(amount: Money) | Withdraw(amount: Money)

  /** Whether a request was accepted, and the balance afterwards. */
  datatype Outcome = Outcome(accepted: bool, balance: Money)

  /** The balance rule of Account.deposit and Account.withdraw: a non-positive
      amount is refused, a withdrawal larger than the balance is refused, and
      an accepted request moves the balance by exactly its amount. */
  function Apply(balance: Money, req: Request): (r: Outcome)
    ensures r.accepted <==> req.amount > 0.0 && (req.Withdraw? ==> req.amount <= balance)
    ensures !r.accepted ==> r.balance == balance
    ensures r.accepted ==> req.amount > 0.0
    ensures r.accepted && req.Deposit? ==> r.balance - balance == req.amount
    ensures r.accepted && req.Withdraw? ==> balance - r.balance == req.amount && r.balance >= 0.0
    ensures balance >= 0.0 ==> r.balance >= 0.0
  {
    match req
    case Deposit(amount) =>
      if amount <= 0.0 then Outcome(false, balance) else Outcome(true, balance + amount)
    case Withdraw(amount) =>
      if amount <= 0.0 then Outcome(false, balance)
      else if amount > balance then Outcome(false, balance)
      else Outcome(true, balance - amount)
  }

  /** The balance after a sequence of requests, each applied to the balance
      the previous one left behind. Deposits alone never lower the balance and
      withdrawals alone never raise it. */
  function Replay(balance: Money, reqs: seq<Request>): (r: Money)
    ensures (forall i :: 0 <= i < |reqs| ==> reqs[i].Deposit?) ==> r >= balance
    ensures (forall i :: 0 <= i < |reqs| ==> reqs[i].Withdraw?) ==> r <= balance
    decreases reqs
  {
    if reqs == [] then balance else Replay(Apply(balance, reqs[0]).balance, reqs[1..])
  }

  /** No sequence of deposits and withdrawals drives a non-negative balance
      below zero. */
  lemma {:induction false} ReplayKeepsNonNegative(balance: Money, reqs: seq<Request>)
    requires balance >= 0.0
    ensures Replay(balance, reqs) >= 0.0
    decreases reqs
  {
    if reqs != [] {
      ReplayKeepsNonNegative(Apply(balance, reqs[0]).balance, reqs[1..]);
    }
  }

  /** Replaying two batches one after the other is replaying them joined. */
  lemma {:induction false} ReplayConcat(balance: Money, xs: seq<Request>, ys: seq<Request>)
    ensures Replay(balance, xs + ys) == Replay(Replay(balance, xs), ys)
    decreases xs
  {
    if xs == [] {
      assert xs + ys == ys;
    } else {
      assert (xs + ys)[0] == xs[0];
      assert (xs + ys)[1..] == xs[1..] + ys;
      ReplayConcat(Apply(balance, xs[0]).balance, xs[1..], ys);
    }
  }

  /** A request that is refused leaves the rest of the history unaffected. */
  lemma RefusedRequestIsNoOp(balance: Money, req: Request, rest: seq<Request>)
    requires !Apply(balance, req).accepted
    ensures Replay(balance, [req] + rest) == Replay(balance, rest)
  {
    assert ([req] + rest)[1..] == rest;
  }

  // ---------------------------------------------------------------------
  // The account object
  // ---------------------------------------------------------------------

  /** The fields an account shows (displayAccountDetails without formatting). */
  datatype Snapshot = Snapshot(accountNumber: int, holderName: string, balance: Money,
                               email: string, phoneNumber: string)

  class Account {
    const accountNumber: int
    const holderName: string
    var balance: Money
    var email: string
    var phoneNumber: string

    /** The number is handed in by the store that owns the counter. */
    constructor (number: int, holderName: string, initialDeposit: Money, email: string, phoneNumber: string)
      ensures accountNumber == number && this.holderName == holderName
      ensures balance == initialDeposit
      ensures this.email == email && this.phoneNumber == phoneNumber
    {
      this.accountNumber := number;
      this.holderName := holderName;
      this.balance := initialDeposit;
      this.email := email;
      this.phoneNumber := phoneNumber;
    }

    method Deposit(amount: Money) returns (ok: bool)
      modifies this`balance
      ensures ok <==> amount > 0.0
      ensures balance == if ok then old(balance) + amount else old(balance)
      ensures Apply(old(balance), Request.Deposit(amount)) == Outcome(ok, balance)
    {
      if amount <= 0.0 {
        return false;
      }
      balance := balance + amount;
      return true;
    }

    method Withdraw(amount: Money) returns (ok: bool)
      modifies this`balance
      ensures ok <==> 0.0 < amount <= old(balance)
      ensures balance == if ok then old(balance) - amount else old(balance)
      ensures ok ==> balance >= 0.0
      ensures Apply(old(balance), Request.Withdraw(amount)) == Outcome(ok, balance)
    {
      if amount <= 0.0 {
        return false;
      }
      if amount > balance {
        return false;
      }
      balance := balance - amount;
      return true;
    }

    method UpdateContactDetails(email: string, phoneNumber: string)
      modifies this`email, this`phoneNumber
      ensures this.email == email && this.phoneNumber == phoneNumber
    {
      this.email := email;
      this.phoneNumber := phoneNumber;
    }

    /** The fields displayAccountDetails prints, in its order. */
    function Snap(): (s: Snapshot)
      reads this
      ensures s.accountNumber == accountNumber && s.holderName == holderName
      ensures s.balance == balance && s.email == email && s.phoneNumber == phoneNumber
    {
      Snapshot(accountNumber, holderName, balance, email, phoneNumber)
    }
  }
}
