/** The simpler version of the object model: the balance is a plain public
    attribute that `deposit`, `withdraw`, `apply_interest` and `transfer`
    reassign; name and password stay private behind setters. There is no
    fixed deposit in this version, and `load` reports a missing record as an
    error of its own. */
module Accounts {
  import opened Outcomes
  import opened Credentials
  import opened Variants
  import opened Files

  /** Seconds an account must have existed before `apply_interest` pays. */
  const INTEREST_PERIOD: real := 31536000.0

  /** The interest rate of each variant. */
  function Rate(kind: Kind): real {
    match kind
    case Savings => 0.07
    case Current => 0.05
  }

  /** The factor one interest payment multiplies the balance by. */
  function Growth(kind: Kind): (g: real)
    ensures g > 1.0
  {
    1.0 + Rate(kind)
  }

  /** Whether `apply_interest` pays at time `now`: inclusive at one year. */
  predicate InterestDue(createdOn: real, now: real) {
    now - createdOn >= INTEREST_PERIOD
  }

  /** The balance after one call of `apply_interest` at time `now`. */
  function Accrued(kind: Kind, balance: real, createdOn: real, now: real): real {
    if InterestDue(createdOn, now) then balance + balance * Rate(kind) else balance
  }

  /** The balance after `n` calls of `apply_interest` at time `now`. */
  function AccruedTimes(kind: Kind, balance: real, createdOn: real, now: real, n: nat): real {
    if n == 0 then balance else Accrued(kind, AccruedTimes(kind, balance, createdOn, now, n - 1), createdOn, now)
  }

  function Power(x: real, n: nat): real {
    if n == 0 then 1.0 else x * Power(x, n - 1)
  }

  /** One payment multiplies the balance by the variant's growth factor. */
  lemma AccruedIsGrowth(kind: Kind, balance: real, createdOn: real, now: real)
    requires InterestDue(createdOn, now)
    ensures Accrued(kind, balance, createdOn, now) == balance * Growth(kind)
  {
  }

  /** Nothing records that interest was paid: once due, every call pays
      again, so `n` calls compound to `Growth ^ n`. */
  lemma {:induction false} RepeatedInterestCompounds(kind: Kind, balance: real, createdOn: real, now: real, n: nat)
    requires InterestDue(createdOn, now)
    ensures AccruedTimes(kind, balance, createdOn, now, n) == balance * Power(Growth(kind), n)
  {
    if n > 0 {
      RepeatedInterestCompounds(kind, balance, createdOn, now, n - 1);
      var before := AccruedTimes(kind, balance, createdOn, now, n - 1);
      AccruedIsGrowth(kind, before, createdOn, now);
      calc {
        AccruedTimes(kind, balance, createdOn, now, n);
        before * Growth(kind);
        (balance * Power(Growth(kind), n - 1)) * Growth(kind);
        balance * (Growth(kind) * Power(Growth(kind), n - 1));
      }
    }
  }

  /** Before one year has passed, any number of calls leaves the balance alone. */
  lemma {:induction false} EarlyInterestIsNoOp(kind: Kind, balance: real, createdOn: real, now: real, n: nat)
    requires !InterestDue(createdOn, now)
    ensures AccruedTimes(kind, balance, createdOn, now, n) == balance
  {
    if n > 0 {
      EarlyInterestIsNoOp(kind, balance, createdOn, now, n - 1);
    }
  }

  /** `apply_interest` is not idempotent: on a non-zero balance a second
      call after the year changes the balance again. */
  lemma InterestNotIdempotent(kind: Kind, balance: real, createdOn: real, now: real)
    requires InterestDue(createdOn, now) && balance != 0.0
    ensures AccruedTimes(kind, balance, createdOn, now, 2) != AccruedTimes(kind, balance, createdOn, now, 1)
  {
  }

  /** What a pickle file holds: the full state of an account. */
  datatype State = State(kind: Kind, name: string, passwd: string, balance: real, createdOn: real)

  /** Every record is filed under the name it holds, as `save` writes it. */
  ghost predicate Filed(files: map<string, State>) {
    forall n :: n in files ==> files[n].name == n
  }

  /** Every record holds a password of at least 8 characters: `load` does
      not re-check, so this is what makes a loaded object valid. */
  ghost predicate Guarded(files: map<string, State>) {
    forall n :: n in files ==> |files[n].passwd| >= MIN_PASSWD_LENGTH
  }

  class Account {
    const kind: Kind
    var balance: real
    var name: string
    var passwd: string
    const createdOn: real

    /** The state that `save` writes. */
    function Snapshot(): (s: State)
      reads this
    {
      State(kind, name, passwd, balance, createdOn)
    }

    /** The object invariant the constructor and the setters keep. */
    ghost predicate Valid()
      reads this
    {
      |passwd| >= MIN_PASSWD_LENGTH
    }

    /** Field assignment of `__init__` (and of unpickling); never fails. */
    constructor Init(s: State)
      ensures Snapshot() == s
    {
      kind := s.kind;
      balance := s.balance;
      name := s.name;
      passwd := s.passwd;
      createdOn := s.createdOn;
    }

    /** `SavingsAccount(name, passwd, balance)` or `CurrentAccount(...)` at
        time `now`: the asserts, then the fields equal the arguments. */
    static method Create(kind: Kind, name: string, passwd: string, balance: real, now: real)
      returns (r: Result<Account>)
      ensures r.Ok? <==> balance > 0.0 && |passwd| >= MIN_PASSWD_LENGTH
      ensures r.Err? ==> r.error == CreationCheck(passwd, balance).error
      ensures r.Ok? ==> fresh(r.value) && r.value.Valid()
      ensures r.Ok? ==> r.value.Snapshot() == State(kind, name, passwd, balance, now)
    {
      var check := CreationCheck(passwd, balance);
      if check.Fail? {
        return Err(check.error);
      }
      var acc := new Account.Init(State(kind, name, passwd, balance, now));
      r := Ok(acc);
    }

    /** The `passwd` getter hides the password: it always yields `None`. */
    function ReadPasswd(): (r: Option<string>)
      ensures r == None
    {
      None
    }

    /** The `name` setter. */
    method SetName(newName: string) returns (o: Outcome)
      modifies this`name
      ensures o.Pass? <==> newName != old(name)
      ensures o.Fail? ==> o.error == AssertionFailed(NameInUse)
      ensures name == if o.Pass? then newName else old(name)
    {
      o := NameChange(name, newName);
      if o.Pass? {
        name := newName;
      }
    }

    /** The `passwd` setter: after it succeeds only the new password passes
        `check_passwd`. */
    method SetPasswd(newPasswd: string) returns (o: Outcome)
      modifies this`passwd
      ensures o.Pass? <==> newPasswd != old(passwd) && |newPasswd| >= MIN_PASSWD_LENGTH
      ensures o.Fail? ==> o == PasswdChange(old(passwd), newPasswd)
      ensures passwd == if o.Pass? then newPasswd else old(passwd)
      ensures o.Pass? ==> CheckPasswd(newPasswd) && !CheckPasswd(old(passwd))
      ensures old(Valid()) ==> Valid()
    {
      o := PasswdChange(passwd, newPasswd);
      if o.Pass? {
        passwd := newPasswd;
      }
    }

    /** `check_passwd`: plain equality with the stored password. */
    function CheckPasswd(password: string): (ok: bool)
      reads this
      ensures ok <==> password == passwd
    {
      passwd == password
    }

    /** `save`: writes the account under its current name, overwriting. */
    static method Save(dir: Directory<State>, acc: Account)
      modifies dir
      ensures dir.files == old(dir.files)[acc.name := acc.Snapshot()]
      ensures Filed(old(dir.files)) ==> Filed(dir.files)
      ensures Guarded(old(dir.files)) && acc.Valid() ==> Guarded(dir.files)
    {
      dir.Dump(acc.name, acc.Snapshot());
    }

    /** `load`: FileNotFoundError when there is no record, an exception when
        the password does not match, else a new object with the stored state. */
    static method Load(dir: Directory<State>, accName: string, password: string)
      returns (r: Result<Account>)
      ensures r.Ok? <==> accName in dir.files && dir.files[accName].passwd == password
      ensures accName !in dir.files ==> r == Err(FileNotFound)
      ensures accName in dir.files && r.Err? ==> r.error == WrongPassword
      ensures r.Ok? ==> fresh(r.value) && r.value.Snapshot() == dir.files[accName]
      ensures r.Ok? && Filed(dir.files) ==> r.value.name == accName
      ensures r.Ok? && Guarded(dir.files) ==> r.value.Valid()
    {
      var file := dir.Open(accName);
      if file.Err? {
        return Err(file.error);
      }
      var tmp := new Account.Init(file.value);
      if tmp.CheckPasswd(password) {
        return Ok(tmp);
      }
      r := Err(WrongPassword);
    }

    /** The variant's `withdraw`: no sufficient-funds check, so the balance
        may go negative. */
    method Withdraw(amount: real) returns (o: Outcome)
      modifies this`balance
      ensures o == WithdrawCheck(kind, amount)
      ensures o.Pass? <==> 0.0 < amount && (kind == Savings ==> amount <= SAVINGS_WITHDRAW_CEILING)
      ensures balance == if o.Pass? then old(balance) - amount else old(balance)
    {
      o := WithdrawCheck(kind, amount);
      if o.Pass? {
        balance := balance - amount;
      }
    }

    /** The variant's `deposit`. */
    method Deposit(amount: real) returns (o: Outcome)
      modifies this`balance
      ensures o == DepositCheck(kind, amount)
      ensures o.Pass? <==> 0.0 < amount && (kind == Savings ==> amount <= SAVINGS_DEPOSIT_CEILING)
      ensures balance == if o.Pass? then old(balance) + amount else old(balance)
    {
      o := DepositCheck(kind, amount);
      if o.Pass? {
        balance := balance + amount;
      }
    }

    /** The variant's `apply_interest` at time `now`. */
    method ApplyInterest(now: real)
      modifies this`balance
      ensures InterestDue(createdOn, now) ==> balance == old(balance) * Growth(kind)
      ensures !InterestDue(createdOn, now) ==> balance == old(balance)
      ensures balance == Accrued(kind, old(balance), createdOn, now)
    {
      if now - createdOn >= INTEREST_PERIOD {
        balance := balance + balance * Rate(kind);
      }
    }

    /** `transfer`: no ceiling and no sufficient-funds check. A transfer to
        oneself changes nothing. */
    method Transfer(amount: real, receiver: Account) returns (o: Outcome)
      modifies this`balance, receiver`balance
      ensures o.Pass? <==> amount > 0.0
      ensures o.Fail? ==> o.error == AssertionFailed(NonPositiveAmount)
      ensures o.Fail? ==> balance == old(balance) && receiver.balance == old(receiver.balance)
      ensures o.Pass? && receiver != this ==>
                balance == old(balance) - amount && receiver.balance == old(receiver.balance) + amount
      ensures receiver == this ==> balance == old(balance)
      ensures balance + receiver.balance == old(balance) + old(receiver.balance)
    {
      if amount <= 0.0 {
        return Fail(AssertionFailed(NonPositiveAmount));
      }
      balance := balance - amount;
      receiver.balance := receiver.balance + amount;
      o := Pass;
    }
  }

  /** Renaming twice to the same name: the second call is refused and the
      name stays the one the first call set. */
  method RenameTwice(acc: Account, newName: string) returns (first: Outcome, second: Outcome)
    modifies acc`name
    ensures first.Pass? <==> newName != old(acc.name)
    ensures second == Fail(AssertionFailed(NameInUse))
    ensures acc.name == newName
  {
    first := acc.SetName(newName);
    second := acc.SetName(newName);
  }

  /** Saving then loading with the stored password yields a new account with
      the same state; the wrong password and an unknown name raise different
      errors. */
  method SaveThenLoad(dir: Directory<State>, acc: Account, wrong: string, unknown: string)
    returns (back: Result<Account>, refused: Result<Account>, missing: Result<Account>)
    requires wrong != acc.passwd && unknown != acc.name && unknown !in dir.files
    modifies dir
    ensures back.Ok? && back.value != acc && back.value.Snapshot() == acc.Snapshot()
    ensures refused == Err(WrongPassword)
    ensures missing == Err(FileNotFound)
  {
    Account.Save(dir, acc);
    back := Account.Load(dir, acc.name, acc.passwd);
    refused := Account.Load(dir, acc.name, wrong);
    missing := Account.Load(dir, unknown, acc.passwd);
  }
}
