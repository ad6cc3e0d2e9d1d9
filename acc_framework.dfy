/** The "framework" version of the object model: an account with private
    balance, name and password (two variants told apart by `kind`), and an
    independent fixed deposit that an account can break into its balance.

    In this version the variants' own `deposit` and `withdraw` write
    `self.__balance` inside the subclass, which Python mangles to an
    attribute (`_SavingsAccount__balance`, `_CurrentAccount__balance`) that
    no constructor sets: once their asserts pass they raise AttributeError
    and the balance never changes. The model keeps that behaviour. */
module AccFramework {
  import opened Outcomes
  import opened Credentials
  import opened Variants
  import opened Files

  /** The rate `break_fd` adds on top of a fixed deposit's balance. */
  const BREAK_BONUS: real := 0.09

  /** What a pickle file holds: the full state of an account or of a fixed deposit. */
  datatype Record =
    | AccountRecord(kind: Kind, name: string, passwd: string, balance: real, createdOn: real)
    | DepositRecord(name: string, passwd: string, balance: real, createdOn: real, timePeriod: real)

  /** Every record is filed under the name it holds, as `save` writes it. */
  ghost predicate Filed(files: map<string, Record>) {
    forall n :: n in files ==> files[n].name == n
  }

  /** Every record holds a password of at least 8 characters: `load` does
      not re-check, so this is what makes a loaded object valid. */
  ghost predicate Guarded(files: map<string, Record>) {
    forall n :: n in files ==> |files[n].passwd| >= MIN_PASSWD_LENGTH
  }

  /** The attribute that `self.__balance` names inside a variant's own methods. */
  function MangledBalance(kind: Kind): string {
    match kind
    case Savings => "_SavingsAccount__balance"
    case Current => "_CurrentAccount__balance"
  }

  /** What `break_fd` credits for a fixed deposit of balance `b`. */
  function BreakValue(b: real): (v: real)
    ensures v == b * 1.09
  {
    b + b * BREAK_BONUS
  }

  class Account {
    const kind: Kind
    var balance: real
    var name: string
    var passwd: string
    const createdOn: real

    /** The state that `save` writes. */
    function Snapshot(): (r: Record)
      reads this
    {
      AccountRecord(kind, name, passwd, balance, createdOn)
    }

    /** The object invariant the constructor and the setters keep. */
    ghost predicate Valid()
      reads this
    {
      |passwd| >= MIN_PASSWD_LENGTH
    }

    /** Field assignment of `__init__` (and of unpickling); never fails. */
    constructor Init(kind: Kind, name: string, passwd: string, balance: real, createdOn: real)
      ensures this.kind == kind && this.name == name && this.passwd == passwd
      ensures this.balance == balance && this.createdOn == createdOn
    {
      this.kind := kind;
      this.name := name;
      this.passwd := passwd;
      this.balance := balance;
      this.createdOn := createdOn;
    }

    /** `SavingsAccount(name, passwd, balance)` or `CurrentAccount(...)` at
        time `now`: the asserts, then the fields equal the arguments. */
    static method Create(kind: Kind, name: string, passwd: string, balance: real, now: real)
      returns (r: Result<Account>)
      ensures r.Ok? <==> balance > 0.0 && |passwd| >= MIN_PASSWD_LENGTH
      ensures r.Err? ==> r.error == CreationCheck(passwd, balance).error
      ensures r.Ok? ==> fresh(r.value) && r.value.Valid()
      ensures r.Ok? ==> r.value.Snapshot() == AccountRecord(kind, name, passwd, balance, now)
    {
      var check := CreationCheck(passwd, balance);
      if check.Fail? {
        return Err(check.error);
      }
      var acc := new Account.Init(kind, name, passwd, balance, now);
      r := Ok(acc);
    }

    /** The `passwd` getter hides the password: it always yields `None`. */
    function ReadPasswd(): (r: Option<string>)
      ensures r == None
    {
      None
    }

    /** The `name` setter. */
    method SetName(newName: string) returns (o: Outcome)
      modifies this`name
      ensures o.Pass? <==> newName != old(name)
      ensures o.Fail? ==> o.error == AssertionFailed(NameInUse)
      ensures name == if o.Pass? then newName else old(name)
    {
      o := NameChange(name, newName);
      if o.Pass? {
        name := newName;
      }
    }

    /** The `passwd` setter: after it succeeds only the new password passes
        `check_passwd`. */
    method SetPasswd(newPasswd: string) returns (o: Outcome)
      modifies this`passwd
      ensures o.Pass? <==> newPasswd != old(passwd) && |newPasswd| >= MIN_PASSWD_LENGTH
      ensures o.Fail? ==> o == PasswdChange(old(passwd), newPasswd)
      ensures passwd == if o.Pass? then newPasswd else old(passwd)
      ensures o.Pass? ==> CheckPasswd(newPasswd) && !CheckPasswd(old(passwd))
      ensures old(Valid()) ==> Valid()
    {
      o := PasswdChange(passwd, newPasswd);
      if o.Pass? {
        passwd := newPasswd;
      }
    }

    /** `acc.balance = value`: the setter takes no value, so the call raises
        TypeError and nothing changes. */
    method AssignBalance(value: real) returns (o: Outcome)
      ensures o == Fail(ArgumentCount)
    {
      o := Fail(ArgumentCount);
    }

    /** `check_passwd`: plain equality with the stored password. */
    function CheckPasswd(password: string): (ok: bool)
      reads this
      ensures ok <==> password == passwd
    {
      passwd == password
    }

    /** `save`: writes the account under its current name, overwriting. */
    static method Save(dir: Directory<Record>, acc: Account)
      modifies dir
      ensures dir.files == old(dir.files)[acc.name := acc.Snapshot()]
      ensures Filed(old(dir.files)) ==> Filed(dir.files)
      ensures Guarded(old(dir.files)) && acc.Valid() ==> Guarded(dir.files)
    {
      dir.Dump(acc.name, acc.Snapshot());
    }

    /** `save` applied to a fixed deposit (it only needs a `name`). */
    static method SaveDeposit(dir: Directory<Record>, fd: FixedDeposit)
      modifies dir
      ensures dir.files == old(dir.files)[fd.name := fd.Snapshot()]
      ensures Filed(old(dir.files)) ==> Filed(dir.files)
      ensures Guarded(old(dir.files)) && fd.Valid() ==> Guarded(dir.files)
    {
      dir.Dump(fd.name, fd.Snapshot());
    }

    /** `load`: `None` when there is no record, an exception when the
        password does not match, else a new object with the stored state.
        A fixed deposit's record has no `check_passwd`, so it raises. */
    static method Load(dir: Directory<Record>, accName: string, password: string)
      returns (r: Result<Option<Account>>)
      ensures accName !in dir.files ==> r == Ok(None)
      ensures accName in dir.files && dir.files[accName].DepositRecord? ==>
                r == Err(AttributeMissing("check_passwd"))
      ensures accName in dir.files && dir.files[accName].AccountRecord? ==>
                (r.Ok? <==> dir.files[accName].passwd == password) &&
                (r.Err? ==> r.error == WrongPassword)
      ensures r.Ok? <==> accName !in dir.files || (dir.files[accName].AccountRecord? && dir.files[accName].passwd == password)
      ensures r.Ok? && accName in dir.files ==> r.value.Some?
      ensures r.Ok? && r.value.Some? ==>
                accName in dir.files && fresh(r.value.value) &&
                r.value.value.Snapshot() == dir.files[accName]
      ensures r.Ok? && r.value.Some? && Filed(dir.files) ==> r.value.value.name == accName
      ensures r.Ok? && r.value.Some? && Guarded(dir.files) ==> r.value.value.Valid()
    {
      var file := dir.Open(accName);
      if file.Err? {
        return Ok(None);
      }
      var rec := file.value;
      if rec.DepositRecord? {
        return Err(AttributeMissing("check_passwd"));
      }
      var tmp := new Account.Init(rec.kind, rec.name, rec.passwd, rec.balance, rec.createdOn);
      if tmp.CheckPasswd(password) {
        return Ok(Some(tmp));
      }
      r := Err(WrongPassword);
    }

    /** The variant's `withdraw`: the asserts, then the read of the mangled
        balance attribute raises. The method changes nothing. */
    method Withdraw(amount: real) returns (o: Outcome)
      ensures o.Fail?
      ensures WithdrawCheck(kind, amount).Pass? ==> o.error == AttributeMissing(MangledBalance(kind))
      ensures WithdrawCheck(kind, amount).Fail? ==> o == WithdrawCheck(kind, amount)
    {
      o := WithdrawCheck(kind, amount);
      if o.Pass? {
        o := Fail(AttributeMissing(MangledBalance(kind)));
      }
    }

    /** The variant's `deposit`: as `Withdraw`, with the deposit ceiling. */
    method Deposit(amount: real) returns (o: Outcome)
      ensures o.Fail?
      ensures DepositCheck(kind, amount).Pass? ==> o.error == AttributeMissing(MangledBalance(kind))
      ensures DepositCheck(kind, amount).Fail? ==> o == DepositCheck(kind, amount)
    {
      o := DepositCheck(kind, amount);
      if o.Pass? {
        o := Fail(AttributeMissing(MangledBalance(kind)));
      }
    }

    /** `receive_sum`: adds any amount, with no check at all. */
    method ReceiveSum(amount: real)
      modifies this`balance
      ensures balance == old(balance) + amount
    {
      balance := balance + amount;
    }

    /** `transfer`: no ceiling and no sufficient-funds check; the receiver is
        credited through `receive_sum`. A transfer to oneself changes nothing. */
    method Transfer(amount: real, receiver: Account) returns (o: Outcome)
      modifies this`balance, receiver`balance
      ensures o.Pass? <==> amount > 0.0
      ensures o.Fail? ==> o.error == AssertionFailed(NonPositiveAmount)
      ensures o.Fail? ==> balance == old(balance) && receiver.balance == old(receiver.balance)
      ensures o.Pass? && receiver != this ==>
                balance == old(balance) - amount && receiver.balance == old(receiver.balance) + amount
      ensures receiver == this ==> balance == old(balance)
      ensures balance + receiver.balance == old(balance) + old(receiver.balance)
    {
      if amount <= 0.0 {
        return Fail(AssertionFailed(NonPositiveAmount));
      }
      balance := balance - amount;
      receiver.ReceiveSum(amount);
      o := Pass;
    }

    /** `break_fd`: credits the deposit's balance plus 9 %, then removes the
        deposit's file. The credit comes first, so a missing file raises
        with the account already credited. The deposit itself is unchanged. */
    method BreakFd(fd: FixedDeposit, dir: Directory<Record>) returns (o: Outcome)
      modifies this`balance, dir
      ensures balance == old(balance) + fd.balance * 1.09
      ensures dir.files == old(dir.files) - {fd.name}
      ensures o.Pass? <==> fd.name in old(dir.files)
      ensures o.Fail? ==> o.error == FileNotFound
      ensures Filed(old(dir.files)) ==> Filed(dir.files)
      ensures Guarded(old(dir.files)) ==> Guarded(dir.files)
    {
      var amount := BreakValue(fd.balance);
      balance := balance + amount;
      o := dir.Remove(fd.name);
    }
  }

  class FixedDeposit {
    const balance: real
    var name: string
    var passwd: string
    const createdOn: real
    const timePeriod: real

    /** The state that `save` writes. */
    function Snapshot(): (r: Record)
      reads this
    {
      DepositRecord(name, passwd, balance, createdOn, timePeriod)
    }

    ghost predicate Valid()
      reads this
    {
      |passwd| >= MIN_PASSWD_LENGTH
    }

    /** Field assignment of `__init__`; never fails. */
    constructor Init(name: string, passwd: string, balance: real, createdOn: real, timePeriod: real)
      ensures this.name == name && this.passwd == passwd && this.balance == balance
      ensures this.createdOn == createdOn && this.timePeriod == timePeriod
    {
      this.balance := balance;
      this.passwd := passwd;
      this.name := name;
      this.createdOn := createdOn;
      this.timePeriod := timePeriod;
    }

    /** `FixedDeposit(name, passwd, balance, time_period)` at time `now`. */
    static method Create(name: string, passwd: string, balance: real, timePeriod: real, now: real)
      returns (r: Result<FixedDeposit>)
      ensures r.Ok? <==> balance > 0.0 && |passwd| >= MIN_PASSWD_LENGTH
      ensures r.Err? ==> r.error == CreationCheck(passwd, balance).error
      ensures r.Ok? ==> fresh(r.value) && r.value.Valid()
      ensures r.Ok? ==> r.value.Snapshot() == DepositRecord(name, passwd, balance, now, timePeriod)
    {
      var check := CreationCheck(passwd, balance);
      if check.Fail? {
        return Err(check.error);
      }
      var fd := new FixedDeposit.Init(name, passwd, balance, now, timePeriod);
      r := Ok(fd);
    }

    /** The `passwd` getter always yields `None`. */
    function ReadPasswd(): (r: Option<string>)
      ensures r == None
    {
      None
    }

    /** The `name` setter. */
    method SetName(newName: string) returns (o: Outcome)
      modifies this`name
      ensures o.Pass? <==> newName != old(name)
      ensures o.Fail? ==> o.error == AssertionFailed(NameInUse)
      ensures name == if o.Pass? then newName else old(name)
    {
      o := NameChange(name, newName);
      if o.Pass? {
        name := newName;
      }
    }

    /** The `passwd` setter. */
    method SetPasswd(newPasswd: string) returns (o: Outcome)
      modifies this`passwd
      ensures o.Pass? <==> newPasswd != old(passwd) && |newPasswd| >= MIN_PASSWD_LENGTH
      ensures o.Fail? ==> o == PasswdChange(old(passwd), newPasswd)
      ensures passwd == if o.Pass? then newPasswd else old(passwd)
      ensures old(Valid()) ==> Valid()
    {
      o := PasswdChange(passwd, newPasswd);
      if o.Pass? {
        passwd := newPasswd;
      }
    }

    /** `fd.balance = value`: raises TypeError and changes nothing. */
    method AssignBalance(value: real) returns (o: Outcome)
      ensures o == Fail(ArgumentCount)
    {
      o := Fail(ArgumentCount);
    }

    /** `check_maturity` at time `now`: inclusive at the boundary. */
    function CheckMaturity(now: real): (ok: bool)
      ensures ok <==> now >= createdOn + timePeriod
    {
      now - createdOn >= timePeriod
    }
  }

  /** Once matured, a deposit stays matured. */
  lemma MaturityIsMonotone(fd: FixedDeposit, t1: real, t2: real)
    requires t1 <= t2
    ensures fd.CheckMaturity(t1) ==> fd.CheckMaturity(t2)
  {
  }

  /** Saving then loading with the stored password yields a new account with
      the same state, and the wrong password raises. */
  method SaveThenLoad(dir: Directory<Record>, acc: Account, wrong: string)
    returns (back: Result<Option<Account>>, refused: Result<Option<Account>>)
    requires wrong != acc.passwd
    modifies dir
    ensures back.Ok? && back.value.Some? && back.value.value != acc
    ensures back.value.value.Snapshot() == acc.Snapshot()
    ensures refused == Err(WrongPassword)
  {
    Account.Save(dir, acc);
    back := Account.Load(dir, acc.name, acc.passwd);
    refused := Account.Load(dir, acc.name, wrong);
  }

  /** After a deposit is broken its record is gone: loading it yields `None`. */
  method BreakThenLoad(dir: Directory<Record>, acc: Account, fd: FixedDeposit, password: string)
    returns (o: Outcome, after: Result<Option<Account>>)
    modifies acc`balance, dir
    ensures o.Pass? <==> fd.name in old(dir.files)
    ensures acc.balance == old(acc.balance) + fd.balance * 1.09
    ensures after == Ok(None)
  {
    o := acc.BreakFd(fd, dir);
    after := Account.Load(dir, fd.name, password);
  }
}
