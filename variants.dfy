/** The two account variants, `SavingsAccount` and `CurrentAccount`, as a tag,
    with the per-operation limits their `deposit` and `withdraw` check. */
module Variants {
  import opened Outcomes

  datatype Kind = Savings | Current

  const SAVINGS_DEPOSIT_CEILING: real := 1000000.0
  const SAVINGS_WITHDRAW_CEILING: real := 200000.0

  /** The asserts of `deposit`: a savings account checks its ceiling first,
      then both variants refuse a zero or negative sum. */
  function DepositCheck(kind: Kind, amount: real): (o: Outcome)
    ensures o.Pass? <==> 0.0 < amount && (kind == Savings ==> amount <= SAVINGS_DEPOSIT_CEILING)
    ensures o.Fail? ==> o.error == AssertionFailed(
              if kind == Savings && amount > SAVINGS_DEPOSIT_CEILING then SavingsLimit else NonPositiveAmount)
  {
    match kind
    case Savings =>
      if amount > SAVINGS_DEPOSIT_CEILING then Fail(AssertionFailed(SavingsLimit))
      else if amount <= 0.0 then Fail(AssertionFailed(NonPositiveAmount))
      else Pass
    case Current =>
      if amount <= 0.0 then Fail(AssertionFailed(NonPositiveAmount)) else Pass
  }

  /** The asserts of `withdraw`, in the same order as `deposit`'s. No assert
      compares the amount with the balance. */
  function WithdrawCheck(kind: Kind, amount: real): (o: Outcome)
    ensures o.Pass? <==> 0.0 < amount && (kind == Savings ==> amount <= SAVINGS_WITHDRAW_CEILING)
    ensures o.Fail? ==> o.error == AssertionFailed(
              if kind == Savings && amount > SAVINGS_WITHDRAW_CEILING then SavingsLimit else NonPositiveAmount)
  {
    match kind
    case Savings =>
      if amount > SAVINGS_WITHDRAW_CEILING then Fail(AssertionFailed(SavingsLimit))
      else if amount <= 0.0 then Fail(AssertionFailed(NonPositiveAmount))
      else Pass
    case Current =>
      if amount <= 0.0 then Fail(AssertionFailed(NonPositiveAmount)) else Pass
  }

  /** The ceilings are inclusive, and a current account has none. */
  lemma CeilingBoundaries(amount: real)
    ensures DepositCheck(Savings, 1000000.0).Pass? && DepositCheck(Savings, 1000001.0).Fail?
    ensures WithdrawCheck(Savings, 200000.0).Pass? && WithdrawCheck(Savings, 200001.0).Fail?
    ensures amount > 0.0 ==> DepositCheck(Current, amount).Pass? && WithdrawCheck(Current, amount).Pass?
  {
  }
}
