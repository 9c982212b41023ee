/** `CalculateEarningsUseCase`: the two `reduce` loops over the payment
    history. The month boundary that the source computes from the clock is
    passed in as `monthAgo`. */
module CalculateEarnings {
  import opened Domain
  import PS = PaymentService

  /** `execute`: the running sum of amounts, missing amounts counted as 0.
      It agrees with the payment service's total on every list. */
  method Execute(payments: seq<Payment>) returns (sum: real)
    ensures sum == PS.TotalEarnings(payments)
    ensures |payments| == 0 ==> sum == 0.0
    ensures PS.NonNegativeAmounts(payments) ==> sum >= 0.0
  {
    sum := 0.0;
    var i := 0;
    while i < |payments|
      invariant 0 <= i <= |payments|
      invariant sum == PS.TotalEarnings(payments[..i])
    {
      assert payments[..i + 1][..i] == payments[..i];
      sum := sum + AmountOrZero(payments[i]);
      i := i + 1;
    }
    assert payments[..|payments|] == payments;
    if PS.NonNegativeAmounts(payments) {
      PS.TotalNonNegative(payments);
    }
  }

  /** The sum of the recent amounts among the first `i` payments. */
  function MonthlyPrefix(payments: seq<Payment>, i: nat, monthAgo: int): real
    requires i <= |payments|
  {
    if i == 0 then 0.0
    else MonthlyPrefix(payments, i - 1, monthAgo)
         + (if payments[i - 1].createdDate >= monthAgo then AmountOrZero(payments[i - 1]) else 0.0)
  }

  lemma {:induction false} MonthlyPrefixIsRecentTotal(payments: seq<Payment>, i: nat, monthAgo: int)
    requires i <= |payments|
    ensures MonthlyPrefix(payments, i, monthAgo) == PS.TotalEarnings(PS.RecentPayments(payments[..i], monthAgo))
  {
    if i > 0 {
      MonthlyPrefixIsRecentTotal(payments, i - 1, monthAgo);
      PS.RecentTotalPrefix(payments, i - 1, monthAgo);
    }
  }

  /** `calculateMonthlyEarnings`: the sum over the payments dated at or
      after `monthAgo`, which is the total of the recent-payments filter. */
  method CalculateMonthlyEarnings(payments: seq<Payment>, monthAgo: int) returns (sum: real)
    ensures sum == PS.TotalEarnings(PS.RecentPayments(payments, monthAgo))
    ensures PS.NonNegativeAmounts(payments) ==> 0.0 <= sum <= PS.TotalEarnings(payments)
  {
    sum := 0.0;
    var i := 0;
    while i < |payments|
      invariant 0 <= i <= |payments|
      invariant sum == MonthlyPrefix(payments, i, monthAgo)
    {
      if payments[i].createdDate >= monthAgo {
        sum := sum + AmountOrZero(payments[i]);
      }
      i := i + 1;
    }
    MonthlyPrefixIsRecentTotal(payments, |payments|, monthAgo);
    MonthlyBound(payments, monthAgo);
  }

  lemma MonthlyBound(payments: seq<Payment>, monthAgo: int)
    ensures PS.NonNegativeAmounts(payments) ==>
      0.0 <= PS.TotalEarnings(PS.RecentPayments(payments[..|payments|], monthAgo)) <= PS.TotalEarnings(payments)
    ensures payments[..|payments|] == payments
  {
    assert payments[..|payments|] == payments;
    if PS.NonNegativeAmounts(payments) {
      PS.RecentTotalAtMostTotal(payments, monthAgo);
    }
  }

  /** A payment dated before the boundary never contributes. */
  lemma OldPaymentIgnored(older: Payment, rest: seq<Payment>, monthAgo: int)
    requires older.createdDate < monthAgo
    ensures PS.TotalEarnings(PS.RecentPayments([older] + rest, monthAgo))
         == PS.TotalEarnings(PS.RecentPayments(rest, monthAgo))
  {
    assert ([older] + rest)[1..] == rest;
  }
}
