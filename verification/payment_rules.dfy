/** `PaymentRules`: payout bounds, the 2.5% fee and payout-request
    validation. Amounts are exact reals, so 2.5% is exactly 1/40. */
module PaymentRules {
  import opened Results
  import Text

  const MinimumPayoutAmount: real := 10.0
  const MaximumPayoutAmount: real := 10000.0
  const FeeRate: real := 0.025

  lemma BoundsOrdered()
    ensures 0.0 < MinimumPayoutAmount <= MaximumPayoutAmount
  {
  }

  predicate CanRequestPayout(earned: real) {
    earned >= MinimumPayoutAmount && earned <= MaximumPayoutAmount
  }

  function PayoutFee(amount: real): (fee: real)
    ensures fee * 40.0 == amount
  {
    amount * FeeRate
  }

  function NetPayoutAmount(amount: real): (net: real)
    ensures net + PayoutFee(amount) == amount
    ensures net == 0.975 * amount
  {
    amount - PayoutFee(amount)
  }

  /** For a non-negative amount the fee never exceeds what is paid out,
      and neither exceeds the amount. */
  lemma FeeBounds(amount: real)
    requires amount >= 0.0
    ensures 0.0 <= PayoutFee(amount) <= NetPayoutAmount(amount) <= amount
  {
  }

  lemma NetOfHundred()
    ensures NetPayoutAmount(100.0) == 97.5
    ensures PayoutFee(100.0) == 2.5
  {
  }

  datatype Validation = Validation(isValid: bool, error: Option<string>)

  /** `$${n}` for the whole-number limits. */
  function DollarText(amount: nat): string {
    "$" + Text.NatToString(amount)
  }

  const BelowMinimumMessage: string := "Minimum payout amount is " + DollarText(10)
  const AboveMaximumMessage: string := "Maximum payout amount is " + DollarText(10000)
  const ExceedsEarnedMessage: string := "Payout amount cannot exceed earned amount"

  /** `validatePayoutRequest`: minimum, then maximum, then earned. */
  function ValidatePayoutRequest(amount: real, earned: real): (r: Validation)
    ensures r.isValid <==> MinimumPayoutAmount <= amount <= MaximumPayoutAmount && amount <= earned
    ensures r.isValid <==> r.error.None?
    ensures amount < MinimumPayoutAmount ==> r.error == Some(BelowMinimumMessage)
    ensures MinimumPayoutAmount <= amount && MaximumPayoutAmount < amount
            ==> r.error == Some(AboveMaximumMessage)
    ensures CanRequestPayout(amount) && earned < amount ==> r.error == Some(ExceedsEarnedMessage)
  {
    if amount < MinimumPayoutAmount then Validation(false, Some(BelowMinimumMessage))
    else if amount > MaximumPayoutAmount then Validation(false, Some(AboveMaximumMessage))
    else if amount > earned then Validation(false, Some(ExceedsEarnedMessage))
    else Validation(true, None)
  }

  /** A valid request is one the earnings could pay out. */
  lemma ValidRequestIsRequestable(amount: real, earned: real)
    requires ValidatePayoutRequest(amount, earned).isValid
    ensures CanRequestPayout(amount)
    ensures CanRequestPayout(earned) || earned > MaximumPayoutAmount
  {
  }

  /** Asking for everything earned is valid exactly when the earnings are
      requestable. */
  lemma FullPayoutValidIffRequestable(earned: real)
    ensures ValidatePayoutRequest(earned, earned).isValid <==> CanRequestPayout(earned)
    ensures CanRequestPayout(earned) <==> MinimumPayoutAmount <= earned <= MaximumPayoutAmount
  {
  }

  lemma ValidationExamples()
    ensures !ValidatePayoutRequest(5.0, 50.0).isValid
    ensures ValidatePayoutRequest(5.0, 50.0).error == Some(BelowMinimumMessage)
    ensures ValidatePayoutRequest(20.0, 50.0).isValid
    ensures ValidatePayoutRequest(60.0, 50.0).error == Some(ExceedsEarnedMessage)
  {
  }

  lemma MessagesSpelledOut()
    ensures BelowMinimumMessage == "Minimum payout amount is $10"
    ensures AboveMaximumMessage == "Maximum payout amount is $10000"
  {
  }

  datatype Frequency = Weekly | Monthly

  datatype PayoutSchedule = PayoutSchedule(frequency: Frequency, minAmount: real, processingDays: nat)

  function GetPayoutSchedule(): (s: PayoutSchedule)
    ensures s.minAmount == MinimumPayoutAmount
    ensures s.frequency == Weekly && s.processingDays == 3
  {
    PayoutSchedule(Weekly, MinimumPayoutAmount, 3)
  }
}
