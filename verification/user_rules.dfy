/** `UserRules`: eligibility predicates over the user record and the
    dashboard-access rules the application state machine consults. */
module UserRules {
  import opened Results
  import opened Domain
  import PaymentRules

  predicate CanAccessDashboard(u: User) {
    u.isOnboarded
  }

  predicate CanSetupPayouts(u: User) {
    u.isVerified && u.earned > 0.0
  }

  predicate CanPublishSubscription(u: User) {
    u.isVerified && !u.isSubPublished
  }

  predicate CanAddChannel(u: User) {
    u.isOnboarded
  }

  predicate NeedsVerification(u: User) {
    !u.isVerified
  }

  predicate CanReceivePayments(u: User) {
    u.isVerified
  }

  const MinimumEarningsForPayout: real := 10.0

  /** Only a lower bound: unlike the payout rules there is no maximum. */
  predicate CanRequestPayout(earned: real) {
    earned >= MinimumEarningsForPayout
  }

  /** Dashboard access and channel adding are both gated on onboarding;
      verification is the complement of being able to receive payments. */
  lemma UserRulePartners(u: User)
    ensures CanAccessDashboard(u) == CanAddChannel(u) == u.isOnboarded
    ensures NeedsVerification(u) == !CanReceivePayments(u)
    ensures CanSetupPayouts(u) ==> CanReceivePayments(u)
    ensures CanPublishSubscription(u) ==> !NeedsVerification(u)
  {
  }

  lemma PayoutRequestHasNoUpperBound(earned: real)
    requires earned >= 10.0
    ensures CanRequestPayout(earned) && CanRequestPayout(earned * 1000.0)
  {
  }

  /** The user-level payout rule shares the payout rules' minimum but not
      their maximum: every amount the payout rules allow, it allows, and
      above the maximum it still says yes. */
  lemma PayoutRulesCompared(earned: real)
    ensures PaymentRules.CanRequestPayout(earned) ==> CanRequestPayout(earned)
    ensures earned < PaymentRules.MinimumPayoutAmount ==>
      !CanRequestPayout(earned) && !PaymentRules.CanRequestPayout(earned)
    ensures earned > PaymentRules.MaximumPayoutAmount ==>
      CanRequestPayout(earned) && !PaymentRules.CanRequestPayout(earned)
  {
  }

  datatype AccessRules = AccessRules(canAccess: bool, needsOnboarding: bool, needsVerification: bool)

  /** `getDashboardAccessRules`: a missing snapshot means "not onboarded". */
  function GetDashboardAccessRules(d: Option<Dashboard>): (r: AccessRules)
    ensures r.canAccess <==> d.Some?
    ensures r.needsOnboarding == !r.canAccess
    ensures r.needsVerification <==> d.Some? && !d.value.isVerified
    ensures d.None? ==> r == AccessRules(false, true, false)
  {
    match d
    case None => AccessRules(false, true, false)
    case Some(data) => AccessRules(true, false, !data.isVerified)
  }
}
