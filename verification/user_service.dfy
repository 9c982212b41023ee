/** `UserService`: projections and predicates over the user record and the
    dashboard snapshot. */
module UserService {
  import opened Results
  import opened Domain
  import UserRules

  function IsUserVerified(u: User): bool { u.isVerified }
  function IsUserOnboarded(u: User): bool { u.isOnboarded }
  function GetUserEarnings(u: User): real { u.earned }

  predicate CanUserPublishSubscription(u: User) {
    u.isVerified && !u.isSubPublished
  }

  /** `dashboardData !== null` */
  predicate CanAccessDashboard(d: Option<Dashboard>) {
    d.Some?
  }

  predicate CanSetupPayouts(d: Dashboard) {
    d.isVerified && d.earn > 0.0
  }

  datatype VerificationStatus = VerificationStatus(isVerified: bool, needsVerification: bool)

  function GetVerificationStatus(d: Dashboard): (s: VerificationStatus)
    ensures s.isVerified == d.isVerified
    ensures s.needsVerification == !s.isVerified
  {
    VerificationStatus(d.isVerified, !d.isVerified)
  }

  /** The service's predicates agree with the rule layer: publishing on
      every user, dashboard access with the access rules' `canAccess`,
      payout setup on the dashboard with the user-level rule. */
  lemma ServiceAgreesWithRules(u: User, d: Option<Dashboard>)
    ensures CanUserPublishSubscription(u) == UserRules.CanPublishSubscription(u)
    ensures CanAccessDashboard(d) == UserRules.GetDashboardAccessRules(d).canAccess
    ensures d.Some? ==> GetVerificationStatus(d.value).needsVerification
                        == UserRules.GetDashboardAccessRules(d).needsVerification
    ensures IsUserVerified(u) == !UserRules.NeedsVerification(u)
  {
  }

  /** The projections read the record's fields, and each answers the rule
      that shares its meaning. */
  lemma ProjectionsReadUser(u: User)
    ensures IsUserVerified(u) == UserRules.CanReceivePayments(u)
    ensures IsUserOnboarded(u) == UserRules.CanAccessDashboard(u) == UserRules.CanAddChannel(u)
    ensures UserRules.CanRequestPayout(GetUserEarnings(u)) <==> u.earned >= UserRules.MinimumEarningsForPayout
  {
  }

  /** Payout setup on a snapshot is the user rule applied to the snapshot's
      flag and earnings. */
  lemma DashboardPayoutAgreesWithUserRule(d: Dashboard, u: User)
    requires u.isVerified == d.isVerified && u.earned == d.earn
    ensures CanSetupPayouts(d) == UserRules.CanSetupPayouts(u)
  {
  }
}
