# Tribute mini-app core in Dafny

This project models the logic of the Tribute Telegram mini-app's client: the
creator dashboard front end that checks whether a user is onboarded, lets
them onboard, validates channel handles and payout requests, and shows
payment history. The model covers five groups.

- **The application-state provider** (`useAppState`). It is a transition
  system over the visible state `{isLoading, isOnboarded, dashboardData,
  error}`, the host's readiness, and the `hasChecked`/`isChecking` refs.
  - Each dashboard check is split at its only `await` into `StartCheck` and
    `CompleteCheck`. Onboarding is split the same way into `BeginOnboard` and
    `FinishOnboard`.
  - `Step`/`Run` put the provider inside an environment that settles
    outstanding requests. An inductive invariant gives single-flight.
  - The API client's request classification and the one-flag mock backend
    act as that environment.
- **Validators and business rules**:
  - the channel handle value object and validation service;
  - user and dashboard eligibility rules;
  - payout bounds and fees;
  - the `Money` value object;
  - the add-bot and publish-subscription use cases, which each make at most
    one API call;
  - the `TgAuth` header.
- **Payment lists**:
  - newest-first history, as a stable insertion sort;
  - filtering by a timestamp cutoff;
  - sums that count a missing amount as zero;
  - statistics;
  - the earnings use case's loops.
- **Page-level state machines**:
  - the payout form's card-number validation and 4-digit grouping;
  - the monetization page's onboarding guard;
  - the story viewer's slide index;
  - the quick-action stories' watched flags.
- **String helpers**: truncation, capitalisation, initials, relative-time
  buckets and the e-mail pattern.

Modelling conventions:
- Strings are `seq<char>` and case mapping is ASCII. The JavaScript `\s`
  class is modelled character by character (`Text.IsWhitespace`).
- Amounts are `real`, so `0.025` is exact.
- Dates are integer millisecond timestamps. The current time and cutoffs
  are parameters.
- Network calls are function parameters, or a settled outcome passed to the
  completion step. `UseCases.Execution` records the calls a use case made
  next to its result.

Notable behaviour of the code:
- A handle of two characters after the `@` (`@ab`) is valid: the pattern
  `/^@[a-zA-Z0-9_]{2,31}$/` allows 2 to 31 characters.
- After a not-found outcome, `isOnboarded` is false but an earlier snapshot
  stays in `dashboardData` (`AppState.StaleSnapshotAfterNotFound`).
- `onboardUser` never rejects to its caller, so the monetization page's
  failure alert cannot be reached.

## Model

| member | source | states |
|---|---|---|
| AppState.Init | src/Presentation/hooks/useAppState.tsx:36-41 | The provider starts loading, not onboarded, with no snapshot and no error, and with neither ref set. |
| AppState.StartCheck | src/Presentation/hooks/useAppState.tsx:43-51 | A fetch is issued iff no check is in flight, the host is ready and no check has succeeded. Otherwise nothing changes. When issued, the in-flight flag is set, loading is shown and the error cleared. |
| AppState.CompleteCheck | src/Presentation/hooks/useAppState.tsx:55-91 | The in-flight flag and loading are cleared on every outcome. Success stores the snapshot, sets `isOnboarded` to the access rule's verdict, clears the error and marks the check done. A not-found outcome sets "not onboarded" with no error and keeps the snapshot and the done flag. Any other failure shows its message (or a default) and leaves the rest. |
| AppState.ErrorText | src/Presentation/hooks/useAppState.tsx:86 | The shown error is never empty and is the fault's message whenever that is non-empty. |
| AppState.Refresh | src/Presentation/hooks/useAppState.tsx:94-97 | A refresh re-fetches iff the host is ready and nothing is in flight, whatever the earlier success. |
| AppState.BeginOnboard | src/Presentation/hooks/useAppState.tsx:99-104 | Onboarding shows loading and clears the error without touching the refs. |
| AppState.FinishOnboard | src/Presentation/hooks/useAppState.tsx:104-115 | A created user leads to exactly a refresh. A failed creation issues no fetch and shows its message or 'User creation failed'. No path rejects. |
| AppState.InitWorld | src/Presentation/hooks/useAppState.tsx:29-41 | The start-up world satisfies the invariant. |
| AppState.StepKeepsInvariant | src/Presentation/hooks/useAppState.tsx:43-121 | Every event preserves two facts. Exactly one dashboard response is owed while the in-flight flag is set, and none otherwise. An onboarded state holds a snapshot. |
| AppState.RunKeepsInvariant | src/Presentation/hooks/useAppState.tsx:43-121 | The invariant holds after any sequence of events, so at most one dashboard fetch is ever outstanding. |
| AppState.ReachableStatesSafe | src/Presentation/hooks/useAppState.tsx:36-121 | Every state reachable from start-up satisfies the invariant and single flight. |
| AppState.NoFetchWhileInFlight | src/Presentation/hooks/useAppState.tsx:44-96 | A check or refresh started while one is in flight issues nothing. A check also changes nothing. |
| AppState.DoubleRefreshIssuesOnce | src/Presentation/hooks/useAppState.tsx:44-97 | Two refreshes in a row issue exactly one fetch. |
| AppState.SuccessStopsChecks | src/Presentation/hooks/useAppState.tsx:46-97 | After a success, checks are no-ops, but a refresh still fetches. |
| AppState.NotFoundMeansNotOnboarded | src/Presentation/hooks/useAppState.tsx:70-81 | A not-found outcome always reads as "not onboarded" with no error. |
| AppState.OtherFailureMeansErrored | src/Presentation/hooks/useAppState.tsx:82-88 | Any other failure reads as "errored" and leaves `isOnboarded` and the snapshot as they were. |
| AppState.StaleSnapshotAfterNotFound | src/Presentation/hooks/useAppState.tsx:60-81 | The converse of the invariant fails: a success then a refresh ending in not-found leaves "not onboarded" with the old snapshot. |
| AppState.Dashboard404MeansNotOnboarded | src/Data/api.ts:79-89 | A 404 on the dashboard endpoint ends the check in "not onboarded", whatever the body. |
| AppState.NetworkFailureReachesProvider | src/Data/api.ts:108-113 | A rejection whose message contains 'fetch' reaches the provider as the network-error message. The check settles with both flags cleared, in the error state showing that message. |
| AppState.LoadFailedReachesProviderAsIs | src/Data/api.ts:108-113 | WebKit's 'Load failed' rejection is rethrown untranslated and leaves the provider in the error state showing 'Load failed'. |
| AppState.MockFailureMeansNotOnboarded | src/Data/mockApi.ts:26-29 | The mock's failure for a user who is not onboarded contains '404', so the provider classifies it as "not onboarded". |
| AppState.MockOnboardingScenario | src/Data/mockApi.ts:23-60 | Against a fresh mock, the first check reports "not onboarded". Onboarding then refreshes, and the refresh reaches "onboarded" with the mock's snapshot. |
| Api.GetAuthHeader | src/Data/api.ts:29-37 | A header is produced iff init data is present and non-empty, and it is 'TgAuth ' followed by the init data. |
| Api.AuthHeaderMatchesService | src/Data/api.ts:29-37 | The client's header agrees with the auth service's header on every init-data string. |
| Api.RequestUrl | src/Data/api.ts:43 | The URL is exactly the base URL followed by the endpoint. |
| Api.BuildHeaders | src/Data/api.ts:46-60 | Caller headers override. Content-Type and Accept default to JSON. Authorization is present exactly when the auth header is, and there are no other keys. |
| Api.CatchFault | src/Data/api.ts:108-113 | A TypeError mentioning 'fetch' becomes the network-error message. Every other fault is rethrown unchanged. |
| Api.Request | src/Data/api.ts:39-115 | A 404 on '/dashboard' throws NotFoundError. An ok response returns its body unchanged, and only an ok response returns. A rejected fetch goes through the catch translation. |
| Api.NonOkMessage | src/Data/api.ts:100-105 | A non-ok response throws the body's `error` field when it has one, else 'HTTP error! status: <status> <statusText>'. |
| Api.OtherNotFoundIsGeneric | src/Data/api.ts:80-105 | A 404 on any endpoint other than the dashboard, whose body is not null and names no error, throws the status line, which mentions 404. |
| Api.FetchFailureIsNetworkError | src/Data/api.ts:108-113 | A rejection whose message contains 'fetch' throws the network-error message on every endpoint. |
| Api.ChromiumFetchFailure | src/Data/api.ts:108-113 | Chromium's 'Failed to fetch' is one such rejection. |
| Api.LoadFailedIsRethrown | src/Data/api.ts:108-114 | WebKit's 'Load failed' does not contain 'fetch', so that TypeError is rethrown unchanged. |
| Api.NullBodyThrowsTypeError | src/Data/api.ts:100-105 | A non-ok JSON null body makes reading `data.error` throw a TypeError, which the catch rethrows unchanged. |
| Api.NullMessageLacksFetch | src/Data/api.ts:110 | The engine's null-read message does not contain 'fetch', so the catch does not translate it. |
| Api.NetworkMessageLacksMarkers | src/Data/api.ts:111 | The network-error message contains no '404', and lower-cased it contains neither 'not found' nor 'onboarding'. |
| MockApi.GetDashboard | src/Data/mockApi.ts:23-43 | The mock fails with '404 Not Found' iff the flag is not 'true'. Otherwise the snapshot is verified and published, with channels '1' and '2' and empty lists. |
| MockApi.Serve | src/Data/mockApi.ts:45-109 | Only user creation writes the flag, and after it the user is onboarded. Every other endpoint leaves the backend unchanged. |
| MockApi.OnboardingIsPermanent | src/Data/mockApi.ts:45-48 | Once onboarded, the backend stays onboarded under any sequence of calls, and the dashboard always succeeds. |
| MockApi.OnlyCreateUserWritesFlag | src/Data/mockApi.ts:62-109 | A call sequence without user creation leaves the backend as it was. |
| MockApi.CreateUserThenDashboard | src/Data/mockApi.ts:31-48 | After user creation, any later dashboard request returns the mock snapshot. |
| MockApi.CreatedUserIsOnboarded | src/Data/mockApi.ts:49-59 | The creation response says created and onboarded. |
| ChannelUsername.AllHandleChars | src/Core/valueObjects/ChannelUsername.ts:15-19 | The recursive scan holds iff every character is in [A-Za-z0-9_]. |
| ChannelUsername.IsValid | src/Core/valueObjects/ChannelUsername.ts:8-20 | A handle is valid iff it is '@' followed by 2 to 31 characters from [A-Za-z0-9_]. |
| ChannelUsername.CheckHandleAgreesWithIsValid | src/Core/valueObjects/ChannelUsername.ts:47-73 | The validation steps report no error exactly for valid handles. |
| ChannelUsername.CheckHandlePrecedence | src/Core/valueObjects/ChannelUsername.ts:47-73 | Each error is reported exactly when the earlier checks pass and its own fails, in the order required, '@', too short, too long, characters. |
| ChannelUsername.ShortestHandleAccepted | src/Core/valueObjects/ChannelUsername.ts:18 | '@ab' and '@abc' are valid. |
| ChannelUsername.RefusedHandleExamples | src/Core/valueObjects/ChannelUsername.ts:9-16 | '' is refused as required, 'abc' for the missing '@', and '@a' as too short. |
| ChannelUsername.BadCharacterRefused | src/Core/valueObjects/ChannelUsername.ts:18-19 | '@ab$c' is refused for its characters. |
| ChannelUsername.Validate | src/Core/valueObjects/ChannelUsername.ts:47-73 | The verdict equals `IsValid`, and an error message is present exactly when invalid. It is the first failing step's message. |
| ChannelUsername.Create | src/Core/valueObjects/ChannelUsername.ts:2-6 | Construction succeeds iff the handle is valid and keeps it unchanged. Otherwise it fails with 'Invalid channel username format'. |
| ChannelUsername.GetValue | src/Core/valueObjects/ChannelUsername.ts:22-24 | The value rebuilds the same handle. |
| ChannelUsername.GetFullName | src/Core/valueObjects/ChannelUsername.ts:30-32 | The full name is the stored value. |
| ChannelUsername.GetDisplayName | src/Core/valueObjects/ChannelUsername.ts:26-28 | '@' followed by the display name is the handle, so the display name is 2 to 31 handle characters. |
| ChannelUsername.EqualsIsEquivalence | src/Core/valueObjects/ChannelUsername.ts:34-36 | Case-insensitive equality is reflexive, symmetric and transitive, and it extends identity. |
| ChannelUsername.EqualsIgnoresCase | src/Core/valueObjects/ChannelUsername.ts:34-36 | '@Test_1' equals '@test_1'. |
| ChannelUsername.Equals | src/Core/valueObjects/ChannelUsername.ts:34-36 | Two handles are equal exactly when they have the same length and agree character by character after ASCII lower-casing. So identical handles are equal, and handles that differ other than in letter case are not. |
| ChannelUsername.Sanitize | src/Core/valueObjects/ChannelUsername.ts:42-45 | The result is the lower-cased trim of the input. It is no longer than the input, is trimmed, and has no upper-case letter. |
| ChannelUsername.SanitizeIdempotent | src/Core/valueObjects/ChannelUsername.ts:42-45 | Sanitizing twice equals sanitizing once. |
| ChannelValidation.ValidateChannelUsername | src/Core/services/ChannelValidationService.ts:4-31 | The verdict equals the value object's `IsValid` on every string, and the message is the first failing step's. |
| ChannelValidation.ValidatorsAgree | src/Core/services/ChannelValidationService.ts:4-31 | The service and the value object accept and refuse the same strings. |
| ChannelValidation.WellFormedHandleAccepted | src/Core/services/ChannelValidationService.ts:25-30 | '@' followed by any 2 to 31 handle characters is accepted with no error. |
| ChannelValidation.GetChannelStatus | src/Core/services/ChannelValidationService.ts:41-51 | `needsVerification` is the negation of `isVerified`, and `canAddBot` equals it. |
| ChannelValidation.CanAddBotIffNotOwned | src/Core/services/ChannelValidationService.ts:33-39 | A bot can be added exactly when ownership is not verified. |
| ChannelValidation.CanAddBotToChannel | src/Core/services/ChannelValidationService.ts:37-39 | The bot can be added exactly when channel ownership is not verified. |
| UseCases.AddBot | src/Core/useCases/AddBotUseCase.ts:11-19 | At most one call is made, and only for a valid handle. A valid handle is passed unchanged and the response returned. An invalid one fails with the validator's message. |
| UseCases.AddBotRefusalIsLocal | src/Core/useCases/AddBotUseCase.ts:13-16 | A refusal does not depend on the gateway. |
| UseCases.AddBotCallsIffValid | src/Core/useCases/AddBotUseCase.ts:13-18 | Exactly one call is made iff the handle is valid. |
| UseCases.PublishSubscription | src/Core/useCases/PublishSubscriptionUseCase.ts:12-22 | An unverified or already-published user is refused with no call. Otherwise the request is forwarded unchanged in one call and the response returned. |
| UseCases.PublishDecisionIgnoresRequest | src/Core/useCases/PublishSubscriptionUseCase.ts:17 | Whether a call is made depends only on the user, never on the request. |
| UserRules.UserRulePartners | src/Core/rules/UserRules.ts:4-26 | Dashboard access and adding channels both equal onboarding. Needing verification is the negation of receiving payments. Setting up payouts and publishing each imply verification. |
| UserRules.PayoutRequestHasNoUpperBound | src/Core/rules/UserRules.ts:28-34 | Earnings of 10 or more always allow a payout request, however large. |
| UserRules.PayoutRulesCompared | src/Core/rules/UserRules.ts:28-34 | The user rule allows every amount the payout rules allow. Below 10 both refuse, and above 10000 only the user rule allows. |
| UserRules.GetDashboardAccessRules | src/Core/rules/UserRules.ts:36-54 | Access iff a snapshot exists, onboarding is needed iff no access, and verification is needed iff an unverified snapshot exists. |
| UserService.GetVerificationStatus | src/Core/services/UserService.ts:28-36 | `needsVerification` is the negation of the dashboard's verified flag. |
| UserService.ServiceAgreesWithRules | src/Core/services/UserService.ts:4-22 | The service's predicates agree with the rules on publishing, dashboard access and verification. |
| UserService.ProjectionsReadUser | src/Core/services/UserService.ts:4-18 | The projections agree with the user rules: verified means able to receive payments, onboarded means dashboard access and channel adding, and the earnings reach the payout minimum exactly when the rule allows a request. |
| UserService.DashboardPayoutAgreesWithUserRule | src/Core/services/UserService.ts:24-26 | Payout set-up from a dashboard agrees with the user rule on the same flags and earnings. |
| PaymentRules.BoundsOrdered | src/Core/rules/PaymentRules.ts:2-8 | The minimum 10 is positive and at most the maximum 10000. |
| PaymentRules.PayoutFee | src/Core/rules/PaymentRules.ts:15-18 | The fee is one fortieth of the amount. |
| PaymentRules.NetPayoutAmount | src/Core/rules/PaymentRules.ts:20-22 | Net plus fee is the amount, and net is 0.975 of it. |
| PaymentRules.FeeBounds | src/Core/rules/PaymentRules.ts:15-22 | For a non-negative amount, 0 <= fee <= net <= amount. |
| PaymentRules.NetOfHundred | src/Core/rules/PaymentRules.ts:15-22 | net(100) = 97.5 and fee(100) = 2.5. |
| PaymentRules.ValidatePayoutRequest | src/Core/rules/PaymentRules.ts:24-50 | A request is valid iff 10 <= amount <= 10000 and amount <= earned. Below-minimum is reported before above-maximum, which comes before exceeds-earned. |
| PaymentRules.ValidRequestIsRequestable | src/Core/rules/PaymentRules.ts:10-50 | A valid request's amount is requestable, and so are its earnings unless they exceed the maximum. |
| PaymentRules.FullPayoutValidIffRequestable | src/Core/rules/PaymentRules.ts:10-50 | Earnings are requestable exactly when they lie between 10 and 10000, and exactly when asking for all of them passes validation. |
| PaymentRules.ValidationExamples | src/Core/rules/PaymentRules.ts:24-50 | (5, 50) is below the minimum, (20, 50) is valid, and (60, 50) exceeds the earnings. |
| PaymentRules.MessagesSpelledOut | src/Core/rules/PaymentRules.ts:29-40 | The limit messages print the limits in dollars. |
| PaymentRules.GetPayoutSchedule | src/Core/rules/PaymentRules.ts:52-62 | The schedule has the minimum amount, weekly frequency and 3 processing days. |
| Money.IsValidCurrencyIsUpperLookup | src/Core/valueObjects/Money.ts:10-18 | A currency is accepted iff its upper-cased form is USD, EUR or RUB. |
| Money.Create | src/Core/valueObjects/Money.ts:2-18 | Construction succeeds iff the amount is non-negative and the currency accepted. It stores both unchanged. The negative-amount error comes first. |
| Money.CreateDefault | src/Core/valueObjects/Money.ts:2-13 | Without a currency the amount is in USD, which is always accepted, so only a negative amount is refused. |
| Money.CurrencyNotNormalised | src/Core/valueObjects/Money.ts:10-18 | 'usd' is accepted and stored as 'usd', and 'GBP' is refused. |
| Money.Add | src/Core/valueObjects/Money.ts:35-40 | Adding succeeds iff the currency strings are identical, and it gives the sum in that currency. |
| Money.Subtract | src/Core/valueObjects/Money.ts:43-51 | Subtracting succeeds iff the currencies match and the result is non-negative. It gives the difference, and each failure has its own message. |
| Money.Multiply | src/Core/valueObjects/Money.ts:53-58 | Multiplying succeeds iff the factor is non-negative, and it scales the amount. |
| Money.AddSubtractRoundTrip | src/Core/valueObjects/Money.ts:35-51 | Subtracting what was added gives the original back. |
| Money.IsGreaterThan | src/Core/valueObjects/Money.ts:60-65 | A comparison fails iff the currencies differ, and otherwise compares the amounts. |
| Money.IsLessThan | src/Core/valueObjects/Money.ts:67-72 | A comparison fails iff the currencies differ, and otherwise compares the amounts. |
| Money.Trichotomy | src/Core/valueObjects/Money.ts:60-79 | In one currency exactly one of greater, less and equal holds. Across currencies both comparisons fail and equality is false. |
| Money.Equals | src/Core/valueObjects/Money.ts:74-79 | Equality holds exactly when both currency and amount match. A currency mismatch is false, not an error. |
| Money.Zero | src/Core/valueObjects/Money.ts:81-83 | Zero exists for every accepted currency and has amount 0. |
| Money.DefaultZero | src/Core/valueObjects/Money.ts:81-83 | `Money.zero()` without a currency never fails and is zero USD. |
| Money.ZeroIsAddIdentity | src/Core/valueObjects/Money.ts:35-83 | Zero is a two-sided identity for adding. |
| PaymentService.Insert | src/Core/services/PaymentService.ts:11-15 | Inserting into a newest-first list keeps it newest-first and adds exactly the new payment. |
| PaymentService.InsertAtDate | src/Core/services/PaymentService.ts:11-15 | Among payments of one date, an insertion lands ahead of the equal-date entries already in the list. |
| PaymentService.SortNewestFirst | src/Core/services/PaymentService.ts:11-15 | The sort is a newest-first permutation. |
| PaymentService.SortIsStable | src/Core/services/PaymentService.ts:11-15 | Payments of equal date keep their relative order. |
| PaymentService.GetPaymentHistory | src/Core/services/PaymentService.ts:11-15 | The history is a newest-first permutation of the input, stable on equal dates. |
| PaymentService.SortedHistoryUnchanged | src/Core/services/PaymentService.ts:11-15 | An already newest-first list is returned as it is. |
| PaymentService.RecentPayments | src/Core/services/PaymentService.ts:17-24 | Every kept payment is at or after the cutoff, and the result is no longer than the input. |
| PaymentService.RecentPaymentsMembers | src/Core/services/PaymentService.ts:17-24 | A payment is kept iff it is in the input and dated at or after the cutoff. |
| PaymentService.RecentConcat | src/Core/services/PaymentService.ts:17-24 | Filtering distributes over concatenation, so the order is preserved. |
| PaymentService.RecentCounts | src/Core/services/PaymentService.ts:17-24 | Each recent payment keeps its multiplicity, and each older one drops to zero. |
| PaymentService.TotalConcat | src/Core/services/PaymentService.ts:26-31 | The total of a concatenation is the sum of the totals. |
| PaymentService.TotalCons | src/Core/services/PaymentService.ts:26-31 | A payment in front adds its amount, or 0 when the amount is missing. |
| PaymentService.TotalNonNegative | src/Core/services/PaymentService.ts:26-31 | Non-negative amounts give a non-negative total. |
| PaymentService.HistoryKeepsTotal | src/Core/services/PaymentService.ts:11-31 | Sorting the history does not change the total. |
| PaymentService.InsertAddsAmount | src/Core/services/PaymentService.ts:11-31 | An insertion adds exactly the new payment's amount. |
| PaymentService.RecentTotalAtMostTotal | src/Core/services/PaymentService.ts:39-40 | With non-negative amounts, 0 <= recent total <= total. |
| PaymentService.Average | src/Core/services/PaymentService.ts:42 | The average times the count is the total, and the average is 0 for no payments. |
| PaymentService.GetPaymentStats | src/Core/services/PaymentService.ts:33-45 | The count is the length, the total and recent sums are as defined, and the average is total/count, or 0. With non-negative amounts, recent <= total. |
| CalculateEarnings.Execute | src/Core/useCases/CalculateEarningsUseCase.ts:4-11 | The loop computes the payment service's total: 0 for no payments, and missing amounts count as 0. |
| CalculateEarnings.CalculateMonthlyEarnings | src/Core/useCases/CalculateEarningsUseCase.ts:13-23 | The loop sums exactly the payments dated at or after the cutoff, and with non-negative amounts that sum is at most the total. |
| CalculateEarnings.MonthlyPrefixIsRecentTotal | src/Core/useCases/CalculateEarningsUseCase.ts:17-22 | The running sum over a prefix equals the total of that prefix's recent payments. |
| CalculateEarnings.OldPaymentIgnored | src/Core/useCases/CalculateEarningsUseCase.ts:17-18 | A payment before the cutoff does not change the monthly sum. |
| TelegramAuth.GetAuthHeader | src/Core/services/TelegramAuthService.ts:4-30 | A header exists iff the init data is non-empty, and it is 'TgAuth ' followed by the init data. |
| TelegramAuth.ValidIffHeader | src/Core/services/TelegramAuthService.ts:4-30 | Init data are valid exactly when they are non-empty, which is exactly when a header is produced. |
| TelegramAuth.AuthHeaderRoundTrip | src/Core/services/TelegramAuthService.ts:25-30 | Dropping the scheme from a header gives back the init data. |
| TelegramAuth.AuthHeaderInjective | src/Core/services/TelegramAuthService.ts:25-30 | Different init data give different headers. |
| TelegramAuth.ExtractUserFromInitData | src/Core/services/TelegramAuthService.ts:14-23 | No user is ever extracted. |
| SetUpPayouts.Submit | src/Presentation/Scenes/SetUpPayoutsPage/SetUpPayoutsPage.tsx:16-39 | A blank field or a stripped text that is not 16 ASCII digits is refused locally with its message, and the form goes idle. Otherwise the error is cleared and exactly the stripped number is sent. |
| SetUpPayouts.FailureText | src/Presentation/Scenes/SetUpPayoutsPage/SetUpPayoutsPage.tsx:44-62 | A message containing 403 shows the server's text when it is non-empty, and the set-up fallback otherwise. Any other non-empty message is shown as it is. An empty message shows the fallback. |
| SetUpPayouts.Complete | src/Presentation/Scenes/SetUpPayoutsPage/SetUpPayoutsPage.tsx:41-65 | The submitting flag is cleared on every outcome, and a failure shows a message. |
| SetUpPayouts.SubmitAlwaysEndsIdle | src/Presentation/Scenes/SetUpPayoutsPage/SetUpPayoutsPage.tsx:22-65 | Every submit path ends with the form idle. |
| SetUpPayouts.SubmitDisabledIff | src/Presentation/Scenes/SetUpPayoutsPage/SetUpPayoutsPage.tsx:137 | The button is disabled iff submitting or the field is all whitespace. |
| SetUpPayouts.ButtonText | src/Presentation/Scenes/SetUpPayoutsPage/SetUpPayoutsPage.tsx:142 | The button reads 'Настройка...' exactly while submitting, and 'Настроить выплаты' otherwise. |
| SetUpPayouts.EnabledSubmitSkipsBlankCheck | src/Presentation/Scenes/SetUpPayoutsPage/SetUpPayoutsPage.tsx:20-137 | An enabled button either sends the number or reports its length. |
| SetUpPayouts.Group4 | src/Presentation/Scenes/SetUpPayoutsPage/SetUpPayoutsPage.tsx:71-72 | Grouping adds one space per full group of four, and a space sits exactly at every fifth position. |
| SetUpPayouts.FormatCardNumber | src/Presentation/Scenes/SetUpPayoutsPage/SetUpPayoutsPage.tsx:69-73 | Formatting a whitespace-free text is plain grouping. |
| SetUpPayouts.Group4RoundTrip | src/Presentation/Scenes/SetUpPayoutsPage/SetUpPayoutsPage.tsx:71-72 | Removing the spaces from a grouped text gives the text back. |
| SetUpPayouts.FormatKeepsCharacters | src/Presentation/Scenes/SetUpPayoutsPage/SetUpPayoutsPage.tsx:69-73 | Formatting changes only whitespace. |
| SetUpPayouts.FormatIdempotent | src/Presentation/Scenes/SetUpPayoutsPage/SetUpPayoutsPage.tsx:69-73 | Formatting twice equals formatting once. |
| SetUpPayouts.CardNumberFitsField | src/Presentation/Scenes/SetUpPayoutsPage/SetUpPayoutsPage.tsx:71-116 | A 16-digit number formats to 19 characters, with spaces at positions 4, 9 and 14. |
| SetUpPayouts.Change | src/Presentation/Scenes/SetUpPayoutsPage/SetUpPayoutsPage.tsx:75-79 | Typing stores the entered characters without their whitespace, grouped in fours with a single space exactly at every fifth position, and clears the error. |
| SetUpPayouts.TypedNumberIsSent | src/Presentation/Scenes/SetUpPayoutsPage/SetUpPayoutsPage.tsx:16-79 | After typing, a submit sends a request iff the typed text is 16 digits apart from whitespace, and it sends exactly those digits. |
| MonetizationPage.Click | src/Presentation/Scenes/MonetizationPage/MonetizationPage.tsx:69-78 | A click calls onboarding iff terms are accepted and none is in progress. It then marks one in progress, and otherwise changes nothing. |
| MonetizationPage.Settle | src/Presentation/Scenes/MonetizationPage/MonetizationPage.tsx:85-86 | After the call settles, nothing is in progress and the terms flag is kept. |
| MonetizationPage.ChangeTerms | src/Presentation/Scenes/MonetizationPage/MonetizationPage.tsx:95-159 | The checkbox changes the terms flag except while onboarding. |
| MonetizationPage.ButtonsAgreeWithGuard | src/Presentation/Scenes/MonetizationPage/MonetizationPage.tsx:70-173 | The fallback button is disabled iff the main button is not enabled, and a click acts iff it is enabled. |
| MonetizationPage.MainButtonEnabled | src/Presentation/Scenes/MonetizationPage/MonetizationPage.tsx:114-122 | The main button is enabled exactly when a click would start onboarding. |
| MonetizationPage.FallbackDisabled | src/Presentation/Scenes/MonetizationPage/MonetizationPage.tsx:170-173 | The fallback button is disabled exactly when the main button is not enabled. |
| MonetizationPage.MainButtonText | src/Presentation/Scenes/MonetizationPage/MonetizationPage.tsx:103 | The main button reads 'Регистрация...' exactly while onboarding, and 'Монетизироваться' otherwise. |
| MonetizationPage.SecondClickIgnored | src/Presentation/Scenes/MonetizationPage/MonetizationPage.tsx:70-78 | A second click while onboarding issues nothing. |
| MonetizationPage.SettleReenables | src/Presentation/Scenes/MonetizationPage/MonetizationPage.tsx:85-121 | After the call settles, the button is enabled again. |
| MonetizationPage.StepKeepsInvariant | src/Presentation/Scenes/MonetizationPage/MonetizationPage.tsx:69-97 | Every event keeps exactly one call outstanding while onboarding and none otherwise. |
| MonetizationPage.RunKeepsInvariant | src/Presentation/Scenes/MonetizationPage/MonetizationPage.tsx:69-97 | Under any sequence of clicks, toggles and settlements, at most one onboarding call is outstanding. |
| StoryViewer.Next | src/Presentation/Components/StoryViewer/StoryViewer.tsx:16-22 | Tapping forward closes iff the slide is the last one (or beyond), leaving the index unchanged. Otherwise it advances by one. |
| StoryViewer.Previous | src/Presentation/Components/StoryViewer/StoryViewer.tsx:24-28 | Tapping back decrements a positive index and otherwise changes nothing. |
| StoryViewer.MovesStayInRange | src/Presentation/Components/StoryViewer/StoryViewer.tsx:16-28 | Both moves keep the index inside the slide list. |
| StoryViewer.OpenedInRange | src/Presentation/Components/StoryViewer/StoryViewer.tsx:10 | A non-empty story opens on a valid slide. |
| StoryViewer.PreviousUndoesNext | src/Presentation/Components/StoryViewer/StoryViewer.tsx:16-28 | Back after a non-closing forward restores the index. |
| StoryViewer.ForwardWalk | src/Presentation/Components/StoryViewer/StoryViewer.tsx:16-22 | Forward taps that stay inside the list advance one slide each without closing. |
| StoryViewer.ReadingThroughCloses | src/Presentation/Components/StoryViewer/StoryViewer.tsx:10-22 | `count - 1` taps reach the last slide, and one more closes. |
| StoryViewer.ProgressBars | src/Presentation/Components/StoryViewer/StoryViewer.tsx:34-38 | There is one bar per slide. |
| StoryViewer.ActiveBarCount | src/Presentation/Components/StoryViewer/StoryViewer.tsx:34-38 | The number of lit bars is `currentSlide + 1`, capped at the number of slides. |
| StoryViewer.ActiveBarsInRange | src/Presentation/Components/StoryViewer/StoryViewer.tsx:34-38 | With the index in range, exactly `currentSlide + 1` bars are lit. |
| QuickActions.GetSlides | src/Presentation/Scenes/CreatorDashboardPage/components/QuickActions/QuickActions.tsx:11-18 | There are `count` paths (none for a count below 1), and path i is `./folder/i.png`. |
| QuickActions.SlidePathInjective | src/Presentation/Scenes/CreatorDashboardPage/components/QuickActions/QuickActions.tsx:14 | Equal slide paths in one folder have equal numbers. |
| QuickActions.SlidesDistinct | src/Presentation/Scenes/CreatorDashboardPage/components/QuickActions/QuickActions.tsx:11-18 | A story's slide paths are pairwise different. |
| QuickActions.InitialActionsShape | src/Presentation/Scenes/CreatorDashboardPage/components/QuickActions/QuickActions.tsx:21-26 | There are four stories of five slides. Each icon is the first slide, and only the referral guide starts watched. |
| QuickActions.ActionClick | src/Presentation/Scenes/CreatorDashboardPage/components/QuickActions/QuickActions.tsx:32-34 | A click opens the clicked story and changes nothing else. |
| QuickActions.MarkWatched | src/Presentation/Scenes/CreatorDashboardPage/components/QuickActions/QuickActions.tsx:38-40 | Marking keeps length and order, and sets the flag exactly on the matching ids. |
| QuickActions.CloseViewer | src/Presentation/Scenes/CreatorDashboardPage/components/QuickActions/QuickActions.tsx:36-44 | Closing always clears the open story. It marks the open story's id, or leaves the cards unchanged when nothing is open. |
| QuickActions.CloseOnlyMarks | src/Presentation/Scenes/CreatorDashboardPage/components/QuickActions/QuickActions.tsx:36-44 | Closing never unwatches a card and changes no field but `watched`. |
| QuickActions.ClosedStoryWatched | src/Presentation/Scenes/CreatorDashboardPage/components/QuickActions/QuickActions.tsx:32-41 | After opening and closing a story, a card is watched iff it was before or shares the story's id. |
| QuickActions.MarkWatchedIdempotent | src/Presentation/Scenes/CreatorDashboardPage/components/QuickActions/QuickActions.tsx:38-40 | Marking twice equals marking once. |
| QuickActions.WatchTwiceIsWatchOnce | src/Presentation/Scenes/CreatorDashboardPage/components/QuickActions/QuickActions.tsx:32-44 | Watching the same story twice equals watching it once. |
| QuickActions.CloseIdempotent | src/Presentation/Scenes/CreatorDashboardPage/components/QuickActions/QuickActions.tsx:36-44 | Closing twice equals closing once. |
| Helpers.TruncateText | src/utils/helpers.ts:72-75 | A short text is unchanged. A longer one keeps its first `maxLength` characters (none for a negative limit) and then '...'. |
| Helpers.TruncateBoundAndIdempotent | src/utils/helpers.ts:72-75 | The result is at most `maxLength + 3` long, and truncating again changes nothing. |
| Helpers.Capitalize | src/utils/helpers.ts:78-80 | Length and every character after the first are kept, and the first is upper-cased. |
| Helpers.CapitalizeIdempotent | src/utils/helpers.ts:78-80 | Capitalizing twice equals capitalizing once. |
| Helpers.Initial | src/utils/helpers.ts:43-44 | The initial is the upper-cased first character, or empty for an empty name. |
| Helpers.GetUserInitials | src/utils/helpers.ts:42-46 | At most two upper-case initials: the first name's, and the last name's iff it is present and non-empty. |
| Helpers.EmptyLastNameIsAbsent | src/utils/helpers.ts:44 | An empty last name counts as absent, and 'ivan petrov' gives 'IP'. |
| Helpers.ElapsedSeconds | src/utils/helpers.ts:23 | The elapsed seconds are the floor of the millisecond difference over 1000. |
| Helpers.Bucket | src/utils/helpers.ts:25-38 | Under 60 seconds (negative included) is 'just now' and 30 days or more is absolute. Otherwise the count is the floor in minutes, hours or days, at least 1 and below the next unit. |
| Helpers.AgoText | src/utils/helpers.ts:29-35 | The text starts with the count and the unit. |
| Helpers.PluralIffMoreThanOne | src/utils/helpers.ts:29-35 | The 's' suffix appears iff the count exceeds one. |
| Helpers.FormatRelativeTime | src/utils/helpers.ts:20-39 | Under a minute gives 'just now', a month or more gives the absolute date, and the buckets between give the 'N unit(s) ago' text for their count and unit. |
| Helpers.RelativeExamples | src/utils/helpers.ts:25-38 | 90 s is one minute, 7200 s is two hours, a future date is 'just now', and 30 days is absolute. |
| Helpers.IsValidEmail | src/utils/helpers.ts:49-52 | The two scans accept exactly the strings the e-mail pattern matches. |
| Helpers.NoMatchWith | src/utils/helpers.ts:50 | Whitespace or a second '@' rules out every match. |
| Helpers.EmailPatternInWords | src/utils/helpers.ts:50 | The pattern matches iff there is no whitespace, exactly one '@' with text before it, and a '.' in the domain with text on both sides. |
| Text.RemoveWhitespace | src/Presentation/Scenes/SetUpPayoutsPage/SetUpPayoutsPage.tsx:28 | Stripping whitespace leaves none and never lengthens. A string without whitespace is unchanged. |
| Text.RemoveWhitespaceConcat | src/Presentation/Scenes/SetUpPayoutsPage/SetUpPayoutsPage.tsx:28 | Stripping distributes over concatenation. |
| Text.RemoveWhitespaceEmpty | src/Presentation/Scenes/SetUpPayoutsPage/SetUpPayoutsPage.tsx:28 | Stripping gives '' iff the string is all whitespace. |
| Text.Trim | src/Presentation/Scenes/SetUpPayoutsPage/SetUpPayoutsPage.tsx:20 | The result is the slice of the input that starts after its leading whitespace and is followed only by whitespace. Neither end of the result is whitespace. |
| Text.LeadingWhitespace | src/Presentation/Scenes/SetUpPayoutsPage/SetUpPayoutsPage.tsx:20 | The leading run is all whitespace and is followed by a non-whitespace character or the end of the string. |
| Text.TrimEmptyIff | src/Presentation/Scenes/SetUpPayoutsPage/SetUpPayoutsPage.tsx:20-28 | Trimming gives '' iff the string is all whitespace, iff stripping gives ''. |
| Text.Lower | src/Core/valueObjects/ChannelUsername.ts:35 | Lower-casing keeps the length and maps each character. |
| Text.LowerIdempotent | src/Core/valueObjects/ChannelUsername.ts:35 | Lower-casing twice equals lower-casing once. |
| Text.NatToStringRoundTrip | src/Presentation/Scenes/CreatorDashboardPage/components/QuickActions/QuickActions.tsx:14 | A number's decimal text reads back as the number. |

## Left out

- Transport: `fetch`, CORS options, logging, and JSON or text body parsing are left out. A response is an abstract status, status text and body, and the dashboard body is passed in already decoded.
- Thrown values that are not `Error` objects (`null`, strings), and `error` fields that are not strings, are left out. Every fault carries a string message.
- The `setTimeout` delays and `localStorage` of the mock backend are left out. The flag is a field.
- Engine-specific error texts are fixed to one engine's: reading `error` from a JSON null body raises V8's message (`Api.NullBodyMessage`). A rejected `fetch` carries any message, so Chromium's and WebKit's texts are both covered.
- React scheduling is left out. State and refs are one record, and each handler is an atomic step between awaits. A state update that would be lost to a stale closure is not modelled.
- The effect that starts a check is an event that may fire at any time, since its dependencies change on every render.
- The 403 JSON-extraction heuristic on the payout page is left out. The server text it might extract is an input (`serverError`).
- The alert, navigation and refresh after a successful payout set-up are left out, as they have no effect on the form's state.
- Telegram host integration (`MainButton`, `BackButton`, `HapticFeedback`, progress indicators) and every other `window` access are left out.
- `Intl` and `Date` formatting are left out: `formatCurrency`, `formatDate`, `Money.format`, `formatPaymentAmount`, and the absolute-date text of `formatRelativeTime` (passed in). So is `new Date(...)` parsing, since dates are integer timestamps. `Money.fromString` is left out too (number parsing).
- Floating point is left out: amounts are exact `real`s.
- Sorting in place is left out. `PaymentService.GetPaymentHistory` returns the sorted list and does not model the mutation of the caller's array.
- Unicode case mapping is left out, since ASCII letters only are mapped. String lengths count characters, not UTF-16 code units.
- `debounce`, `generateId` and the dark-mode helpers are left out (timers, randomness, the DOM).
- `GetDashboardUseCase`, `OnboardUserUseCase` and `useApi` are left out. They are pass-throughs, modelled as the abstract calls the provider awaits.
- The channel-linking poll loop is left out, because no file implements it.
- The legacy client under `src/services` and `src/types` is left out, as is presentation-only markup.
