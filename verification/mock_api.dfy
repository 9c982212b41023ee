/** `MockApiService`: an in-browser stand-in for the gateway whose only
    state is the `is-onboarded` item in local storage. It serves as an
    environment for the application state machine. Delays are dropped. */
module MockApi {
  import opened Results
  import opened Domain
  import Text

  /** The value stored under `is-onboarded`, if any. */
  datatype Backend = Backend(isOnboardedItem: Option<string>)

  const NotFoundMessage: string := "404 Not Found"

  predicate IsOnboarded(b: Backend) {
    b.isOnboardedItem == Some("true")
  }

  /** The canned snapshot. The mock's channels carry no `is_verified`, which
      reads as false. */
  const MockDashboard: Dashboard := Dashboard(
    1250.50,
    [Channel("1", "@test_channel_1", false), Channel("2", "@test_channel_2", false)],
    true,
    [],
    true,
    [])

  /** `getDashboard`: a "404 Not Found" error unless the flag is `'true'`. */
  function GetDashboard(b: Backend): (r: Result<Dashboard>)
    ensures r.Ok? <==> IsOnboarded(b)
    ensures r.Err? ==> r.message == NotFoundMessage
    ensures r.Ok? ==> r.value.isVerified && r.value.isSubPublished
    ensures r.Ok? ==> (|r.value.channelsAndGroups| == 2
      && r.value.channelsAndGroups[0].id == "1" && r.value.channelsAndGroups[1].id == "2")
    ensures r.Ok? ==> r.value.subscriptions == [] && r.value.paymentsHistory == []
  {
    if !IsOnboarded(b) then Err(NotFoundMessage) else Ok(MockDashboard)
  }

  const CreatedUser: CreateUserResponse := CreateUserResponse(
    "User processed successfully",
    User(123456789, 0.0, true, false, false),
    true)

  /** The requests the mock answers. */
  datatype Call =
    | GetDashboardCall
    | CreateUserCall
    | AddBotCall(channelUsername: string)
    | PublishSubscriptionCall(request: PublishRequest)
    | CreateSubscribeCall(userId: nat, price: real)
    | SetUpPayoutsCall(cardNumber: string)
    | UploadVerifiedPassportCall
    | CheckVerifiedPassportCall
    | HealthCheckCall

  /** The replies. The mock's `addBot` reads a `bot-username` key the
      request does not have, so the echoed username is absent. */
  datatype Reply =
    | DashboardReply(dashboard: Result<Dashboard>)
    | CreateUserReply(created: CreateUserResponse)
    | AddBotReply(message: string, channelId: string, channelUsername: Option<string>)
    | PublishReply(published: PublishResponse)
    | MessageReply(message: string)
    | StatusReply(status: string)

  /** One request against the mock: the reply and the storage afterwards. */
  function Serve(b: Backend, c: Call): (r: (Backend, Reply))
    ensures c.CreateUserCall? ==> IsOnboarded(r.0) && r.1 == CreateUserReply(CreatedUser)
    ensures !c.CreateUserCall? ==> r.0 == b
    ensures c.GetDashboardCall? ==> r.1 == DashboardReply(GetDashboard(b))
  {
    match c
    case GetDashboardCall => (b, DashboardReply(GetDashboard(b)))
    case CreateUserCall => (Backend(Some("true")), CreateUserReply(CreatedUser))
    case AddBotCall(_) => (b, AddBotReply("Bot added successfully", "3", None))
    case PublishSubscriptionCall(req) =>
      (b, PublishReply(PublishResponse("Subscription published successfully",
                                       Subscription("sub1", req.title, req.description, req.price))))
    case CreateSubscribeCall(userId, _) =>
      (b, MessageReply("Subscribed user " + Text.NatToString(userId) + " successfully"))
    case SetUpPayoutsCall(_) => (b, MessageReply("Payouts set up successfully"))
    case UploadVerifiedPassportCall => (b, MessageReply("Passport uploaded successfully"))
    case CheckVerifiedPassportCall => (b, StatusReply("verified"))
    case HealthCheckCall => (b, StatusReply("ok"))
  }

  /** The storage after a sequence of requests. */
  function Run(b: Backend, calls: seq<Call>): Backend
    decreases |calls|
  {
    if |calls| == 0 then b else Run(Serve(b, calls[0]).0, calls[1..])
  }

  /** Nothing in the mock clears the flag: once a user has been created,
      every later dashboard request succeeds. */
  lemma {:induction false} OnboardingIsPermanent(b: Backend, calls: seq<Call>)
    requires IsOnboarded(b)
    ensures IsOnboarded(Run(b, calls))
    ensures GetDashboard(Run(b, calls)).Ok?
    decreases |calls|
  {
    if |calls| > 0 {
      OnboardingIsPermanent(Serve(b, calls[0]).0, calls[1..]);
    }
  }

  /** Without a `createUser` request the flag never changes. */
  lemma {:induction false} OnlyCreateUserWritesFlag(b: Backend, calls: seq<Call>)
    requires forall i :: 0 <= i < |calls| ==> !calls[i].CreateUserCall?
    ensures Run(b, calls) == b
    decreases |calls|
  {
    if |calls| > 0 {
      OnlyCreateUserWritesFlag(b, calls[1..]);
    }
  }

  /** After `createUser`, whatever follows, the dashboard is served. */
  lemma CreateUserThenDashboard(b: Backend, calls: seq<Call>)
    ensures GetDashboard(Run(b, [CreateUserCall] + calls)) == Ok(MockDashboard)
  {
    assert ([CreateUserCall] + calls)[1..] == calls;
    OnboardingIsPermanent(Serve(b, CreateUserCall).0, calls);
  }

  /** The created user is reported as onboarded. */
  lemma CreatedUserIsOnboarded()
    ensures CreatedUser.created && CreatedUser.user.isOnboarded
  {
  }
}
