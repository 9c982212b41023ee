/** The application state provider (`useAppState`). React state and the two
    refs are collapsed into one `Provider` record, and each handler becomes
    an atomic step between awaits. A dashboard check is split at its only
    `await`: `StartCheck` runs up to the fetch, `CompleteCheck` runs when
    the fetch settles. Onboarding is split the same way around `createUser`. */
module AppState {
  import opened Results
  import opened Domain
  import opened Text
  import Api
  import UserRules
  import MockApi

  datatype AppState = AppState(
    isLoading: bool,
    isOnboarded: bool,
    dashboardData: Option<Dashboard>,
    error: Option<string>)

  /** The visible state, the host's readiness, and the refs
      `hasCheckedRef` and `isCheckingRef`. */
  datatype Provider = Provider(state: AppState, isReady: bool, hasChecked: bool, isChecking: bool)

  const InitialState: AppState := AppState(true, false, None, None)

  function Init(isReady: bool): (p: Provider)
    ensures p.state.isLoading && !p.state.isOnboarded
    ensures p.state.dashboardData.None? && p.state.error.None?
    ensures !p.hasChecked && !p.isChecking
  {
    Provider(InitialState, isReady, false, false)
  }

  /** What the awaited dashboard request delivers: the parsed body, which
      may be `null`, or a thrown error. */
  datatype FetchResult = Fetched(data: Option<Dashboard>) | Failed(fault: Api.Fault)

  /** The catch clause's test for "this user is not onboarded yet". */
  predicate SignalsNotOnboarded(f: Api.Fault) {
    || f.NotFoundError?
    || Contains(f.message, "404")
    || Contains(Lower(f.message), "not found")
    || Contains(Lower(f.message), "onboarding")
  }

  /** `error.message || 'An error occurred'` */
  function ErrorText(message: string): (t: string)
    ensures |t| > 0
    ensures |message| > 0 ==> t == message
  {
    if |message| == 0 then "An error occurred" else message
  }

  /** A step that may issue a dashboard fetch. */
  datatype Started = Started(provider: Provider, issued: bool)

  /** `checkDashboard` up to its `await`: a no-op while a check is in
      flight, before the host is ready, or after a successful check; else
      it marks the check in flight, shows loading, clears the error, and
      issues the fetch. */
  function StartCheck(p: Provider): (r: Started)
    ensures r.issued <==> !p.isChecking && p.isReady && !p.hasChecked
    ensures !r.issued ==> r.provider == p
    ensures r.issued ==> r.provider.isChecking
    ensures r.issued ==> r.provider.state == p.state.(isLoading := true, error := None)
    ensures r.provider.isReady == p.isReady && r.provider.hasChecked == p.hasChecked
  {
    if p.isChecking then Started(p, false)
    else if !p.isReady || p.hasChecked then Started(p, false)
    else Started(p.(isChecking := true, state := p.state.(isLoading := true, error := None)), true)
  }

  /** `checkDashboard` after its `await`: the outcome is sorted into
      success, "not onboarded" or a general error, and the in-flight flag
      is cleared on every path. */
  function CompleteCheck(p: Provider, result: FetchResult): (q: Provider)
    ensures !q.isChecking && !q.state.isLoading && q.isReady == p.isReady
    ensures result.Fetched? ==>
      && q.state == AppState(false, UserRules.GetDashboardAccessRules(result.data).canAccess, result.data, None)
      && q.hasChecked
    ensures result.Failed? && SignalsNotOnboarded(result.fault) ==>
      && q.state == p.state.(isLoading := false, isOnboarded := false, error := None)
      && q.hasChecked == p.hasChecked
    ensures result.Failed? && !SignalsNotOnboarded(result.fault) ==>
      && q.state == p.state.(isLoading := false, error := Some(ErrorText(result.fault.message)))
      && q.hasChecked == p.hasChecked
  {
    var q := match result
      case Fetched(data) =>
        var rules := UserRules.GetDashboardAccessRules(data);
        p.(state := AppState(false, rules.canAccess, data, None), hasChecked := true)
      case Failed(f) =>
        if SignalsNotOnboarded(f) then
          p.(state := p.state.(isLoading := false, isOnboarded := false, error := None))
        else
          p.(state := p.state.(isLoading := false, error := Some(ErrorText(f.message))));
    q.(isChecking := false)
  }

  /** `refreshDashboard`: forget the earlier success, then check again. */
  function Refresh(p: Provider): (r: Started)
    ensures r.issued <==> !p.isChecking && p.isReady
    ensures !r.provider.hasChecked
  {
    StartCheck(p.(hasChecked := false))
  }

  /** `onboardUser` up to `await createUser()`: show loading, clear the
      error. The creation request is always issued. */
  function BeginOnboard(p: Provider): (q: Provider)
    ensures q.state == p.state.(isLoading := true, error := None)
    ensures q.isChecking == p.isChecking && q.hasChecked == p.hasChecked && q.isReady == p.isReady
  {
    p.(state := p.state.(isLoading := true, error := None))
  }

  /** `error.message || 'User creation failed'` */
  function CreationErrorText(message: string): string {
    if |message| == 0 then "User creation failed" else message
  }

  /** `onboardUser` after `createUser` settles: on success it refreshes; on
      failure it records the error and skips the refresh. Either way the
      call resolves: there is no path on which it rejects to its caller. */
  function FinishOnboard(p: Provider, created: Result<CreateUserResponse>): (r: Started)
    ensures created.Ok? ==> r == Refresh(p)
    ensures created.Err? ==> !r.issued
    ensures created.Err? ==>
      r.provider == p.(state := p.state.(isLoading := false, error := Some(CreationErrorText(created.message))))
  {
    match created
    case Ok(_) => Refresh(p)
    case Err(m) => Started(p.(state := p.state.(isLoading := false, error := Some(CreationErrorText(m)))), false)
  }

  /** The four statuses a reader of the state can tell apart. */
  datatype Status = Loading | Onboarded | NotOnboarded | Errored

  function StatusOf(s: AppState): Status {
    if s.isLoading then Loading
    else if s.error.Some? then Errored
    else if s.isOnboarded then Onboarded
    else NotOnboarded
  }

  // ---------------------------------------------------------------------
  // The provider inside an environment that answers its requests.

  datatype Event =
    | CheckEffect                                          // the effect calls `checkDashboard`
    | ReadyChanged(ready: bool)                            // the host's `isReady` changes
    | RefreshCall                                          // a screen awaits `refreshDashboard`
    | OnboardCall                                          // a screen awaits `onboardUser`
    | DashboardSettles(result: FetchResult)                // the outstanding fetch settles
    | CreateUserSettles(created: Result<CreateUserResponse>)  // one outstanding creation settles

  /** The provider plus the number of requests the network still owes it. */
  datatype World = World(provider: Provider, dashboardFetches: nat, userCreations: nat)

  /** A settlement can only happen for a request that is outstanding. */
  predicate Enabled(w: World, e: Event) {
    match e
    case DashboardSettles(_) => w.dashboardFetches > 0
    case CreateUserSettles(_) => w.userCreations > 0
    case _ => true
  }

  function Issue(w: World, r: Started): World {
    World(r.provider, w.dashboardFetches + (if r.issued then 1 else 0), w.userCreations)
  }

  /** One event; an event that cannot happen in `w` changes nothing. */
  function Step(w: World, e: Event): World {
    if !Enabled(w, e) then w
    else match e
      case CheckEffect => Issue(w, StartCheck(w.provider))
      case ReadyChanged(ready) => w.(provider := w.provider.(isReady := ready))
      case RefreshCall => Issue(w, Refresh(w.provider))
      case OnboardCall => w.(provider := BeginOnboard(w.provider), userCreations := w.userCreations + 1)
      case DashboardSettles(result) =>
        w.(provider := CompleteCheck(w.provider, result), dashboardFetches := w.dashboardFetches - 1)
      case CreateUserSettles(created) =>
        Issue(w.(userCreations := w.userCreations - 1), FinishOnboard(w.provider, created))
  }

  function Run(w: World, events: seq<Event>): World
    decreases |events|
  {
    if |events| == 0 then w else Run(Step(w, events[0]), events[1..])
  }

  /** Single flight: the network owes a dashboard response exactly while
      the in-flight flag is set, so at most one fetch is ever outstanding.
      And an onboarded state always holds a snapshot. */
  predicate Invariant(w: World) {
    && w.dashboardFetches == (if w.provider.isChecking then 1 else 0)
    && (w.provider.state.isOnboarded ==> w.provider.state.dashboardData.Some?)
  }

  function InitWorld(isReady: bool): (w: World)
    ensures Invariant(w)
  {
    World(Init(isReady), 0, 0)
  }

  lemma StepKeepsInvariant(w: World, e: Event)
    requires Invariant(w)
    ensures Invariant(Step(w, e))
    ensures Step(w, e).dashboardFetches <= 1
  {
  }

  lemma {:induction false} RunKeepsInvariant(w: World, events: seq<Event>)
    requires Invariant(w)
    ensures Invariant(Run(w, events))
    ensures Run(w, events).dashboardFetches <= 1
    decreases |events|
  {
    if |events| > 0 {
      StepKeepsInvariant(w, events[0]);
      RunKeepsInvariant(Step(w, events[0]), events[1..]);
    }
  }

  /** Every state reachable from start-up obeys the invariant. */
  lemma ReachableStatesSafe(isReady: bool, events: seq<Event>)
    ensures Invariant(Run(InitWorld(isReady), events))
    ensures Run(InitWorld(isReady), events).dashboardFetches <= 1
  {
    RunKeepsInvariant(InitWorld(isReady), events);
  }

  /** A check or refresh started while one is in flight issues nothing and
      changes nothing. */
  lemma NoFetchWhileInFlight(p: Provider)
    requires p.isChecking
    ensures StartCheck(p) == Started(p, false)
    ensures !Refresh(p).issued && Refresh(p).provider == p.(hasChecked := false)
  {
  }

  /** Two refreshes in a row issue exactly one fetch when the host is ready
      and nothing is in flight. */
  lemma DoubleRefreshIssuesOnce(p: Provider)
    requires p.isReady && !p.isChecking
    ensures Refresh(p).issued
    ensures !Refresh(Refresh(p).provider).issued
  {
  }

  /** After a successful check further checks are no-ops, until a refresh
      clears the guard. */
  lemma SuccessStopsChecks(p: Provider, data: Option<Dashboard>)
    requires p.isReady
    ensures !StartCheck(CompleteCheck(p, Fetched(data))).issued
    ensures Refresh(CompleteCheck(p, Fetched(data))).issued
  {
  }

  /** A not-found outcome reads as "not onboarded", never as an error. */
  lemma NotFoundMeansNotOnboarded(p: Provider, f: Api.Fault)
    requires SignalsNotOnboarded(f)
    ensures StatusOf(CompleteCheck(p, Failed(f)).state) == NotOnboarded
    ensures CompleteCheck(p, Failed(f)).state.error.None?
  {
  }

  /** Any other failure reads as an error that shows a non-empty message. */
  lemma OtherFailureMeansErrored(p: Provider, f: Api.Fault)
    requires !SignalsNotOnboarded(f)
    ensures StatusOf(CompleteCheck(p, Failed(f)).state) == Errored
    ensures CompleteCheck(p, Failed(f)).state.isOnboarded == p.state.isOnboarded
    ensures CompleteCheck(p, Failed(f)).state.dashboardData == p.state.dashboardData
  {
  }

  /** The converse of the invariant does not hold: a later not-found keeps
      the old snapshot while reporting "not onboarded". */
  lemma StaleSnapshotAfterNotFound(d: Dashboard)
    ensures var p := CompleteCheck(Refresh(CompleteCheck(StartCheck(Init(true)).provider,
                                                         Fetched(Some(d)))).provider,
                                   Failed(Api.NotFoundError(Api.DashboardNotFoundMessage)));
            !p.state.isOnboarded && p.state.dashboardData == Some(d)
  {
  }

  // ---------------------------------------------------------------------
  // How the client's outcomes and the mock's replies reach the provider.

  /** The dashboard use case's result, from the client's outcome and the
      snapshot decoded from a returned body. */
  function FromRequest(o: Api.Outcome, decoded: Option<Dashboard>): FetchResult {
    match o
    case Returned(_) => Fetched(decoded)
    case Threw(f) => Failed(f)
  }

  /** A 404 on the dashboard endpoint always lands in "not onboarded". */
  lemma Dashboard404MeansNotOnboarded(p: Provider, statusText: string, body: Api.Body,
                                      decoded: Option<Dashboard>)
    ensures var o := Api.Request(Api.DashboardEndpoint, Api.Responded(Api.Response(404, statusText, body)));
            StatusOf(CompleteCheck(p, FromRequest(o, decoded)).state) == NotOnboarded
  {
  }

  /** A lost connection whose message mentions `fetch` reaches the provider
      as a plain error carrying the network message. That message has none
      of the not-found markers, so the check settles in the error state
      showing it, with both flags cleared. */
  lemma NetworkFailureReachesProvider(p: Provider, message: string)
    requires Contains(message, "fetch")
    ensures var o := Api.Request(Api.DashboardEndpoint, Api.Rejected(message));
            && FromRequest(o, None) == Failed(Api.PlainError(Api.NetworkErrorMessage))
            && !CompleteCheck(p, FromRequest(o, None)).isChecking
            && !CompleteCheck(p, FromRequest(o, None)).state.isLoading
            && StatusOf(CompleteCheck(p, FromRequest(o, None)).state) == Errored
            && CompleteCheck(p, FromRequest(o, None)).state.error == Some(Api.NetworkErrorMessage)
  {
    Api.FetchFailureIsNetworkError(Api.DashboardEndpoint, message);
    Api.NetworkMessageLacksMarkers();
    assert !SignalsNotOnboarded(Api.PlainError(Api.NetworkErrorMessage));
  }

  /** WebKit's "Load failed" is rethrown untranslated and, mentioning none
      of the not-found markers, leaves the provider in the error state with
      that text. */
  lemma LoadFailedReachesProviderAsIs(p: Provider)
    ensures var o := Api.Request(Api.DashboardEndpoint, Api.Rejected("Load failed"));
            && FromRequest(o, None) == Failed(Api.TypeError("Load failed"))
            && StatusOf(CompleteCheck(p, FromRequest(o, None)).state) == Errored
            && CompleteCheck(p, FromRequest(o, None)).state.error == Some("Load failed")
  {
    Api.LoadFailedIsRethrown(Api.DashboardEndpoint);
    var m := "Load failed";
    var l := Lower(m);
    forall i | 0 <= i <= |m| - 3
      ensures !OccursAt(m, "404", i)
    {
      assert m[i] != '4';
    }
    assert l[0] == 'l' && l[1] == 'o' && l[2] == 'a';
    forall i | 0 <= i <= |l| - 9
      ensures !OccursAt(l, "not found", i)
    {
      assert l[i] != 'n';
    }
    forall i | 0 <= i <= |l| - 10
      ensures !OccursAt(l, "onboarding", i)
    {
      assert l[i..i + 3] != "onb";
    }
    assert !SignalsNotOnboarded(Api.TypeError(m));
  }

  function FromMock(r: Result<Dashboard>): FetchResult {
    match r
    case Ok(d) => Fetched(Some(d))
    case Err(m) => Failed(Api.PlainError(m))
  }

  /** The mock's failure mentions 404, so it reads as "not onboarded". */
  lemma MockFailureMeansNotOnboarded(b: MockApi.Backend)
    requires !MockApi.IsOnboarded(b)
    ensures FromMock(MockApi.GetDashboard(b)).Failed?
    ensures SignalsNotOnboarded(FromMock(MockApi.GetDashboard(b)).fault)
  {
    ContainsAt(MockApi.NotFoundMessage, "404", 0);
  }

  /** Start-up against a fresh mock, then onboarding: the first check
      reports "not onboarded"; creating the user and the refresh that
      follows reach "onboarded" with the mock's snapshot. */
  lemma MockOnboardingScenario()
    ensures var b0 := MockApi.Backend(None);
            var s1 := StartCheck(Init(true));
            var p1 := CompleteCheck(s1.provider, FromMock(MockApi.GetDashboard(b0)));
            var served := MockApi.Serve(b0, MockApi.CreateUserCall);
            var s2 := FinishOnboard(BeginOnboard(p1), Ok(MockApi.CreatedUser));
            var p2 := CompleteCheck(s2.provider, FromMock(MockApi.GetDashboard(served.0)));
            && s1.issued && StatusOf(p1.state) == NotOnboarded
            && s2.issued && StatusOf(p2.state) == Onboarded
            && p2.state.dashboardData == Some(MockApi.MockDashboard)
  {
    MockFailureMeansNotOnboarded(MockApi.Backend(None));
  }
}
