/** The gateway client (`TributeApiService`): the `TgAuth` header, header
    merging, the request URL, and how one response or transport failure is
    turned into a returned body or a thrown error. `fetch` itself and body
    parsing are outside the model: a response arrives already parsed. */
module Api {
  import opened Results
  import opened Text
  import TelegramAuth

  const ApiBaseUrl: string := "https://gateway.statgram.org/api/v1"
  const DashboardEndpoint: string := "/dashboard"
  const JsonMediaType: string := "application/json"
  /** Long literals are written in pieces so that the verifier can read
      them character by character. */
  const NetworkErrorMessage: string := "Network error - please" + " check your internet" + " connection"
  const DashboardNotFoundMessage: string := "Dashboard not found - user needs onboarding"
  /** What the engine reports when `data.error` is read from a JSON `null`. */
  const NullBodyMessage: string := "Cannot read properties" + " of null (reading" + " 'error')"

  /** `getAuthHeader`: the host's init data, when present and non-empty,
      prefixed with the `TgAuth` scheme. */
  function GetAuthHeader(initData: Option<string>): (h: Option<string>)
    ensures h.Some? <==> initData.Some? && |initData.value| > 0
    ensures h.Some? ==> h.value == "TgAuth " + initData.value
  {
    if initData.Some? && |initData.value| > 0 then Some("TgAuth " + initData.value) else None
  }

  /** The client's header and the auth service's header are the same. */
  lemma AuthHeaderMatchesService(initData: string)
    ensures GetAuthHeader(Some(initData)) == TelegramAuth.GetAuthHeader(initData)
  {
  }

  /** `${API_BASE_URL}${endpoint}` */
  function RequestUrl(endpoint: string): (url: string)
    ensures |url| == |ApiBaseUrl| + |endpoint|
    ensures url[..|ApiBaseUrl|] == ApiBaseUrl && url[|ApiBaseUrl|..] == endpoint
  {
    ApiBaseUrl + endpoint
  }

  /** `{ ...defaultHeaders, ...options.headers }`: JSON defaults, the
      `Authorization` header when there is init data, then the caller's
      headers, which win on a clash. */
  function BuildHeaders(initData: Option<string>, callerHeaders: map<string, string>)
    : (h: map<string, string>)
    ensures forall k :: k in callerHeaders ==> k in h && h[k] == callerHeaders[k]
    ensures "Content-Type" in h && "Accept" in h
    ensures "Content-Type" !in callerHeaders ==> h["Content-Type"] == JsonMediaType
    ensures "Accept" !in callerHeaders ==> h["Accept"] == JsonMediaType
    ensures "Authorization" !in callerHeaders ==>
      ("Authorization" in h <==> GetAuthHeader(initData).Some?)
    ensures "Authorization" !in callerHeaders && "Authorization" in h ==>
      h["Authorization"] == GetAuthHeader(initData).value
    ensures forall k :: k in h ==>
      k in callerHeaders || k == "Content-Type" || k == "Accept" || k == "Authorization"
  {
    var defaults := map["Content-Type" := JsonMediaType, "Accept" := JsonMediaType];
    var auth := GetAuthHeader(initData);
    var withAuth := if auth.Some? then defaults["Authorization" := auth.value] else defaults;
    withAuth + callerHeaders
  }

  /** The kinds of error the client can throw. */
  datatype Fault =
    | NotFoundError(message: string)
    | PlainError(message: string)
    | TypeError(message: string)

  /** What `typeof data === 'object' && data.error` can observe of a JSON
      body: `null`, an object with or without an `error` string, or any
      other value (array, number, string, boolean). */
  datatype Json = JsonNull | JsonObject(errorField: Option<string>) | JsonOther

  datatype Body = JsonBody(json: Json) | TextBody(text: string)

  datatype Response = Response(status: nat, statusText: string, body: Body)

  /** The result of `fetch`: a response, or a rejection, which `fetch`
      raises as a `TypeError` with an engine-chosen message. */
  datatype Transport = Responded(response: Response) | Rejected(message: string)

  /** The result of `request`: it returns the body or throws. */
  datatype Outcome = Returned(body: Body) | Threw(fault: Fault)

  predicate IsOk(status: nat) {
    200 <= status <= 299
  }

  function HttpErrorMessage(status: nat, statusText: string): string {
    "HTTP error! status: " + NatToString(status) + " " + statusText
  }

  /** The `catch` clause: a `TypeError` that mentions `fetch` becomes the
      network-error message; anything else is rethrown as it is. */
  function CatchFault(f: Fault): (g: Fault)
    ensures f.TypeError? && Contains(f.message, "fetch") ==> g == PlainError(NetworkErrorMessage)
    ensures !(f.TypeError? && Contains(f.message, "fetch")) ==> g == f
  {
    if f.TypeError? && Contains(f.message, "fetch") then PlainError(NetworkErrorMessage) else f
  }

  /** The error thrown for a non-ok body. Reading `.error` from `null`
      throws a `TypeError` of its own. */
  function NonOkFault(r: Response): Fault {
    match r.body
    case JsonBody(JsonNull) => TypeError(NullBodyMessage)
    case JsonBody(JsonObject(Some(e))) =>
      if |e| > 0 then PlainError(e) else PlainError(HttpErrorMessage(r.status, r.statusText))
    case _ => PlainError(HttpErrorMessage(r.status, r.statusText))
  }

  /** The status and error classification of `request`. */
  function Request(endpoint: string, t: Transport): (o: Outcome)
    ensures t.Responded? && t.response.status == 404 && endpoint == DashboardEndpoint
            ==> o == Threw(NotFoundError(DashboardNotFoundMessage))
    ensures t.Responded? && IsOk(t.response.status) ==> o == Returned(t.response.body)
    ensures o.Returned? ==> t.Responded? && IsOk(t.response.status) && o.body == t.response.body
    ensures o.Threw? && o.fault.NotFoundError? ==>
      t.Responded? && t.response.status == 404 && endpoint == DashboardEndpoint
    ensures t.Rejected? ==> o == Threw(CatchFault(TypeError(t.message)))
  {
    match t
    case Rejected(m) => Threw(CatchFault(TypeError(m)))
    case Responded(r) =>
      if r.status == 404 && endpoint == DashboardEndpoint then
        Threw(CatchFault(NotFoundError(DashboardNotFoundMessage)))
      else if !IsOk(r.status) then
        Threw(CatchFault(NonOkFault(r)))
      else
        Returned(r.body)
  }

  /** A non-ok response is reported with the server's `error` text when the
      body carries one, and otherwise with the status line. */
  lemma NonOkMessage(endpoint: string, r: Response)
    requires !IsOk(r.status)
    requires !(r.status == 404 && endpoint == DashboardEndpoint)
    requires r.body != JsonBody(JsonNull)
    ensures Request(endpoint, Responded(r)).Threw?
    ensures r.body.JsonBody? && r.body.json.JsonObject? && r.body.json.errorField.Some?
            && |r.body.json.errorField.value| > 0
            ==> Request(endpoint, Responded(r)) == Threw(PlainError(r.body.json.errorField.value))
    ensures !(r.body.JsonBody? && r.body.json.JsonObject? && r.body.json.errorField.Some?
              && |r.body.json.errorField.value| > 0)
            ==> Request(endpoint, Responded(r))
                == Threw(PlainError(HttpErrorMessage(r.status, r.statusText)))
  {
    var f := NonOkFault(r);
    assert !f.TypeError?;
  }

  /** A 404 anywhere but `/dashboard` takes the generic path: unless the
      body names an error, the thrown message is the status line, which
      mentions 404. */
  lemma OtherNotFoundIsGeneric(endpoint: string, statusText: string, body: Body)
    requires endpoint != DashboardEndpoint
    requires body != JsonBody(JsonNull)
    requires !(body.JsonBody? && body.json.JsonObject? && body.json.errorField.Some?
               && |body.json.errorField.value| > 0)
    ensures Request(endpoint, Responded(Response(404, statusText, body)))
         == Threw(PlainError(HttpErrorMessage(404, statusText)))
    ensures Contains(HttpErrorMessage(404, statusText), "404")
  {
    NonOkMessage(endpoint, Response(404, statusText, body));
    var m := HttpErrorMessage(404, statusText);
    assert NatToString(404) == "404";
    ContainsAt(m, "404", 20);
  }

  /** A non-ok JSON `null` body makes `data.error` throw a `TypeError` of
      the engine's own, which the `catch` rethrows unchanged. */
  lemma NullBodyThrowsTypeError(endpoint: string, status: nat, statusText: string)
    requires !IsOk(status)
    requires !(status == 404 && endpoint == DashboardEndpoint)
    ensures Request(endpoint, Responded(Response(status, statusText, JsonBody(JsonNull))))
         == Threw(TypeError(NullBodyMessage))
  {
    NullMessageLacksFetch();
  }

  /** The engine's null-read message does not mention `fetch`. */
  lemma NullMessageLacksFetch()
    ensures !Contains(NullBodyMessage, "fetch")
  {
    var m := NullBodyMessage;
    forall i | 0 <= i <= |m| - 5
      ensures !OccursAt(m, "fetch", i)
    {
      if m[i] == 'f' {
        assert i == 24;
        assert m[i..i + 5][1] != 'e';
      } else {
        assert m[i..i + 5][0] != 'f';
      }
    }
  }

  /** Every rejection whose message mentions `fetch` becomes the
      network-error message, on every endpoint. */
  lemma FetchFailureIsNetworkError(endpoint: string, message: string)
    requires Contains(message, "fetch")
    ensures Request(endpoint, Rejected(message)) == Threw(PlainError(NetworkErrorMessage))
  {
  }

  /** Chromium's rejection text is one such message. */
  lemma ChromiumFetchFailure(endpoint: string)
    ensures Request(endpoint, Rejected("Failed to fetch")) == Threw(PlainError(NetworkErrorMessage))
  {
    ContainsAt("Failed to fetch", "fetch", 10);
  }

  /** WebKit rejects with "Load failed", which does not mention `fetch`, so
      the client rethrows that `TypeError` unchanged. */
  lemma LoadFailedIsRethrown(endpoint: string)
    ensures Request(endpoint, Rejected("Load failed")) == Threw(TypeError("Load failed"))
  {
    var m := "Load failed";
    forall i | 0 <= i <= |m| - 5
      ensures !OccursAt(m, "fetch", i)
    {
      if m[i] == 'f' {
        assert m[i + 1] != 'e';
      }
    }
  }

  // ---------------------------------------------------------------------
  // The network message carries none of the markers the provider reads
  // as "not onboarded".

  lemma NetworkMessageLacks404()
    ensures !Contains(NetworkErrorMessage, "404")
  {
    var m := NetworkErrorMessage;
    forall i | 0 <= i <= |m| - 3
      ensures !OccursAt(m, "404", i)
    {
      assert m[i] != '4';
    }
  }

  /** Where the network message has an `n`, in either case. */
  lemma NetworkMessageN(i: int)
    requires 0 <= i < |NetworkErrorMessage| && LowerChar(NetworkErrorMessage[i]) == 'n'
    ensures i == 0 || i == 35 || i == 39 || i == 45 || i == 46 || i == 52
  {
  }

  /** Where the network message has an `o`, in either case. */
  lemma NetworkMessageO(i: int)
    requires 0 <= i < |NetworkErrorMessage| && LowerChar(NetworkErrorMessage[i]) == 'o'
    ensures i == 4 || i == 11 || i == 30 || i == 44 || i == 51
  {
  }

  lemma NetworkMessageAfterN(i: int)
    requires i == 0 || i == 35 || i == 39
    ensures LowerChar(NetworkErrorMessage[i + 1]) != 'o'
  {
  }

  lemma NetworkMessageAfterO(i: int)
    requires i == 4 || i == 11 || i == 30
    ensures LowerChar(NetworkErrorMessage[i + 1]) != 'n'
  {
  }

  lemma NetworkMessageNotFoundAt(i: int)
    requires 0 <= i <= |NetworkErrorMessage| - 9
    ensures !OccursAt(Lower(NetworkErrorMessage), "not found", i)
  {
    var l := Lower(NetworkErrorMessage);
    if LowerChar(NetworkErrorMessage[i]) == 'n' {
      NetworkMessageN(i);
      NetworkMessageAfterN(i);
      assert l[i..i + 9][1] != 'o';
    } else {
      assert l[i..i + 9][0] != 'n';
    }
  }

  lemma NetworkMessageOnboardingAt(i: int)
    requires 0 <= i <= |NetworkErrorMessage| - 10
    ensures !OccursAt(Lower(NetworkErrorMessage), "onboarding", i)
  {
    var l := Lower(NetworkErrorMessage);
    if LowerChar(NetworkErrorMessage[i]) == 'o' {
      NetworkMessageO(i);
      NetworkMessageAfterO(i);
      assert l[i..i + 10][1] != 'n';
    } else {
      assert l[i..i + 10][0] != 'o';
    }
  }

  /** Lower-cased, the network message mentions neither "not found" nor
      "onboarding". */
  lemma NetworkMessageLacksMarkers()
    ensures !Contains(NetworkErrorMessage, "404")
    ensures !Contains(Lower(NetworkErrorMessage), "not found")
    ensures !Contains(Lower(NetworkErrorMessage), "onboarding")
  {
    NetworkMessageLacks404();
    var l := Lower(NetworkErrorMessage);
    forall i | 0 <= i <= |l| - 9
      ensures !OccursAt(l, "not found", i)
    {
      NetworkMessageNotFoundAt(i);
    }
    forall i | 0 <= i <= |l| - 10
      ensures !OccursAt(l, "onboarding", i)
    {
      NetworkMessageOnboardingAt(i);
    }
  }
}
