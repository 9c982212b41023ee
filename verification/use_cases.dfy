/** The use cases that check one rule locally and then make at most one
    gateway call. The gateway is a parameter: a total function from the
    request to the call's outcome. An `Execution` records the requests that
    were actually sent, so "no network call" is `calls == []`. */
module UseCases {
  import opened Results
  import opened Domain
  import CV = ChannelValidation
  import CU = ChannelUsername
  import UserRules

  datatype Execution<Req, Resp> = Execution(calls: seq<Req>, result: Result<Resp>)

  /** `AddBotUseCase.execute`: validate the handle, then call `addBot`. */
  function AddBot(handle: string, addBot: string -> Result<AddBotResponse>)
    : (e: Execution<string, AddBotResponse>)
    ensures |e.calls| <= 1
    ensures e.calls == [] <==> !CV.ValidateChannelUsername(handle).isValid
    ensures e.calls == [] ==> e.result == Err(CV.ValidateChannelUsername(handle).error.value)
    ensures e.calls != [] ==> e.calls == [handle] && e.result == addBot(handle)
  {
    var validation := CV.ValidateChannelUsername(handle);
    if !validation.isValid then Execution([], Err(validation.error.value))
    else Execution([handle], addBot(handle))
  }

  /** A refused handle never reaches the network, whatever the gateway. */
  lemma AddBotRefusalIsLocal(handle: string, g1: string -> Result<AddBotResponse>,
                             g2: string -> Result<AddBotResponse>)
    requires !CU.IsValid(handle)
    ensures AddBot(handle, g1) == AddBot(handle, g2)
    ensures AddBot(handle, g1).result.Err?
  {
  }

  /** Acceptance is exactly the value object's `isValid`. */
  lemma AddBotCallsIffValid(handle: string, addBot: string -> Result<AddBotResponse>)
    ensures |AddBot(handle, addBot).calls| == 1 <==> CU.IsValid(handle)
  {
  }

  /** `PublishSubscriptionUseCase.execute`: the user must be verified and
      must not already have a published subscription. */
  function PublishSubscription(request: PublishRequest, user: User,
                               publish: PublishRequest -> Result<PublishResponse>)
    : (e: Execution<PublishRequest, PublishResponse>)
    ensures |e.calls| <= 1
    ensures e.calls == [] <==> !user.isVerified || user.isSubPublished
    ensures e.calls == [] ==> e.result == Err(PublishRefusal)
    ensures e.calls != [] ==> e.calls == [request] && e.result == publish(request)
  {
    if !UserRules.CanPublishSubscription(user) then Execution([], Err(PublishRefusal))
    else Execution([request], publish(request))
  }

  const PublishRefusal: string :=
    "User cannot publish subscription. Must be verified and not have existing subscription."

  /** The decision depends on the user's flags only, never on the request. */
  lemma PublishDecisionIgnoresRequest(r1: PublishRequest, r2: PublishRequest, user: User,
                                      publish: PublishRequest -> Result<PublishResponse>)
    ensures (PublishSubscription(r1, user, publish).calls == [])
        == (PublishSubscription(r2, user, publish).calls == [])
  {
  }
}
