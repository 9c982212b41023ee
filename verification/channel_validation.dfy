/** `ChannelValidationService`: the handle check used before linking the
    bot to a channel, and the channel-status predicates. */
module ChannelValidation {
  import opened Results
  import opened Domain
  import CU = ChannelUsername

  function ChannelMessage(e: CU.HandleError): string {
    match e
    case Required => "Channel username is required"
    case MissingAt => "Channel username must start with @"
    case TooShort => "Channel username too short"
    case TooLong => "Channel username too long"
    case InvalidCharacters => "Channel username contains invalid characters"
  }

  /** `validateChannelUsername`: same checks, same order as the value
      object, with channel-specific messages. */
  function ValidateChannelUsername(u: string): (r: CU.Validation)
    ensures r.isValid == CU.IsValid(u)
    ensures r.isValid <==> r.error.None?
    ensures !r.isValid ==> r.error == Some(ChannelMessage(CU.CheckHandle(u).value))
  {
    match CU.CheckHandle(u)
    case None => CU.Validation(true, None)
    case Some(e) => CU.Validation(false, Some(ChannelMessage(e)))
  }

  /** The service and the value object agree on every string, and each
      refusal reason has distinct wording in both. */
  lemma ValidatorsAgree(u: string)
    ensures ValidateChannelUsername(u).isValid == CU.Validate(u).isValid
    ensures ValidateChannelUsername(u).error.None? == CU.Validate(u).error.None?
  {
  }

  /** Any `@` plus 2..31 handle characters is accepted without an error. */
  lemma WellFormedHandleAccepted(name: string)
    requires 2 <= |name| <= 31
    requires forall i :: 0 <= i < |name| ==> CU.IsHandleChar(name[i])
    ensures ValidateChannelUsername("@" + name) == CU.Validation(true, None)
  {
    var u := "@" + name;
    assert forall i :: 1 <= i < |u| ==> u[i] == name[i - 1];
  }

  predicate ValidateChannelOwnership(c: Channel) {
    c.isVerified
  }

  /** The bot may only be added to a channel that is not yet verified. */
  predicate CanAddBotToChannel(c: Channel)
    ensures CanAddBotToChannel(c) <==> !ValidateChannelOwnership(c)
  {
    !c.isVerified
  }

  datatype ChannelStatus = ChannelStatus(isVerified: bool, needsVerification: bool, canAddBot: bool)

  function GetChannelStatus(c: Channel): (s: ChannelStatus)
    ensures s.isVerified == ValidateChannelOwnership(c)
    ensures s.needsVerification == !s.isVerified
    ensures s.canAddBot == s.needsVerification
  {
    ChannelStatus(c.isVerified, !c.isVerified, CanAddBotToChannel(c))
  }

  /** Adding the bot is allowed exactly when ownership is not yet verified. */
  lemma CanAddBotIffNotOwned(c: Channel)
    ensures CanAddBotToChannel(c) == !ValidateChannelOwnership(c)
  {
  }
}
