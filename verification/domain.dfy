/** Records exchanged with the backend gateway. Field names follow the
    wire format (`is-verified`, `channels-and-groups`, ...) in camel case.
    Amounts are exact reals; dates are integer millisecond timestamps. */
module Domain {
  import opened Results

  /** A channel or group. `isVerified` is the `is_verified` flag the
      channel-validation service reads. */
  datatype Channel = Channel(id: string, channelUsername: string, isVerified: bool)

  datatype Subscription = Subscription(id: string, title: string, description: string, price: real)

  /** A payment-history entry. The declared record has no amount; the
      earnings code reads an optional `amount` and counts a missing one as 0. */
  datatype Payment = Payment(createdDate: int, description: string, amount: Option<real>)

  /** The snapshot returned by `GET /dashboard`. */
  datatype Dashboard = Dashboard(
    earn: real,
    channelsAndGroups: seq<Channel>,
    isVerified: bool,
    subscriptions: seq<Subscription>,
    isSubPublished: bool,
    paymentsHistory: seq<Payment>)

  /** The user record carried by `POST /create-user`. */
  datatype User = User(id: int, earned: real, isOnboarded: bool, isSubPublished: bool, isVerified: bool)

  datatype CreateUserResponse = CreateUserResponse(message: string, user: User, created: bool)

  datatype PublishRequest = PublishRequest(
    title: string, description: string, price: real, buttonText: string, accessToken: string)

  datatype PublishResponse = PublishResponse(message: string, subscription: Subscription)

  datatype AddBotResponse = AddBotResponse(success: bool, message: Option<string>)

  /** `(payment as any).amount || 0`: a missing amount counts as zero. */
  function AmountOrZero(p: Payment): real {
    p.amount.GetOr(0.0)
  }
}
