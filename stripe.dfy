/**
 * The payment provider as the server sees it: a log of the requests sent to it. What the
 * provider answers is a parameter of each procedure; an absent answer means the call threw.
 */
module Stripe {
  import opened Wrappers
  import opened Schema

  datatype Request =
    | CreateCustomer(userId: UserId, email: string, name: Option<string>)
    | CreateSubscription(priceId: string, customerId: string)
    | CancelSubscription(subscriptionId: string, atPeriodEnd: bool)
    | ReactivateSubscription(subscriptionId: string)
    | UpdateSubscription(subscriptionId: string, priceId: string)

  /** A new customer. */
  datatype Customer = Customer(id: string)

  /** A new subscription: its provider id, status, and the secret the client confirms payment with. */
  datatype CreatedSubscription = CreatedSubscription(subscriptionId: string, status: string, clientSecret: Option<string>)

  /** A canceled subscription's `cancel_at` and `canceled_at`, in seconds. */
  datatype CancelReply = CancelReply(cancelAt: Option<int>, canceledAt: Option<int>)

  /** A reactivated or re-priced subscription's status. */
  datatype StatusReply = StatusReply(status: string)

  class Provider {
    var requests: seq<Request>

    constructor ()
      ensures requests == []
    {
      requests := [];
    }

    /** Send one request. */
    method Send(r: Request)
      modifies this
      ensures requests == old(requests) + [r]
    {
      requests := requests + [r];
    }
  }
}
