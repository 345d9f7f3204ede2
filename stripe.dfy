/** Stripe, seen from the views as an oracle. Each call the code can make
    is recorded as a `Call`; what Stripe answers is a parameter of the view,
    one reply per call the view might make, so every answer, failures
    included, is covered. */
module Stripe {
  import opened Base

  /** The requests the core sends to Stripe, with the arguments that matter. */
  datatype Call =
    | CustomerCreate(email: string, userId: nat, username: string)
    | ProductCreate(name: string, creatorId: nat, creatorUsername: string)
    | PriceCreate(product: Option<string>, unitAmount: int, currency: string, interval: string)
    | SubscriptionCreate(customer: Option<string>, price: Option<string>, creatorId: nat, subscriberId: nat)
    | SubscriptionRetrieve(id: string)
    | SubscriptionDelete(subscriptionId: Option<string>)
    | PaymentIntentCreate(amount: int, currency: string, customer: Option<string>, creatorId: nat, subscriberId: nat)
    | PaymentMethodRetrieve(paymentMethodId: Option<string>)
    | PaymentMethodDetach(stripePaymentMethodId: Option<string>)
    | AccountCreate(email: string, accountType: string, country: string)

  /** Answer to a create call that returns an object id. */
  datatype Reply = Created(id: string) | Failed(message: string)

  /** Answer to Subscription.create: the subscription id and the client
      secret of its first invoice's payment intent. */
  datatype SubscriptionReply = SubscriptionCreated(id: string, clientSecret: string) | SubscriptionFailed(message: string)

  /** Answer to Subscription.retrieve: its status and the two metadata
      entries the core reads (absent when the key is missing). */
  datatype RetrieveReply =
    | Retrieved(status: string, creatorUsername: Option<string>, subscriberId: Option<string>)
    | RetrieveFailed(message: string)

  /** Answer to PaymentIntent.create. */
  datatype IntentReply = IntentCreated(clientSecret: string) | IntentFailed(message: string)

  /** Answer to a call whose only result is success or an error. */
  datatype Outcome = Done | Error(message: string)

  datatype Card = Card(last4: string, brand: string, expMonth: int, expYear: int)

  /** Answer to PaymentMethod.retrieve. */
  datatype CardReply = CardRetrieved(card: Card) | CardFailed(message: string)

  /** A webhook event, with the fields the two webhooks read: the payment
      intent's id and its metadata entries (absent when the key is
      missing), or the id of a deleted subscription. */
  datatype Event =
    | PaymentIntentSucceeded(intentId: string, creatorId: Option<string>, subscriberId: Option<string>)
    | CustomerSubscriptionDeleted(deletedId: string)
    | OtherEvent(kind: string)

  /** What Webhook.construct_event(payload, signature, secret) does: hand
      back the event, or raise for a malformed payload or a bad signature. */
  datatype EventReply = EventParsed(event: Event) | InvalidPayload | InvalidSignature

  const Currency: string := "usd"
  const Interval: string := "month"
}
