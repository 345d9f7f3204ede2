/** The subscription views of the module `subscriptions/views.py`, the
    version that charges through a Stripe PaymentIntent and records the
    subscription when the payment_intent.succeeded webhook arrives. In the
    running application the `subscriptions/views/` package shadows this
    module; both are modelled. */
module PaymentIntentViews {
  import opened Base
  import opened Money
  import opened Query
  import opened Ordering
  import opened Users
  import opened Stripe
  import opened SubscriptionModels
  import opened SubscriptionRules
  import opened Db

  /** What subscribe answers: a 404 page, a redirect to the creator's
      profile with a message, or the checkout page for the intent. */
  datatype IntentResponse = IntentNotFound | RedirectToProfile(message: string) | IntentCheckout(clientSecret: string)

  datatype IntentOutcome = IntentOutcome(response: IntentResponse, calls: seq<Call>)

  const SelfMessage: string := "You cannot subscribe to yourself."
  const AlreadyMessage: string := "You are already subscribed to this creator."

  /** subscribe(creator_username): after the two guards, one PaymentIntent
      for the creator's price in cents, in dollars, for the subscriber's
      Stripe customer. Nothing is written to the database. */
  function SubscribeWithIntent(users: seq<User>, subs: seq<Subscription>, me: nat, creatorUsername: string,
                               reply: IntentReply): (r: IntentOutcome)
    requires UsersValid(users) && IsUser(users, me)
    ensures var g := SubscribeGuard(users, subs, me, creatorUsername);
      && (g.CreatorNotFound? ==> r == IntentOutcome(IntentNotFound, []))
      && (g.SelfSubscription? ==> r == IntentOutcome(RedirectToProfile(SelfMessage), []))
      && (g.AlreadySubscribed? ==> r == IntentOutcome(RedirectToProfile(AlreadyMessage), []))
    ensures var g := SubscribeGuard(users, subs, me, creatorUsername);
      g.Proceed? ==>
        var s := ById(users, me);
        && s.Found?
        && r.calls == [PaymentIntentCreate(ToCents(users[g.creator].subscriptionPrice), Currency,
                                           users[s.index].stripeCustomerId, users[g.creator].id, me)]
        && (r.response.IntentCheckout? <==> reply.IntentCreated?)
        && (reply.IntentCreated? ==> r.response == IntentCheckout(reply.clientSecret))
        && (reply.IntentFailed? ==> r.response.RedirectToProfile?)
  {
    var g := SubscribeGuard(users, subs, me, creatorUsername);
    match g
    case CreatorNotFound => IntentOutcome(IntentNotFound, [])
    case SelfSubscription => IntentOutcome(RedirectToProfile(SelfMessage), [])
    case AlreadySubscribed => IntentOutcome(RedirectToProfile(AlreadyMessage), [])
    case Proceed(c) =>
      var s := ById(users, me);
      var call := PaymentIntentCreate(ToCents(users[c].subscriptionPrice), Currency, users[s.index].stripeCustomerId,
                                      users[c].id, me);
      match reply
      case IntentCreated(secret) => IntentOutcome(IntentCheckout(secret), [call])
      case IntentFailed(m) => IntentOutcome(RedirectToProfile("Stripe error: " + m), [call])
  }

  /** A self-subscription or an existing active subscription never reaches
      Stripe, whatever Stripe would answer. */
  lemma GuardsPrecedeStripe(users: seq<User>, subs: seq<Subscription>, me: nat, name: string, reply: IntentReply)
    requires UsersValid(users) && IsUser(users, me)
    requires exists i :: 0 <= i < |users| && IsCreatorNamed(name, users[i]) && (users[i].id == me || HasActive(subs, me, users[i].id))
    ensures SubscribeWithIntent(users, subs, me, name, reply).calls == []
    ensures SubscribeWithIntent(users, subs, me, name, reply).response.RedirectToProfile?
  {
    var g := SubscribeGuard(users, subs, me, name);
    assert g.SelfSubscription? || g.AlreadySubscribed?;
  }

  /** The Subscription.objects.create(...) keywords of the webhook, as
      written: they include stripe_payment_id, which is not a column of
      Subscription. */
  function IntentWebhookArgsAsWritten(subscriber: User, creator: User, now: int): SubscriptionArgs
  {
    SubscriptionArgs(subscriber.id, creator.id, Some(true), Some(now + ThirtyDays), Some(creator.subscriptionPrice),
                     Some(true), None, {"stripe_payment_id"})
  }

  /** As written, the model constructor rejects the keyword on every
      database state, so no subscription and no payment is ever recorded. */
  lemma IntentWebhookCreateAlwaysFails(subs: seq<Subscription>, subscriber: User, creator: User, id: nat, now: int)
    ensures CreateSubscription(subs, IntentWebhookArgsAsWritten(subscriber, creator, now), id, now)
      == Err(UnexpectedKeyword({"stripe_payment_id"}))
  {
  }

  /** The keywords without stripe_payment_id. */
  function IntentWebhookArgs(subscriber: User, creator: User, now: int): (a: SubscriptionArgs)
    ensures a.unknownKeywords == {} && a.active == Some(true) && a.autoRenew == Some(true)
    ensures a.expiresAt == Some(now + ThirtyDays) && a.price == Some(creator.subscriptionPrice)
    ensures a.subscriber == subscriber.id && a.creator == creator.id
  {
    SubscriptionArgs(subscriber.id, creator.id, Some(true), Some(now + ThirtyDays), Some(creator.subscriptionPrice),
                     Some(true), None, {})
  }

  /** Without the stray keyword the create succeeds exactly when the pair
      is free, and writes an active, renewing row for thirty days at the
      creator's price. */
  lemma IntentWebhookCreateSucceedsOnFreePair(subs: seq<Subscription>, subscriber: User, creator: User, id: nat, now: int)
    ensures var r := CreateSubscription(subs, IntentWebhookArgs(subscriber, creator, now), id, now);
      && (r.Ok? <==> !PairTaken(subs, subscriber.id, creator.id))
      && (r.Ok? ==> (var row := r.value[|subs|];
                     row.subscriber == subscriber.id && row.creator == creator.id
                     && row.active && row.autoRenew && row.price == creator.subscriptionPrice
                     && row.expiresAt == now + ThirtyDays))
  {
    var a := IntentWebhookArgs(subscriber, creator, now);
    var r := CreateSubscription(subs, a, id, now);
    if r.Ok? {
      assert r.value[|subs|] == SubscriptionRow(a, id, now);
    }
  }

  /** The payment row recorded beside the new subscription. */
  function IntentPaymentRow(id: nat, subscriber: User, creator: User, intentId: string, subscriptionId: nat, now: int)
    : (p: PaymentHistory)
    ensures p.paymentType == SubscriptionPayment && p.status == Succeeded
    ensures p.amount == creator.subscriptionPrice && p.subscription == Some(subscriptionId)
    ensures p.user == subscriber.id && p.recipient == creator.id && p.stripePaymentId == Some(intentId)
  {
    PaymentRow(id, subscriber.id, creator.id, SubscriptionPayment, creator.subscriptionPrice, Some(Succeeded),
               Some(intentId), Some(subscriptionId), None, now)
  }

  /** stripe_webhook: a missing signature header is a 500, a bad payload or
      signature a 400; payment_intent.succeeded records exactly one
      subscription and one payment linked to it; every other event is
      acknowledged with no change. The subscription is built from the
      corrected IntentWebhookArgs: with the keywords as written the create
      always raises (IntentWebhookCreateAlwaysFails) and the branch always
      answers 500 with nothing recorded. */
  method StripeWebhookIntent(db: Database, signature: Option<string>, event: EventReply, now: int) returns (code: nat)
    requires db.Valid()
    modifies db`subscriptions, db`payments, db`nextId
    ensures db.Valid()
    ensures signature.None? ==>
      code == 500 && db.subscriptions == old(db.subscriptions) && db.payments == old(db.payments) && db.nextId == old(db.nextId)
    ensures signature.Some? && !event.EventParsed? ==>
      code == 400 && db.subscriptions == old(db.subscriptions) && db.payments == old(db.payments) && db.nextId == old(db.nextId)
    ensures signature.Some? && event.EventParsed? && !event.event.PaymentIntentSucceeded? ==>
      code == 200 && db.subscriptions == old(db.subscriptions) && db.payments == old(db.payments) && db.nextId == old(db.nextId)
    ensures signature.Some? && event.EventParsed? && event.event.PaymentIntentSucceeded? ==>
      var e := event.event;
      && (e.creatorId.None? || e.subscriberId.None? ==>
            code == 500 && db.subscriptions == old(db.subscriptions) && db.payments == old(db.payments)
            && db.nextId == old(db.nextId))
      && (e.creatorId.Some? && e.subscriberId.Some? ==>
            var s, c := LookupById(db.users, e.subscriberId.value), LookupById(db.users, e.creatorId.value);
            && (s.None? || c.None? ==>
                  code == 500 && db.subscriptions == old(db.subscriptions) && db.payments == old(db.payments)
                  && db.nextId == old(db.nextId))
            && (s.Some? && c.Some? ==>
                  var subscriber, creator := db.users[s.value], db.users[c.value];
                  var created := CreateSubscription(old(db.subscriptions), IntentWebhookArgs(subscriber, creator, now),
                                                    old(db.nextId), now);
                  && (created.Err? ==>
                        code == 500 && db.subscriptions == old(db.subscriptions) && db.payments == old(db.payments)
                        && db.nextId == old(db.nextId))
                  && (created.Ok? ==>
                        && code == 200
                        && db.subscriptions == created.value
                        && db.payments == old(db.payments)
                             + [IntentPaymentRow(old(db.nextId) + 1, subscriber, creator, e.intentId, old(db.nextId), now)]
                        && db.nextId == old(db.nextId) + 2)))
  {
    if signature.None? {
      // request.META['HTTP_STRIPE_SIGNATURE'] raises KeyError
      code := 500;
      return;
    }
    if !event.EventParsed? {
      code := 400;
      return;
    }
    if !event.event.PaymentIntentSucceeded? {
      code := 200;
      return;
    }
    var e := event.event;
    if e.creatorId.None? || e.subscriberId.None? {
      // the metadata keys are read outside the try block
      code := 500;
      return;
    }
    var s, c := LookupById(db.users, e.subscriberId.value), LookupById(db.users, e.creatorId.value);
    if s.None? || c.None? {
      code := 500;
      return;
    }
    var subscriber, creator := db.users[s.value], db.users[c.value];
    assert IsUser(db.users, subscriber.id) && IsUser(db.users, creator.id);
    var subscriptionId := db.nextId;
    var ok := db.InsertSubscription(IntentWebhookArgs(subscriber, creator, now), now);
    if !ok {
      code := 500;
      return;
    }
    db.InsertPayment(IntentPaymentRow(db.nextId, subscriber, creator, e.intentId, subscriptionId, now));
    code := 200;
  }

  /** What cancel_subscription answers: a 404 page or the redirect. */
  datatype IntentCancelResponse = CancelCreatorMissing | CancelRedirect

  /** cancel_subscription(creator_username): the pair's active subscription
      stops and stops renewing; without one nothing changes. */
  method CancelSubscriptionIntent(db: Database, me: nat, creatorUsername: string) returns (r: IntentCancelResponse)
    requires db.Valid()
    modifies db`subscriptions
    ensures db.Valid()
    ensures var c := CreatorByUsername(db.users, creatorUsername);
      && (c.DoesNotExist? ==> r == CancelCreatorMissing && db.subscriptions == old(db.subscriptions))
      && (c.Found? && !HasActive(old(db.subscriptions), me, db.users[c.index].id) ==>
            r == CancelRedirect && db.subscriptions == old(db.subscriptions))
      && (c.Found? && HasActive(old(db.subscriptions), me, db.users[c.index].id) ==>
            r == CancelRedirect &&
            db.subscriptions == Stop(old(db.subscriptions), ActiveLookup(old(db.subscriptions), me, db.users[c.index].id).index))
  {
    var c := CreatorByUsername(db.users, creatorUsername);
    if c.DoesNotExist? {
      r := CancelCreatorMissing;
      return;
    }
    var l := ActiveLookup(db.subscriptions, me, db.users[c.index].id);
    if l.Found? {
      db.StopSubscription(l.index);
    }
    r := CancelRedirect;
  }

  /** What subscription_confirmation answers. */
  datatype IntentConfirmation = ConfirmNotFound | ConfirmRedirect | ConfirmPage(subscription: Subscription)

  function SubscriptionCreatedAt(s: Subscription): int { s.createdAt }

  /** subscription_confirmation(creator_username): the most recently
      created active subscription of the pair, or a redirect when there is
      none. */
  function SubscriptionConfirmationIntent(users: seq<User>, subs: seq<Subscription>, me: nat, creatorUsername: string)
    : (r: IntentConfirmation)
    requires UsersValid(users)
    ensures r.ConfirmNotFound? <==> forall i :: 0 <= i < |users| ==> !IsCreatorNamed(creatorUsername, users[i])
    ensures var c := CreatorByUsername(users, creatorUsername);
      && (r.ConfirmRedirect? <==> c.Found? && !HasActive(subs, me, users[c.index].id))
      && (r.ConfirmPage? ==>
            && c.Found?
            && r.subscription in subs && IsActiveFor(me, users[c.index].id, r.subscription)
            && forall t :: t in subs && IsActiveFor(me, users[c.index].id, t) ==> t.createdAt <= r.subscription.createdAt)
  {
    var c := CreatorByUsername(users, creatorUsername);
    if c.DoesNotExist? then ConfirmNotFound
    else
      var cid := users[c.index].id;
      var active := Filter(subs, (s: Subscription) => IsActiveFor(me, cid, s));
      var newest := SortDesc(active, SubscriptionCreatedAt);
      SortedMembers(active, newest);
      if newest == [] then
        ConfirmRedirect
      else
        FirstIsNewest(newest, SubscriptionCreatedAt);
        ConfirmPage(newest[0])
  }
}
