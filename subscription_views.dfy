/** The subscription views of the `subscriptions/views/` package: checking
    a Stripe subscription's status, subscribing through a Stripe
    Subscription, cancelling, the confirmation page and the webhook. */
module SubscriptionViews {
  import opened Base
  import opened Money
  import opened Query
  import opened Users
  import opened Stripe
  import opened SubscriptionModels
  import opened SubscriptionRules
  import opened Db

  predicate HasStripeId(sid: string, s: Subscription) { s.stripeSubscriptionId == Some(sid) }

  /** Subscription.objects.get(stripe_subscription_id=sid); that column is
      not unique, so both exceptions are possible. */
  function ByStripeId(subs: seq<Subscription>, sid: string): (r: Lookup)
    ensures r.DoesNotExist? <==> forall i :: 0 <= i < |subs| ==> subs[i].stripeSubscriptionId != Some(sid)
    ensures r.Found? ==> r.index < |subs| && subs[r.index].stripeSubscriptionId == Some(sid)
    ensures r.Found? ==> forall j :: 0 <= j < |subs| && j != r.index ==> subs[j].stripeSubscriptionId != Some(sid)
  {
    Get(subs, (s: Subscription) => HasStripeId(sid, s))
  }

  /** The two users check_subscription reads through the retrieved
      subscription's metadata: the creator by username and the subscriber by
      id, as indices into the table. A missing key, an id that is not a
      number or a missing user gives None. */
  function MetadataUsers(users: seq<User>, creatorUsername: Option<string>, subscriberId: Option<string>)
    : (r: Option<(nat, nat)>)
    requires UsersValid(users)
    ensures r.Some? <==>
      && creatorUsername.Some? && subscriberId.Some?
      && (exists i :: 0 <= i < |users| && users[i].username == creatorUsername.value)
      && ParseId(subscriberId.value).Some? && IsUser(users, ParseId(subscriberId.value).value)
    ensures r.Some? ==>
      && r.value.0 < |users| && users[r.value.0].username == creatorUsername.value
      && r.value.1 < |users| && users[r.value.1].id == ParseId(subscriberId.value).value
  {
    if creatorUsername.None? || subscriberId.None? then None
    else
      var c := ByUsername(users, creatorUsername.value);
      var s := LookupById(users, subscriberId.value);
      if c.Found? && s.Some? then Some((c.index, s.value)) else None
  }

  /** The JSON answer of check_subscription: HTTP status, `active`, and the
      `status` entry when there is one. */
  datatype StatusResponse = StatusResponse(code: nat, active: bool, status: Option<string>)

  /** check_subscription(subscription_id): a local row answers without
      asking Stripe; otherwise Stripe's status decides, and only an active or
      trialing subscription is written, active and renewing, at the
      creator's price, for thirty days. */
  method CheckSubscription(db: Database, subscriptionId: string, retrieve: RetrieveReply, now: int)
      returns (r: StatusResponse, calls: seq<Call>)
    requires db.Valid()
    modifies db`subscriptions, db`nextId
    ensures db.Valid()
    ensures var local := ByStripeId(old(db.subscriptions), subscriptionId);
      && (local.Found? ==>
            r == StatusResponse(200, old(db.subscriptions)[local.index].active, None) && calls == []
            && db.subscriptions == old(db.subscriptions) && db.nextId == old(db.nextId))
      && (local.MultipleObjectsReturned? ==>
            r == StatusResponse(500, false, None) && calls == []
            && db.subscriptions == old(db.subscriptions) && db.nextId == old(db.nextId))
      && (local.DoesNotExist? ==> calls == [SubscriptionRetrieve(subscriptionId)])
    ensures ByStripeId(old(db.subscriptions), subscriptionId).DoesNotExist? ==>
      && (retrieve.RetrieveFailed? ==>
            r == StatusResponse(400, false, None)
            && db.subscriptions == old(db.subscriptions) && db.nextId == old(db.nextId))
      && (retrieve.Retrieved? && DecideStatus(retrieve.status).Processing? ==>
            r == StatusResponse(200, false, Some("processing"))
            && db.subscriptions == old(db.subscriptions) && db.nextId == old(db.nextId))
      && (retrieve.Retrieved? && DecideStatus(retrieve.status).Inactive? ==>
            r == StatusResponse(200, false, Some(retrieve.status))
            && db.subscriptions == old(db.subscriptions) && db.nextId == old(db.nextId))
    ensures ByStripeId(old(db.subscriptions), subscriptionId).DoesNotExist? && retrieve.Retrieved?
            && DecideStatus(retrieve.status).CreateActive? ==>
      var u := MetadataUsers(db.users, retrieve.creatorUsername, retrieve.subscriberId);
      && (u.None? ==>
            r == StatusResponse(500, false, None)
            && db.subscriptions == old(db.subscriptions) && db.nextId == old(db.nextId))
      && (u.Some? && PairTaken(old(db.subscriptions), db.users[u.value.1].id, db.users[u.value.0].id) ==>
            r == StatusResponse(500, false, None)
            && db.subscriptions == old(db.subscriptions) && db.nextId == old(db.nextId))
      && (u.Some? && !PairTaken(old(db.subscriptions), db.users[u.value.1].id, db.users[u.value.0].id) ==>
            var creator := db.users[u.value.0];
            r == StatusResponse(200, true, None)
            && db.subscriptions == old(db.subscriptions) + [Subscription(old(db.nextId), db.users[u.value.1].id,
                 creator.id, true, now, now + ThirtyDays, creator.subscriptionPrice, true, Some(subscriptionId))]
            && db.nextId == old(db.nextId) + 1)
  {
    calls := [];
    var local := ByStripeId(db.subscriptions, subscriptionId);
    if local.Found? {
      r := StatusResponse(200, db.subscriptions[local.index].active, None);
      return;
    }
    if local.MultipleObjectsReturned? {
      // get() raises MultipleObjectsReturned, which nothing catches
      r := StatusResponse(500, false, None);
      return;
    }
    calls := [SubscriptionRetrieve(subscriptionId)];
    if retrieve.RetrieveFailed? {
      r := StatusResponse(400, false, None);
      return;
    }
    match DecideStatus(retrieve.status)
    case Processing =>
      r := StatusResponse(200, false, Some("processing"));
    case Inactive(status) =>
      r := StatusResponse(200, false, Some(status));
    case CreateActive =>
      var u := MetadataUsers(db.users, retrieve.creatorUsername, retrieve.subscriberId);
      if u.None? {
        r := StatusResponse(500, false, None);
        return;
      }
      var creator, subscriber := db.users[u.value.0], db.users[u.value.1];
      var args := SubscriptionArgs(subscriber.id, creator.id, Some(true), Some(now + ThirtyDays),
                                   Some(creator.subscriptionPrice), Some(true), Some(subscriptionId), {});
      assert IsUser(db.users, subscriber.id) && IsUser(db.users, creator.id);
      var ok := db.InsertSubscription(args, now);
      r := if ok then StatusResponse(200, true, None) else StatusResponse(500, false, None);
  }

  /** What subscribe answers: the checkout page with the Stripe
      subscription's id and client secret, a 404 page, or a 400 JSON error. */
  datatype SubscribeResponse = CheckoutPage(subscriptionId: string, clientSecret: string) | NotFound | Refused(message: string)

  const SelfMessage: string := "You cannot subscribe to yourself"
  const AlreadyMessage: string := "You are already subscribed to this creator"

  function GuardRefusal(g: Guard): SubscribeResponse
  {
    match g
    case CreatorNotFound => NotFound
    case SelfSubscription => Refused(SelfMessage)
    case AlreadySubscribed => Refused(AlreadyMessage)
    case Proceed(_) => Refused("")
  }

  /** The rows and the Stripe calls after the try block of subscribe. */
  datatype Provisioning = Provisioning(subscriber: User, creator: User, calls: seq<Call>, response: SubscribeResponse)

  /** The try block of subscribe: the subscriber's customer, then the
      creator's product, then its monthly price, each created at Stripe only
      when its id is missing and written to the row at once, then the Stripe
      Subscription. Any failure ends the block with a 400, keeping what was
      already written. */
  function ProvisionAndSubscribe(subscriber: User, creator: User, customerReply: Reply, productReply: Reply,
                                 priceReply: Reply, subscriptionReply: SubscriptionReply): (p: Provisioning)
    // only the Stripe id columns change
    ensures p.subscriber == subscriber.(stripeCustomerId := p.subscriber.stripeCustomerId)
    ensures p.creator == creator.(stripeProductId := p.creator.stripeProductId, stripePriceId := p.creator.stripePriceId)
    // an id that is there is reused and never requested again
    ensures !Blank(subscriber.stripeCustomerId) ==> p.subscriber.stripeCustomerId == subscriber.stripeCustomerId
    ensures !Blank(creator.stripeProductId) ==> p.creator.stripeProductId == creator.stripeProductId
    ensures !Blank(creator.stripePriceId) ==> p.creator.stripePriceId == creator.stripePriceId
    ensures forall c :: c in p.calls && c.CustomerCreate? ==> Blank(subscriber.stripeCustomerId)
    ensures forall c :: c in p.calls && c.ProductCreate? ==> Blank(creator.stripeProductId)
    ensures forall c :: c in p.calls && c.PriceCreate? ==> Blank(creator.stripePriceId)
    // a missing customer is requested first, and its id is kept whatever happens later
    ensures Blank(subscriber.stripeCustomerId) ==>
      |p.calls| > 0 && p.calls[0] == CustomerCreate(subscriber.email, subscriber.id, subscriber.username)
    ensures Blank(subscriber.stripeCustomerId) && customerReply.Created? ==>
      p.subscriber.stripeCustomerId == Some(customerReply.id)
    // once requested, a created product or price id is kept whatever happens later
    ensures (Blank(subscriber.stripeCustomerId) ==> customerReply.Created?)
            && Blank(creator.stripeProductId) && productReply.Created? ==>
      p.creator.stripeProductId == Some(productReply.id)
    ensures (Blank(subscriber.stripeCustomerId) ==> customerReply.Created?)
            && (Blank(creator.stripeProductId) ==> productReply.Created?)
            && Blank(creator.stripePriceId) && priceReply.Created? ==>
      p.creator.stripePriceId == Some(priceReply.id)
    // what the product and price requests carry
    ensures forall c :: c in p.calls && c.ProductCreate? ==>
      c == ProductCreate("Subscription to " + creator.username, creator.id, creator.username)
    ensures forall c :: c in p.calls && c.PriceCreate? ==>
      c == PriceCreate(p.creator.stripeProductId, ToCents(creator.subscriptionPrice), Currency, Interval)
    // the outcome
    ensures p.response.CheckoutPage? <==>
      && (Blank(subscriber.stripeCustomerId) ==> customerReply.Created?)
      && (Blank(creator.stripeProductId) ==> productReply.Created?)
      && (Blank(creator.stripePriceId) ==> priceReply.Created?)
      && subscriptionReply.SubscriptionCreated?
    ensures p.response.CheckoutPage? ==>
      && p.response == CheckoutPage(subscriptionReply.id, subscriptionReply.clientSecret)
      && |p.calls| > 0 && p.calls[|p.calls| - 1] ==
         SubscriptionCreate(p.subscriber.stripeCustomerId, p.creator.stripePriceId, creator.id, subscriber.id)
    ensures !p.response.NotFound?
    // with every id in place, the only request is the subscription itself
    ensures !Blank(subscriber.stripeCustomerId) && !Blank(creator.stripeProductId) && !Blank(creator.stripePriceId) ==>
      p.calls == [SubscriptionCreate(subscriber.stripeCustomerId, creator.stripePriceId, creator.id, subscriber.id)]
  {
    var customerCall := CustomerCreate(subscriber.email, subscriber.id, subscriber.username);
    var productCall := ProductCreate("Subscription to " + creator.username, creator.id, creator.username);
    match EnsureId(subscriber.stripeCustomerId, customerReply)
    case Err(m) => Provisioning(subscriber, creator, [customerCall], Refused(m))
    case Ok(customer) =>
      var sub1 := subscriber.(stripeCustomerId := customer);
      var c1 := if Blank(subscriber.stripeCustomerId) then [customerCall] else [];
      match EnsureId(creator.stripeProductId, productReply)
      case Err(m) => Provisioning(sub1, creator, c1 + [productCall], Refused(m))
      case Ok(product) =>
        var cr1 := creator.(stripeProductId := product);
        var c2 := c1 + (if Blank(creator.stripeProductId) then [productCall] else []);
        var priceCall := PriceCreate(product, ToCents(creator.subscriptionPrice), Currency, Interval);
        match EnsureId(creator.stripePriceId, priceReply)
        case Err(m) => Provisioning(sub1, cr1, c2 + [priceCall], Refused(m))
        case Ok(price) =>
          var cr2 := cr1.(stripePriceId := price);
          var c3 := c2 + (if Blank(creator.stripePriceId) then [priceCall] else []);
          var c4 := c3 + [SubscriptionCreate(customer, price, creator.id, subscriber.id)];
          match subscriptionReply
          case SubscriptionFailed(m) => Provisioning(sub1, cr2, c4, Refused(m))
          case SubscriptionCreated(id, secret) => Provisioning(sub1, cr2, c4, CheckoutPage(id, secret))
  }

  /** subscribe(creator_username): the guards first, with no Stripe call
      and no write; then the try block, whose rows are saved. */
  method Subscribe(db: Database, me: nat, creatorUsername: string, customerReply: Reply, productReply: Reply,
                   priceReply: Reply, subscriptionReply: SubscriptionReply)
      returns (r: SubscribeResponse, calls: seq<Call>)
    requires db.Valid() && IsUser(db.users, me)
    modifies db`users
    ensures db.Valid()
    ensures var g := SubscribeGuard(old(db.users), db.subscriptions, me, creatorUsername);
      !g.Proceed? ==> r == GuardRefusal(g) && calls == [] && db.users == old(db.users)
    ensures var g := SubscribeGuard(old(db.users), db.subscriptions, me, creatorUsername);
      g.Proceed? ==>
        var s := ById(old(db.users), me);
        && s.Found?
        && var p := ProvisionAndSubscribe(old(db.users)[s.index], old(db.users)[g.creator], customerReply,
                                          productReply, priceReply, subscriptionReply);
           && r == p.response && calls == p.calls
           && db.users == old(db.users)[s.index := p.subscriber][g.creator := p.creator]
  {
    var g := SubscribeGuard(db.users, db.subscriptions, me, creatorUsername);
    if !g.Proceed? {
      r, calls := GuardRefusal(g), [];
      return;
    }
    var s := ById(db.users, me);
    var p := ProvisionAndSubscribe(db.users[s.index], db.users[g.creator], customerReply, productReply,
                                   priceReply, subscriptionReply);
    db.SaveUser(s.index, p.subscriber);
    db.SaveUser(g.creator, p.creator);
    r, calls := p.response, p.calls;
  }

  /** What cancel_subscription answers. */
  datatype CancelResponse = RedirectToConfirmation | CreatorMissing | NoActiveSubscription | CancelFailed(message: string)

  /** cancel_subscription(creator_username): the active row is switched off
      only after Stripe deleted the subscription; the row itself stays. */
  method CancelSubscription(db: Database, me: nat, creatorUsername: string, deleteOutcome: Outcome)
      returns (r: CancelResponse, calls: seq<Call>)
    requires db.Valid()
    modifies db`subscriptions
    ensures db.Valid()
    ensures var c := CreatorByUsername(db.users, creatorUsername);
      && (c.DoesNotExist? ==> r == CreatorMissing && calls == [] && db.subscriptions == old(db.subscriptions))
      && (c.Found? && !HasActive(old(db.subscriptions), me, db.users[c.index].id) ==>
            r == NoActiveSubscription && calls == [] && db.subscriptions == old(db.subscriptions))
    ensures var c := CreatorByUsername(db.users, creatorUsername);
      c.Found? && HasActive(old(db.subscriptions), me, db.users[c.index].id) ==>
        var k := ActiveLookup(old(db.subscriptions), me, db.users[c.index].id).index;
        && calls == [SubscriptionDelete(old(db.subscriptions)[k].stripeSubscriptionId)]
        && (deleteOutcome.Error? ==>
              r == CancelFailed(deleteOutcome.message) && db.subscriptions == old(db.subscriptions))
        && (deleteOutcome.Done? ==>
              r == RedirectToConfirmation && db.subscriptions == Deactivate(old(db.subscriptions), k))
  {
    var c := CreatorByUsername(db.users, creatorUsername);
    if c.DoesNotExist? {
      r, calls := CreatorMissing, [];
      return;
    }
    var l := ActiveLookup(db.subscriptions, me, db.users[c.index].id);
    if l.DoesNotExist? {
      r, calls := NoActiveSubscription, [];
      return;
    }
    calls := [SubscriptionDelete(db.subscriptions[l.index].stripeSubscriptionId)];
    if deleteOutcome.Error? {
      r := CancelFailed(deleteOutcome.message);
      return;
    }
    db.DeactivateSubscription(l.index);
    r := RedirectToConfirmation;
  }

  /** What subscription_confirmation renders: a 404, or the page with the
      pair's active subscription when there is one. */
  datatype Confirmation = ConfirmationNotFound | ConfirmationPage(creator: nat, subscription: Option<Subscription>)

  /** subscription_confirmation(creator_username): `.first()` of the active
      subscriptions of the pair, of which the unique pair allows one. */
  function SubscriptionConfirmation(users: seq<User>, subs: seq<Subscription>, me: nat, creatorUsername: string)
    : (r: Confirmation)
    requires UsersValid(users)
    ensures r.ConfirmationNotFound? <==> forall i :: 0 <= i < |users| ==> !IsCreatorNamed(creatorUsername, users[i])
    ensures r.ConfirmationPage? ==> r.creator < |users| && IsCreatorNamed(creatorUsername, users[r.creator])
    ensures r.ConfirmationPage? ==> (r.subscription.Some? <==> HasActive(subs, me, users[r.creator].id))
    ensures r.ConfirmationPage? && r.subscription.Some? ==>
      r.subscription.value in subs && IsActiveFor(me, users[r.creator].id, r.subscription.value)
  {
    var c := CreatorByUsername(users, creatorUsername);
    if c.DoesNotExist? then ConfirmationNotFound
    else
      match FindFirst(subs, (s: Subscription) => IsActiveFor(me, users[c.index].id, s))
      case None => ConfirmationPage(c.index, None)
      case Some(k) => ConfirmationPage(c.index, Some(subs[k]))
  }

  /** The Subscription.objects.create(...) keywords of the webhook's
      payment_intent.succeeded branch, as written: expires_at and price,
      both NOT NULL without a default, are left out. */
  function WebhookArgsAsWritten(subscriber: User, creator: User, stripeSubscriptionId: string): SubscriptionArgs
  {
    SubscriptionArgs(subscriber.id, creator.id, Some(true), None, None, None, Some(stripeSubscriptionId), {})
  }

  /** As written, the insert fails on every database state, after the
      Stripe Subscription has already been created. */
  lemma WebhookCreateAlwaysFails(subs: seq<Subscription>, subscriber: User, creator: User, sid: string, id: nat, now: int)
    ensures CreateSubscription(subs, WebhookArgsAsWritten(subscriber, creator, sid), id, now)
      == Err(NotNullViolation("expires_at"))
  {
  }

  /** The keywords with the two columns filled as check_subscription does:
      thirty days from now, at the creator's price. */
  function WebhookArgs(subscriber: User, creator: User, stripeSubscriptionId: string, now: int): (a: SubscriptionArgs)
    ensures a.expiresAt == Some(now + ThirtyDays) && a.price == Some(creator.subscriptionPrice)
    ensures a.subscriber == subscriber.id && a.creator == creator.id && a.active == Some(true)
    ensures a.stripeSubscriptionId == Some(stripeSubscriptionId) && a.unknownKeywords == {}
  {
    SubscriptionArgs(subscriber.id, creator.id, Some(true), Some(now + ThirtyDays), Some(creator.subscriptionPrice),
                     None, Some(stripeSubscriptionId), {})
  }

  /** With the columns filled, the insert succeeds exactly when the pair is
      free, and the row is active and renewing. */
  lemma WebhookCreateSucceedsOnFreePair(subs: seq<Subscription>, subscriber: User, creator: User, sid: string, id: nat, now: int)
    ensures var r := CreateSubscription(subs, WebhookArgs(subscriber, creator, sid, now), id, now);
      && (r.Ok? <==> !PairTaken(subs, subscriber.id, creator.id))
      && (r.Ok? ==> (var row := r.value[|subs|];
                     row.active && row.autoRenew && row.price == creator.subscriptionPrice
                     && row.expiresAt == now + ThirtyDays))
  {
    var r := CreateSubscription(subs, WebhookArgs(subscriber, creator, sid, now), id, now);
    if r.Ok? {
      assert r.value[|subs|] == SubscriptionRow(WebhookArgs(subscriber, creator, sid, now), id, now);
    }
  }

  /** stripe_webhook: a bad payload or signature is a 400; a succeeded
      payment intent creates the Stripe Subscription and then the local row;
      a deleted subscription switches off the matching row, if any; every
      other event is acknowledged. The local row is built from the corrected
      WebhookArgs: with the keywords as written the insert always fails
      (WebhookCreateAlwaysFails) and the branch always answers 500. */
  method StripeWebhook(db: Database, event: EventReply, createReply: SubscriptionReply, now: int)
      returns (code: nat, calls: seq<Call>)
    requires db.Valid()
    modifies db`subscriptions, db`nextId
    ensures db.Valid()
    ensures !event.EventParsed? ==>
      code == 400 && calls == [] && db.subscriptions == old(db.subscriptions) && db.nextId == old(db.nextId)
    ensures event.EventParsed? && event.event.OtherEvent? ==>
      code == 200 && calls == [] && db.subscriptions == old(db.subscriptions) && db.nextId == old(db.nextId)
    ensures event.EventParsed? && event.event.CustomerSubscriptionDeleted? ==>
      var l := ByStripeId(old(db.subscriptions), event.event.deletedId);
      && calls == [] && db.nextId == old(db.nextId)
      && (l.DoesNotExist? ==> code == 200 && db.subscriptions == old(db.subscriptions))
      && (l.Found? ==> code == 200 && db.subscriptions == Deactivate(old(db.subscriptions), l.index))
      && (l.MultipleObjectsReturned? ==> code == 500 && db.subscriptions == old(db.subscriptions))
    ensures event.EventParsed? && event.event.PaymentIntentSucceeded? ==>
      var e := event.event;
      && (e.creatorId.None? || e.subscriberId.None? ==>
            code == 500 && calls == [] && db.subscriptions == old(db.subscriptions) && db.nextId == old(db.nextId))
      && (e.creatorId.Some? && e.subscriberId.Some? ==>
            var s, c := LookupById(db.users, e.subscriberId.value), LookupById(db.users, e.creatorId.value);
            && (s.None? || c.None? ==>
                  code == 500 && calls == [] && db.subscriptions == old(db.subscriptions) && db.nextId == old(db.nextId))
            && (s.Some? && c.Some? ==>
                  var subscriber, creator := db.users[s.value], db.users[c.value];
                  && calls == [SubscriptionCreate(subscriber.stripeCustomerId, creator.stripePriceId, creator.id, subscriber.id)]
                  && (createReply.SubscriptionFailed? ==>
                        code == 500 && db.subscriptions == old(db.subscriptions) && db.nextId == old(db.nextId))
                  && (createReply.SubscriptionCreated? ==>
                        var created := CreateSubscription(old(db.subscriptions),
                                         WebhookArgs(subscriber, creator, createReply.id, now), old(db.nextId), now);
                        && (created.Ok? ==> code == 200 && db.subscriptions == created.value && db.nextId == old(db.nextId) + 1)
                        && (created.Err? ==>
                              code == 500 && db.subscriptions == old(db.subscriptions) && db.nextId == old(db.nextId)))))
  {
    calls := [];
    if !event.EventParsed? {
      code := 400;
      return;
    }
    match event.event
    case OtherEvent(_) =>
      code := 200;
    case CustomerSubscriptionDeleted(sid) =>
      var l := ByStripeId(db.subscriptions, sid);
      if l.Found? {
        db.DeactivateSubscription(l.index);
        code := 200;
      } else if l.DoesNotExist? {
        code := 200;
      } else {
        // MultipleObjectsReturned is not among the exceptions caught
        code := 500;
      }
    case PaymentIntentSucceeded(_, creatorId, subscriberId) =>
      if creatorId.None? || subscriberId.None? {
        // the metadata keys are read outside the try block
        code := 500;
        return;
      }
      var s, c := LookupById(db.users, subscriberId.value), LookupById(db.users, creatorId.value);
      if s.None? || c.None? {
        code := 500;
        return;
      }
      var subscriber, creator := db.users[s.value], db.users[c.value];
      calls := [SubscriptionCreate(subscriber.stripeCustomerId, creator.stripePriceId, creator.id, subscriber.id)];
      if createReply.SubscriptionFailed? {
        code := 500;
        return;
      }
      var args := WebhookArgs(subscriber, creator, createReply.id, now);
      assert IsUser(db.users, subscriber.id) && IsUser(db.users, creator.id);
      var ok := db.InsertSubscription(args, now);
      code := if ok then 200 else 500;
  }
}
