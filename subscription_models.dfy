/** The subscriptions app's two tables, Subscription and PaymentHistory:
    their columns, defaults, NOT NULL and unique_together constraints, choice
    lists, string renderings and default ordering. */
module SubscriptionModels {
  import opened Base
  import opened Money
  import opened Query
  import opened Ordering

  datatype Subscription = Subscription(
    id: nat,
    subscriber: nat,
    creator: nat,
    active: bool,
    createdAt: int,
    expiresAt: int,
    price: Decimal,
    autoRenew: bool,
    stripeSubscriptionId: Option<string>)

  function PairOf(s: Subscription): (nat, nat) { (s.subscriber, s.creator) }

  function SubscriptionIdOf(s: Subscription): nat { s.id }

  /** unique_together = ('subscriber', 'creator'), unique primary keys, all
      below the next key to hand out. */
  predicate SubscriptionsValid(subs: seq<Subscription>, nextId: nat)
  {
    && KeyUnique(subs, PairOf)
    && KeyUnique(subs, SubscriptionIdOf)
    && forall i :: 0 <= i < |subs| ==> subs[i].id < nextId
  }

  /** A row for this (subscriber, creator) pair exists, active or not. */
  predicate PairTaken(subs: seq<Subscription>, subscriber: nat, creator: nat)
  {
    exists i :: 0 <= i < |subs| && PairOf(subs[i]) == (subscriber, creator)
  }

  /** The keyword arguments of a Subscription.objects.create(...) call:
      for each column, the value passed or None when it is left out, and the
      names of keywords that are not columns of Subscription at all. */
  datatype SubscriptionArgs = SubscriptionArgs(
    subscriber: nat,
    creator: nat,
    active: Option<bool>,
    expiresAt: Option<int>,
    price: Option<Decimal>,
    autoRenew: Option<bool>,
    stripeSubscriptionId: Option<string>,
    unknownKeywords: set<string>)

  /** Why an objects.create(...) raises: the model constructor's TypeError
      for an unknown keyword, or an IntegrityError from the database. */
  datatype CreateError = UnexpectedKeyword(names: set<string>) | NotNullViolation(column: string) | UniqueViolation

  function GetOr<T>(o: Option<T>, default: T): T
  {
    if o.Some? then o.value else default
  }

  /** The row written for `args`: `active` and `auto_renew` default to True,
      created_at is the time of the insert (auto_now_add). */
  function SubscriptionRow(args: SubscriptionArgs, id: nat, now: int): (s: Subscription)
    requires args.expiresAt.Some? && args.price.Some?
    ensures args.active.None? ==> s.active
    ensures args.autoRenew.None? ==> s.autoRenew
    ensures s.subscriber == args.subscriber && s.creator == args.creator && s.createdAt == now
  {
    Subscription(id, args.subscriber, args.creator, GetOr(args.active, true), now,
                 args.expiresAt.value, args.price.value, GetOr(args.autoRenew, true),
                 args.stripeSubscriptionId)
  }

  /** Subscription.objects.create(**args): an unknown keyword fails first,
      then the NOT NULL columns without a default (expires_at, price), then
      the unique (subscriber, creator) pair. */
  function CreateSubscription(subs: seq<Subscription>, args: SubscriptionArgs, id: nat, now: int)
    : (r: Result<seq<Subscription>, CreateError>)
    ensures args.unknownKeywords != {} ==> r == Err(UnexpectedKeyword(args.unknownKeywords))
    ensures args.unknownKeywords == {} && (args.expiresAt.None? || args.price.None?) ==> r.Err? && r.error.NotNullViolation?
    ensures r.Ok? <==>
      && args.unknownKeywords == {} && args.expiresAt.Some? && args.price.Some?
      && !PairTaken(subs, args.subscriber, args.creator)
    ensures r.Ok? ==> r.value == subs + [SubscriptionRow(args, id, now)]
  {
    if args.unknownKeywords != {} then Err(UnexpectedKeyword(args.unknownKeywords))
    else if args.expiresAt.None? then Err(NotNullViolation("expires_at"))
    else if args.price.None? then Err(NotNullViolation("price"))
    else
      var row := SubscriptionRow(args, id, now);
      match InsertUnique(subs, row, PairOf)
      case None => Err(UniqueViolation)
      case Some(t) => Ok(t)
  }

  /** A successful create keeps the table valid once the key counter moves
      past the new key. */
  lemma CreateKeepsValid(subs: seq<Subscription>, args: SubscriptionArgs, nextId: nat, now: int)
    requires SubscriptionsValid(subs, nextId)
    requires CreateSubscription(subs, args, nextId, now).Ok?
    ensures SubscriptionsValid(CreateSubscription(subs, args, nextId, now).value, nextId + 1)
  {
    var t := CreateSubscription(subs, args, nextId, now).value;
    assert t == subs + [SubscriptionRow(args, nextId, now)];
    forall i, j | 0 <= i < j < |t| ensures t[i].id != t[j].id {
      if j == |subs| {
        assert t[i].id < nextId == t[j].id;
      }
    }
  }

  /** Writing back a row with the same key and pair keeps the table valid. */
  lemma SaveKeepsValid(subs: seq<Subscription>, nextId: nat, i: nat, s: Subscription)
    requires SubscriptionsValid(subs, nextId) && i < |subs|
    requires s.id == subs[i].id && PairOf(s) == PairOf(subs[i])
    ensures SubscriptionsValid(subs[i := s], nextId)
  {
    UpdateKeepsKeyUnique(subs, i, s, PairOf);
    UpdateKeepsKeyUnique(subs, i, s, SubscriptionIdOf);
  }

  /** Subscription.__str__ */
  function SubscriptionStr(subscriberName: string, creatorName: string): (r: string)
    ensures |r| == |subscriberName| + |" subscribed to "| + |creatorName|
    ensures r[..|subscriberName|] == subscriberName
    ensures r[|subscriberName|..|subscriberName| + 15] == " subscribed to "
    ensures r[|r| - |creatorName|..] == creatorName
  {
    subscriberName + " subscribed to " + creatorName
  }

  /** PaymentHistory.PAYMENT_TYPES */
  datatype PaymentType = SubscriptionPayment | Tip | PostPurchase

  function PaymentTypeCode(t: PaymentType): string
  {
    match t
    case SubscriptionPayment => "subscription"
    case Tip => "tip"
    case PostPurchase => "post"
  }

  /** The choice a stored code stands for; None outside the choice list. */
  function ParsePaymentType(s: string): (r: Option<PaymentType>)
    ensures r.Some? ==> PaymentTypeCode(r.value) == s
  {
    if s == "subscription" then Some(SubscriptionPayment)
    else if s == "tip" then Some(Tip)
    else if s == "post" then Some(PostPurchase)
    else None
  }

  lemma PaymentTypeCodeRoundTrip(t: PaymentType)
    ensures ParsePaymentType(PaymentTypeCode(t)) == Some(t)
  {
  }

  /** PaymentHistory.STATUS_CHOICES */
  datatype PaymentStatus = Pending | Succeeded | PaymentFailed | Refunded

  function PaymentStatusCode(s: PaymentStatus): string
  {
    match s
    case Pending => "pending"
    case Succeeded => "succeeded"
    case PaymentFailed => "failed"
    case Refunded => "refunded"
  }

  function ParsePaymentStatus(s: string): (r: Option<PaymentStatus>)
    ensures r.Some? ==> PaymentStatusCode(r.value) == s
  {
    if s == "pending" then Some(Pending)
    else if s == "succeeded" then Some(Succeeded)
    else if s == "failed" then Some(PaymentFailed)
    else if s == "refunded" then Some(Refunded)
    else None
  }

  lemma PaymentStatusCodeRoundTrip(s: PaymentStatus)
    ensures ParsePaymentStatus(PaymentStatusCode(s)) == Some(s)
  {
  }

  datatype PaymentHistory = PaymentHistory(
    id: nat,
    user: nat,
    recipient: nat,
    paymentType: PaymentType,
    amount: Decimal,
    status: PaymentStatus,
    createdAt: int,
    updatedAt: int,
    stripePaymentId: Option<string>,
    subscription: Option<nat>,
    post: Option<nat>)

  /** PaymentHistory.objects.create(...): `status` defaults to pending, both
      timestamps are the time of the insert. */
  function PaymentRow(id: nat, user: nat, recipient: nat, paymentType: PaymentType, amount: Decimal,
                      status: Option<PaymentStatus>, stripePaymentId: Option<string>,
                      subscription: Option<nat>, post: Option<nat>, now: int): (p: PaymentHistory)
    ensures status.None? ==> p.status == Pending
    ensures status.Some? ==> p.status == status.value
    ensures p.createdAt == p.updatedAt == now
  {
    PaymentHistory(id, user, recipient, paymentType, amount, GetOr(status, Pending), now, now,
                   stripePaymentId, subscription, post)
  }

  function PaymentIdOf(p: PaymentHistory): nat { p.id }

  predicate PaymentsValid(ps: seq<PaymentHistory>, nextId: nat)
  {
    KeyUnique(ps, PaymentIdOf) && forall i :: 0 <= i < |ps| ==> ps[i].id < nextId
  }

  function PaymentCreatedAt(p: PaymentHistory): int { p.createdAt }

  /** Meta.ordering = ['-created_at'] */
  function PaymentHistoryListing(ps: seq<PaymentHistory>): (r: seq<PaymentHistory>)
    ensures SortedDesc(r, PaymentCreatedAt)
    ensures multiset(r) == multiset(ps)
  {
    SortDesc(ps, PaymentCreatedAt)
  }

  /** PaymentHistory.__str__: "<type> payment of $<amount> from <user> to
      <recipient>". */
  function PaymentHistoryStr(p: PaymentHistory, userName: string, recipientName: string): (r: string)
    ensures var code, amount := PaymentTypeCode(p.paymentType), " payment of $" + DecimalString(p.amount) + " from ";
      && |r| == |code| + |amount| + |userName| + |" to "| + |recipientName|
      && r[..|code|] == code
      && r[|code|..|code| + |amount|] == amount
      && r[|code| + |amount|..|code| + |amount| + |userName|] == userName
      && r[|code| + |amount| + |userName|..|code| + |amount| + |userName| + 4] == " to "
      && r[|r| - |recipientName|..] == recipientName
  {
    var code, amount := PaymentTypeCode(p.paymentType), " payment of $" + DecimalString(p.amount) + " from ";
    var r := code + amount + userName + " to " + recipientName;
    assert r == (code + amount) + (userName + (" to " + recipientName));
    r
  }
}
