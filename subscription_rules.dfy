/** Rules about subscriptions that both versions of the subscription views
    share: what an active subscription is, the two guards in front of
    subscribing, the lookup of the one active subscription of a pair, and
    what cancelling does to a row. */
module SubscriptionRules {
  import opened Base
  import opened Money
  import opened Query
  import opened Users
  import opened SubscriptionModels

  /** timedelta(days=30), with time counted in seconds. */
  const ThirtyDays: int := 30 * 24 * 60 * 60

  predicate IsActiveFor(subscriber: nat, creator: nat, s: Subscription)
  {
    s.subscriber == subscriber && s.creator == creator && s.active
  }

  /** Subscription.objects.filter(subscriber=, creator=, active=True).exists() */
  predicate HasActive(subs: seq<Subscription>, subscriber: nat, creator: nat)
  {
    exists i :: 0 <= i < |subs| && IsActiveFor(subscriber, creator, subs[i])
  }

  /** Subscription.objects.get(subscriber=, creator=, active=True): under
      the unique pair there is never a second match. */
  function ActiveLookup(subs: seq<Subscription>, subscriber: nat, creator: nat): (r: Lookup)
    requires KeyUnique(subs, PairOf)
    ensures !r.MultipleObjectsReturned?
    ensures r.DoesNotExist? <==> !HasActive(subs, subscriber, creator)
    ensures r.Found? ==> r.index < |subs| && IsActiveFor(subscriber, creator, subs[r.index])
  {
    var r := Get(subs, (s: Subscription) => IsActiveFor(subscriber, creator, s));
    if r.MultipleObjectsReturned? then
      assert false;
      r
    else r
  }

  /** What stops a subscribe request before any payment is set up. */
  datatype Guard = CreatorNotFound | SelfSubscription | AlreadySubscribed | Proceed(creator: nat)

  /** get_object_or_404(User, username=, is_creator=True), then the
      self-subscription check, then the active-subscription check. */
  function SubscribeGuard(users: seq<User>, subs: seq<Subscription>, me: nat, creatorUsername: string): (g: Guard)
    requires UsersValid(users)
    ensures g.CreatorNotFound? <==> forall i :: 0 <= i < |users| ==> !IsCreatorNamed(creatorUsername, users[i])
    ensures g.SelfSubscription? <==>
      exists i :: 0 <= i < |users| && IsCreatorNamed(creatorUsername, users[i]) && users[i].id == me
    ensures g.AlreadySubscribed? <==>
      exists i :: 0 <= i < |users| && IsCreatorNamed(creatorUsername, users[i]) && users[i].id != me
        && HasActive(subs, me, users[i].id)
    ensures g.Proceed? ==>
      && g.creator < |users| && IsCreatorNamed(creatorUsername, users[g.creator])
      && users[g.creator].id != me && !HasActive(subs, me, users[g.creator].id)
  {
    var c := CreatorByUsername(users, creatorUsername);
    if c.DoesNotExist? then CreatorNotFound
    else
      if users[c.index].id == me then SelfSubscription
      else if HasActive(subs, me, users[c.index].id) then AlreadySubscribed
      else Proceed(c.index)
  }

  /** Package cancel: `subscription.active = False; subscription.save()`. */
  function Deactivate(subs: seq<Subscription>, k: nat): (r: seq<Subscription>)
    requires k < |subs|
    ensures |r| == |subs| && !r[k].active
    ensures r[k] == subs[k].(active := false)
    ensures forall j :: 0 <= j < |r| && j != k ==> r[j] == subs[j]
    ensures KeyUnique(subs, PairOf) ==> !HasActive(r, subs[k].subscriber, subs[k].creator)
  {
    subs[k := subs[k].(active := false)]
  }

  /** The payment-intent cancel also stops renewal. */
  function Stop(subs: seq<Subscription>, k: nat): (r: seq<Subscription>)
    requires k < |subs|
    ensures |r| == |subs| && !r[k].active && !r[k].autoRenew
    ensures r[k] == subs[k].(active := false, autoRenew := false)
    ensures forall j :: 0 <= j < |r| && j != k ==> r[j] == subs[j]
    ensures KeyUnique(subs, PairOf) ==> !HasActive(r, subs[k].subscriber, subs[k].creator)
  {
    subs[k := subs[k].(active := false, autoRenew := false)]
  }

  lemma DeactivateKeepsValid(subs: seq<Subscription>, k: nat, nextId: nat)
    requires SubscriptionsValid(subs, nextId) && k < |subs|
    ensures SubscriptionsValid(Deactivate(subs, k), nextId)
    ensures SubscriptionsValid(Stop(subs, k), nextId)
  {
    SaveKeepsValid(subs, nextId, k, subs[k].(active := false));
    SaveKeepsValid(subs, nextId, k, subs[k].(active := false, autoRenew := false));
  }

  /** A cancelled subscription keeps its row, so creating a new one for the
      same subscriber and creator, however complete its arguments, violates
      the unique pair. */
  lemma ResubscribeAfterCancelConflicts(subs: seq<Subscription>, k: nat, args: SubscriptionArgs, id: nat, now: int)
    requires k < |subs|
    requires args.subscriber == subs[k].subscriber && args.creator == subs[k].creator
    requires args.unknownKeywords == {} && args.expiresAt.Some? && args.price.Some?
    ensures CreateSubscription(Deactivate(subs, k), args, id, now) == Err(UniqueViolation)
    ensures CreateSubscription(Stop(subs, k), args, id, now) == Err(UniqueViolation)
  {
    assert PairOf(Deactivate(subs, k)[k]) == (args.subscriber, args.creator);
    assert PairOf(Stop(subs, k)[k]) == (args.subscriber, args.creator);
  }

  /** The three ways check_subscription treats a Stripe status. */
  datatype StatusDecision = CreateActive | Processing | Inactive(status: string)

  function DecideStatus(status: string): (d: StatusDecision)
    ensures d.CreateActive? <==> status == "active" || status == "trialing"
    ensures d.Processing? <==> status == "incomplete"
    ensures d.Inactive? ==> d.status == status
  {
    if status == "active" || status == "trialing" then CreateActive
    else if status == "incomplete" then Processing
    else Inactive(status)
  }
}
