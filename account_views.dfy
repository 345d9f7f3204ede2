/** The account views: the user's own profile, the creator dashboard, a
    creator's public profile and become_creator. */
module AccountViews {
  import opened Base
  import opened Money
  import opened Query
  import opened Ordering
  import opened Stripe
  import opened Users
  import opened SubscriptionModels
  import opened SubscriptionRules
  import opened ContentModels
  import opened ContentViews
  import opened AccountForms
  import opened Db

  /** Post.objects.filter(creator=c).order_by('-created_at') */
  function PostsBy(posts: seq<Post>, creator: nat): (r: seq<Post>)
    ensures SortedDesc(r, PostCreatedAt)
    ensures forall p :: p in r <==> p in posts && p.creator == creator
  {
    NewestFirst(Filter(posts, (p: Post) => p.creator == creator))
  }

  /** The same, with is_paid=False. */
  function FreePostsBy(posts: seq<Post>, creator: nat): (r: seq<Post>)
    ensures SortedDesc(r, PostCreatedAt)
    ensures forall p :: p in r <==> p in posts && p.creator == creator && !p.isPaid
  {
    NewestFirst(Filter(posts, (p: Post) => p.creator == creator && !p.isPaid))
  }

  datatype ProfilePage = ProfilePage(posts: seq<Post>, subscriptions: seq<Subscription>)

  /** profile: the user's own posts, newest first, and their active
      subscriptions. */
  function Profile(subs: seq<Subscription>, posts: seq<Post>, me: nat): (r: ProfilePage)
    ensures SortedDesc(r.posts, PostCreatedAt)
    ensures forall p :: p in r.posts <==> p in posts && p.creator == me
    ensures forall s :: s in r.subscriptions <==> s in subs && s.subscriber == me && s.active
  {
    ProfilePage(PostsBy(posts, me), Filter(subs, (s: Subscription) => s.subscriber == me && s.active))
  }

  datatype DashboardPage = DashboardRefused | Dashboard(postsCount: nat, subscribersCount: nat)

  /** The active subscriptions to `creator`. */
  function ActiveSubscriptionsTo(subs: seq<Subscription>, creator: nat): (r: seq<Subscription>)
    ensures forall s :: s in r <==> s in subs && s.creator == creator && s.active
    ensures forall i :: 0 <= i < |r| ==> r[i].creator == creator && r[i].active
  {
    Filter(subs, (s: Subscription) => s.creator == creator && s.active)
  }

  /** The people holding an active subscription to `creator`. */
  function SubscribersOf(subs: seq<Subscription>, creator: nat): (r: set<nat>)
    ensures forall s :: s in r <==> HasActive(subs, s, creator)
  {
    var r := set i | 0 <= i < |subs| && subs[i].creator == creator && subs[i].active :: subs[i].subscriber;
    assert forall s :: HasActive(subs, s, creator) ==> s in r by {
      forall s | HasActive(subs, s, creator) ensures s in r {
        var i :| 0 <= i < |subs| && IsActiveFor(s, creator, subs[i]);
        assert subs[i].subscriber in r;
      }
    }
    r
  }

  /** creator_dashboard: a non-creator is sent away; a creator sees how
      many posts they have and how many active subscriptions they hold. */
  function CreatorDashboard(users: seq<User>, subs: seq<Subscription>, posts: seq<Post>, me: nat): (r: DashboardPage)
    requires UsersValid(users) && IsUser(users, me)
    ensures r.DashboardRefused? <==> !IsCreatorUser(users, me)
    ensures r.Dashboard? ==> r.postsCount == Count(posts, (p: Post) => p.creator == me)
    ensures r.Dashboard? ==> r.subscribersCount == |ActiveSubscriptionsTo(subs, me)|
  {
    var i := IndexOf(users, me);
    if !users[i].isCreator then DashboardRefused
    else
      Dashboard(Count(posts, (p: Post) => p.creator == me), |ActiveSubscriptionsTo(subs, me)|)
  }

  /** Under the unique (subscriber, creator) pair each subscriber holds at
      most one subscription to a creator, so counting active subscriptions
      counts subscribers. */
  lemma {:induction false} OneRowPerSubscriber(subs: seq<Subscription>, creator: nat)
    requires KeyUnique(subs, PairOf)
    ensures |ActiveSubscriptionsTo(subs, creator)| == |SubscribersOf(subs, creator)|
    decreases |subs|
  {
    if subs != [] {
      var rest := subs[1..];
      KeyUniqueTail(subs);
      OneRowPerSubscriber(rest, creator);
      SubscribersCons(subs, creator);
      var s := subs[0];
      if s.creator == creator && s.active {
        HeadNotInRest(subs, creator);
      }
    }
  }

  lemma KeyUniqueTail(subs: seq<Subscription>)
    requires subs != [] && KeyUnique(subs, PairOf)
    ensures KeyUnique(subs[1..], PairOf)
  {
    var rest := subs[1..];
    forall a, b | 0 <= a < b < |rest| ensures PairOf(rest[a]) != PairOf(rest[b]) {
      assert rest[a] == subs[a + 1] && rest[b] == subs[b + 1];
    }
  }

  /** The first row of the table contributes at most its own subscriber. */
  lemma SubscribersCons(subs: seq<Subscription>, creator: nat)
    requires subs != []
    ensures SubscribersOf(subs, creator) ==
      (if subs[0].creator == creator && subs[0].active then {subs[0].subscriber} else {}) + SubscribersOf(subs[1..], creator)
  {
    var rest := subs[1..];
    var head := if subs[0].creator == creator && subs[0].active then {subs[0].subscriber} else {};
    forall x ensures x in SubscribersOf(subs, creator) <==> x in head || x in SubscribersOf(rest, creator) {
      if x in SubscribersOf(subs, creator) && x !in head {
        var i :| 0 <= i < |subs| && IsActiveFor(x, creator, subs[i]);
        assert i > 0 && rest[i - 1] == subs[i];
      }
      if x in SubscribersOf(rest, creator) {
        var j :| 0 <= j < |rest| && IsActiveFor(x, creator, rest[j]);
        assert subs[j + 1] == rest[j];
      }
    }
  }

  /** An active first row's subscriber has no other row for the creator. */
  lemma HeadNotInRest(subs: seq<Subscription>, creator: nat)
    requires subs != [] && KeyUnique(subs, PairOf) && subs[0].creator == creator
    ensures subs[0].subscriber !in SubscribersOf(subs[1..], creator)
  {
  }

  datatype CreatorPage = CreatorMissing | CreatorShown(creator: User, posts: seq<Post>, isSubscribed: bool)

  /** creator_profile: get_object_or_404(User, username=, is_creator=True).
      is_subscribed needs a signed-in viewer with an active subscription;
      the creator and subscribers see every post, anyone else only the free
      ones, newest first either way. */
  function CreatorProfile(users: seq<User>, subs: seq<Subscription>, posts: seq<Post>, viewer: Viewer, username: string): (r: CreatorPage)
    requires UsersValid(users)
    ensures r.CreatorMissing? <==> forall i :: 0 <= i < |users| ==> !IsCreatorNamed(username, users[i])
    ensures r.CreatorShown? ==> r.creator in users && IsCreatorNamed(username, r.creator)
    ensures r.CreatorShown? ==>
      (r.isSubscribed <==> viewer.Authenticated? && HasActive(subs, viewer.id, r.creator.id))
    ensures r.CreatorShown? ==> SortedDesc(r.posts, PostCreatedAt)
    ensures r.CreatorShown? && (r.isSubscribed || viewer == Authenticated(r.creator.id)) ==>
      forall p :: p in r.posts <==> p in posts && p.creator == r.creator.id
    ensures r.CreatorShown? && !(r.isSubscribed || viewer == Authenticated(r.creator.id)) ==>
      forall p :: p in r.posts <==> p in posts && p.creator == r.creator.id && !p.isPaid
  {
    var l := CreatorByUsername(users, username);
    if !l.Found? then CreatorMissing
    else
      var creator := users[l.index];
      var isSubscribed := viewer.Authenticated? && HasActive(subs, viewer.id, creator.id);
      var shown := if isSubscribed || viewer == Authenticated(creator.id) then PostsBy(posts, creator.id)
                   else FreePostsBy(posts, creator.id);
      CreatorShown(creator, shown, isSubscribed)
  }

  datatype BecomeCreatorRequest = ShowCreatorForm | SubmitCreator(form: CreatorProfileInput)

  datatype BecomeCreatorResponse =
    | AlreadyCreator
    | CreatorFormPage
    | StripeErrorPage(message: string)
    | NowCreator

  /** The user row form.save(commit=False) builds and user.save() writes
      once the Stripe account exists. The cleaned verification document is
      not part of it: User has no such field, so the form cannot write it. */
  function CreatorRow(u: User, f: CreatorProfileInput, accountId: string): (r: User)
    requires f.price.Some?
    ensures r.isCreator && r.stripeAccountId == Some(accountId)
    ensures r.bio == f.bio && r.subscriptionPrice == f.price.value
    ensures r.id == u.id && r.username == u.username && r.email == u.email
    ensures r.stripeCustomerId == u.stripeCustomerId && r.stripeProductId == u.stripeProductId
    ensures r.stripePriceId == u.stripePriceId
  {
    u.(bio := f.bio, subscriptionPrice := f.price.value, isCreator := true, stripeAccountId := Some(accountId))
  }

  /** The verification_document value of the form become_creator builds:
      only request.POST is bound, so the uploaded file never reaches the
      field, and since User has no such field the instance gives no
      initial value either. */
  function BoundDocumentAsWritten(upload: Option<UploadedFile>): Option<UploadedFile>
  {
    None
  }

  /** As written, every submission is refused, whatever is uploaded,
      because the required document is always missing: nobody becomes a
      creator through this view. */
  lemma DocumentIsAlwaysMissing(bio: string, price: Option<Decimal>, upload: Option<UploadedFile>)
    ensures var f := CreatorProfileInput(bio, price, BoundDocumentAsWritten(upload));
      ValidateCreatorProfile(f).Err? && DocumentRequired in ValidateCreatorProfile(f).error
  {
    var f := CreatorProfileInput(bio, price, None);
    assert DocumentErrors(None) == [DocumentRequired];
    var errors := (if bio == "" then [BioRequired] else []) + PriceErrors(price) + DocumentErrors(None);
    assert errors[|errors| - 1] == DocumentRequired;
  }

  /** become_creator: an existing creator changes nothing. A valid form
      makes an express Stripe account in the US for the user's email; once
      it exists the user becomes a creator with that account id, and a
      Stripe error leaves the user as they were. */
  method BecomeCreator(db: Database, me: nat, request: BecomeCreatorRequest, account: Reply)
    returns (r: BecomeCreatorResponse, calls: seq<Call>)
    requires db.Valid() && IsUser(db.users, me)
    modifies db`users
    ensures db.Valid()
    ensures var i := IndexOf(old(db.users), me);
      && (old(db.users[i]).isCreator ==> r == AlreadyCreator && calls == [])
      && (!old(db.users[i]).isCreator && (request.ShowCreatorForm? || ValidateCreatorProfile(request.form).Err?) ==>
            r == CreatorFormPage && calls == [])
      && (!old(db.users[i]).isCreator && request.SubmitCreator? && ValidateCreatorProfile(request.form).Ok? ==>
            && calls == [AccountCreate(old(db.users[i]).email, "express", "US")]
            && (account.Created? ==> (r == NowCreator &&
                  db.users == old(db.users)[i := CreatorRow(old(db.users[i]), request.form, account.id)]))
            && (account.Failed? ==> r == StripeErrorPage(account.message)))
    ensures r != NowCreator ==> db.users == old(db.users)
  {
    var i := IndexOf(db.users, me);
    var u := db.users[i];
    if u.isCreator {
      return AlreadyCreator, [];
    }
    if request.ShowCreatorForm? || ValidateCreatorProfile(request.form).Err? {
      return CreatorFormPage, [];
    }
    calls := [AccountCreate(u.email, "express", "US")];
    match account
    case Failed(message) =>
      r := StripeErrorPage(message);
    case Created(id) =>
      db.SaveUser(i, CreatorRow(u, request.form, id));
      r := NowCreator;
  }
}
