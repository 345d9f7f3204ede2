/** The content views: the home feed, the paid-post access rule of
    post_detail, and create_post, which saves a post and then each media
    form that carries a file. */
module ContentViews {
  import opened Base
  import opened Query
  import opened Ordering
  import opened Users
  import opened SubscriptionModels
  import opened SubscriptionRules
  import opened ContentModels
  import opened ContentForms
  import opened Db

  /** request.user, for the views that are not behind login_required. */
  datatype Viewer = Anonymous | Authenticated(id: nat)

  /** Subscription.objects.filter(subscriber=me, active=True)
      .values_list('creator_id', flat=True) */
  function SubscribedCreators(subs: seq<Subscription>, me: nat): (r: set<nat>)
    ensures forall c :: c in r <==> HasActive(subs, me, c)
  {
    var r := set i | 0 <= i < |subs| && subs[i].subscriber == me && subs[i].active :: subs[i].creator;
    assert forall c :: HasActive(subs, me, c) ==> c in r by {
      forall c | HasActive(subs, me, c) ensures c in r {
        var i :| 0 <= i < |subs| && IsActiveFor(me, c, subs[i]);
        assert subs[i].creator in r;
      }
    }
    r
  }

  /** User.objects.filter(is_creator=True).order_by('?')[:5], in table order
      rather than at random: at most five creators. */
  function Featured(users: seq<User>): (r: seq<User>)
    ensures |r| <= 5
    ensures forall u :: u in r ==> u in users && u.isCreator
    ensures |r| == if Count(users, (u: User) => u.isCreator) < 5 then Count(users, (u: User) => u.isCreator) else 5
  {
    var creators := Filter(users, (u: User) => u.isCreator);
    var r := Take(creators, 5);
    assert forall u :: u in r ==> u in creators;
    r
  }

  /** Post.objects.filter(creator_id__in=creators).order_by('-created_at') */
  function FeedOf(posts: seq<Post>, creators: set<nat>): (r: seq<Post>)
    ensures SortedDesc(r, PostCreatedAt)
    ensures forall p :: p in r <==> p in posts && p.creator in creators
  {
    NewestFirst(Filter(posts, (p: Post) => p.creator in creators))
  }

  datatype HomePage =
    | Feed(posts: seq<Post>)
    | NoSubscriptions(featured: seq<User>)
    | Landing(featured: seq<User>)

  /** home: a signed-in user sees the posts of the creators they actively
      subscribe to, newest first, or featured creators when there are none;
      everyone else gets the landing page. */
  function Home(users: seq<User>, subs: seq<Subscription>, posts: seq<Post>, viewer: Viewer): (r: HomePage)
    ensures viewer.Anonymous? ==> r == Landing(Featured(users))
    ensures viewer.Authenticated? ==> !r.Landing?
    ensures viewer.Authenticated? ==>
      (r.Feed? <==> exists i :: 0 <= i < |posts| && HasActive(subs, viewer.id, posts[i].creator))
    ensures r.Feed? ==> SortedDesc(r.posts, PostCreatedAt)
    ensures r.Feed? ==> forall p :: p in r.posts <==> p in posts && HasActive(subs, viewer.id, p.creator)
    ensures r.NoSubscriptions? ==> r.featured == Featured(users)
  {
    match viewer
    case Anonymous => Landing(Featured(users))
    case Authenticated(me) =>
      var feed := FeedOf(posts, SubscribedCreators(subs, me));
      if feed == [] then
        NoSubscriptions(Featured(users))
      else
        assert feed[0] in posts;
        Feed(feed)
  }

  datatype PostPage = PostNotFound | PostShown(post: Post, canView: bool)

  /** post_detail: get_object_or_404(Post, id=post_id), then can_view. A
      post that is not paid is open to everyone signed in, a paid one to its
      creator and to holders of an active subscription to that creator. */
  function PostDetail(posts: seq<Post>, subs: seq<Subscription>, me: nat, postId: nat): (r: PostPage)
    requires KeyUnique(posts, PostIdOf)
    ensures r.PostNotFound? <==> !IsPost(posts, postId)
    ensures r.PostShown? ==> r.post in posts && r.post.id == postId
    ensures r.PostShown? && !r.post.isPaid ==> r.canView
    ensures r.PostShown? && r.post.isPaid && r.post.creator == me ==> r.canView
    ensures r.PostShown? && r.post.isPaid && r.post.creator != me ==>
      (r.canView <==> HasActive(subs, me, r.post.creator))
  {
    var l := Get(posts, (p: Post) => PostIdOf(p) == postId);
    if l.DoesNotExist? then PostNotFound
    else if l.MultipleObjectsReturned? then
      assert false;
      PostNotFound
    else
      var post := posts[l.index];
      var canView := if !post.isPaid then true
                     else if me == post.creator then true
                     else HasActive(subs, me, post.creator);
      PostShown(post, canView)
  }

  /** The Media rows create_post writes for the attached files, with
      consecutive keys from `firstId`. */
  function MediaRows(attached: seq<(UploadedFile, MediaType)>, postId: nat, firstId: nat, now: int): (r: seq<Media>)
    ensures |r| == |attached|
    ensures forall m :: m in r ==> m.post == postId && m.createdAt == now
    ensures forall k :: 0 <= k < |r| ==> r[k].id == firstId + k && (r[k].file, r[k].mediaType) == attached[k]
  {
    seq(|attached|, k requires 0 <= k < |attached| => Media(firstId + k, attached[k].0, attached[k].1, postId, now))
  }

  /** Every media file create_post writes belongs to the new post and comes
      from a form with that file, and every form with a file is written. */
  lemma CreatedMediaExact(forms: seq<MediaInput>, postId: nat, firstId: nat, now: int)
    requires FormsetValid(forms)
    ensures var rows := MediaRows(AttachedFiles(forms), postId, firstId, now);
      && (forall m :: m in rows ==> (m.post == postId &&
            exists i :: 0 <= i < |forms| && forms[i].file == Some(m.file) && TypeOf(forms[i]) == m.mediaType))
      && (forall i :: 0 <= i < |forms| && forms[i].file.Some? ==>
            exists m :: m in rows && m.file == forms[i].file.value && m.mediaType == TypeOf(forms[i]))
  {
    AttachedFilesExact(forms);
    var a := AttachedFiles(forms);
    var rows := MediaRows(a, postId, firstId, now);
    forall m | m in rows
      ensures exists i :: 0 <= i < |forms| && forms[i].file == Some(m.file) && TypeOf(forms[i]) == m.mediaType
    {
      var k :| 0 <= k < |rows| && rows[k] == m;
      assert a[k] in a;
    }
    forall i | 0 <= i < |forms| && forms[i].file.Some?
      ensures exists m :: m in rows && m.file == forms[i].file.value && m.mediaType == TypeOf(forms[i])
    {
      var x := (forms[i].file.value, TypeOf(forms[i]));
      var k :| 0 <= k < |a| && a[k] == x;
      assert rows[k] in rows;
    }
  }

  datatype CreateRequest = ShowForm | Submit(form: PostInput, media: seq<MediaInput>)

  datatype CreateResponse = NotACreator | FormPage | PostCreated(post: nat)

  predicate IsCreatorUser(users: seq<User>, me: nat)
  {
    exists i :: 0 <= i < |users| && users[i].id == me && users[i].isCreator
  }

  /** create_post: only a creator may post. A valid submission saves the
      post with its creator, then walks the media forms in order and saves,
      attached to the new post, each one that has a file. Anything else
      leaves the database as it was. */
  method CreatePost(db: Database, me: nat, request: CreateRequest, now: int) returns (r: CreateResponse)
    requires db.Valid() && IsUser(db.users, me)
    modifies db`posts, db`media, db`nextId
    ensures db.Valid()
    ensures !IsCreatorUser(db.users, me) ==> r == NotACreator
    ensures r.PostCreated? <==>
      IsCreatorUser(db.users, me) && request.Submit? && ValidatePost(request.form).Ok? && FormsetValid(request.media)
    ensures !r.PostCreated? ==>
      db.posts == old(db.posts) && db.media == old(db.media) && db.nextId == old(db.nextId)
    ensures r.PostCreated? ==>
      var f := request.form;
      var attached := AttachedFiles(request.media);
      && r.post == old(db.nextId)
      && db.posts == old(db.posts) + [PostRow(r.post, me, f.text, f.price, f.isPaid, now)]
      && db.media == old(db.media) + MediaRows(attached, r.post, r.post + 1, now)
      && db.nextId == old(db.nextId) + 1 + |attached|
  {
    if !db.users[IndexOf(db.users, me)].isCreator {
      return NotACreator;
    }
    if !request.Submit? || ValidatePost(request.form).Err? || !FormsetValid(request.media) {
      return FormPage;
    }
    var f := request.form;
    var postId := db.nextId;
    db.InsertPost(PostRow(postId, me, f.text, f.price, f.isPaid, now));
    assert db.posts[|db.posts| - 1].id == postId;
    SaveMediaForms(db, request.media, postId, now);
    r := PostCreated(postId);
  }

  /** One more attached file adds one row, with the next key. */
  lemma MediaRowsStep(attached: seq<(UploadedFile, MediaType)>, x: (UploadedFile, MediaType), postId: nat, firstId: nat, now: int)
    ensures MediaRows(attached + [x], postId, firstId, now)
      == MediaRows(attached, postId, firstId, now) + [Media(firstId + |attached|, x.0, x.1, postId, now)]
  {
  }

  /** One more form of the formset adds its file, if it has one. */
  lemma AttachedFilesStep(forms: seq<MediaInput>, k: nat)
    requires FormsetValid(forms) && k < |forms|
    ensures FormsetValid(forms[..k]) && FormsetValid(forms[..k + 1])
    ensures AttachedFiles(forms[..k + 1]) ==
      AttachedFiles(forms[..k]) + (if forms[k].file.Some? then [(forms[k].file.value, TypeOf(forms[k]))] else [])
  {
    assert forms[..k + 1][..k] == forms[..k];
  }

  /** The media loop of create_post: each form with a file becomes a Media
      row of post `postId`, in form order; the others are skipped. */
  method SaveMediaForms(db: Database, forms: seq<MediaInput>, postId: nat, now: int)
    requires db.Valid() && IsPost(db.posts, postId) && FormsetValid(forms)
    modifies db`media, db`nextId
    ensures db.Valid()
    ensures db.media == old(db.media) + MediaRows(AttachedFiles(forms), postId, old(db.nextId), now)
    ensures db.nextId == old(db.nextId) + |AttachedFiles(forms)|
  {
    var k := 0;
    while k < |forms|
      invariant 0 <= k <= |forms|
      invariant db.Valid() && db.posts == old(db.posts)
      invariant FormsetValid(forms[..k])
      invariant db.media == old(db.media) + MediaRows(AttachedFiles(forms[..k]), postId, old(db.nextId), now)
      invariant db.nextId == old(db.nextId) + |AttachedFiles(forms[..k])|
    {
      AttachedFilesStep(forms, k);
      ghost var before := AttachedFiles(forms[..k]);
      var form := forms[k];
      assert MediaFormValid(form);
      if form.file.Some? {
        var x := (form.file.value, TypeOf(form));
        MediaRowsStep(before, x, postId, old(db.nextId), now);
        db.InsertMedia(Media(db.nextId, x.0, x.1, postId, now));
      }
      k := k + 1;
    }
    assert forms[..k] == forms;
  }
}
