/** The content app's tables: Post, Media, Category, Tag, Like, Save and
    Share, with their choice lists, defaults, unique constraints and
    renderings. */
module ContentModels {
  import opened Base
  import opened Money
  import opened Query
  import opened Ordering

  /** Post.VISIBILITY_CHOICES */
  datatype Visibility = Public | SubscribersOnly | Premium | Private

  function VisibilityCode(v: Visibility): string
  {
    match v
    case Public => "public"
    case SubscribersOnly => "subscribers"
    case Premium => "premium"
    case Private => "private"
  }

  function ParseVisibility(s: string): (r: Option<Visibility>)
    ensures r.Some? ==> VisibilityCode(r.value) == s
  {
    if s == "public" then Some(Public)
    else if s == "subscribers" then Some(SubscribersOnly)
    else if s == "premium" then Some(Premium)
    else if s == "private" then Some(Private)
    else None
  }

  lemma VisibilityCodeRoundTrip(v: Visibility)
    ensures ParseVisibility(VisibilityCode(v)) == Some(v)
  {
  }

  /** Media.MEDIA_TYPES */
  datatype MediaType = Image | Video

  function MediaTypeCode(t: MediaType): string
  {
    match t
    case Image => "image"
    case Video => "video"
  }

  function ParseMediaType(s: string): (r: Option<MediaType>)
    ensures r.Some? ==> MediaTypeCode(r.value) == s
    ensures r.None? <==> s != "image" && s != "video"
  {
    if s == "image" then Some(Image) else if s == "video" then Some(Video) else None
  }

  /** Share.SHARE_PLATFORMS */
  datatype SharePlatform = Twitter | Facebook | LinkedIn | WhatsApp

  function SharePlatformCode(p: SharePlatform): string
  {
    match p
    case Twitter => "twitter"
    case Facebook => "facebook"
    case LinkedIn => "linkedin"
    case WhatsApp => "whatsapp"
  }

  function ParseSharePlatform(s: string): (r: Option<SharePlatform>)
    ensures r.Some? ==> SharePlatformCode(r.value) == s
  {
    if s == "twitter" then Some(Twitter)
    else if s == "facebook" then Some(Facebook)
    else if s == "linkedin" then Some(LinkedIn)
    else if s == "whatsapp" then Some(WhatsApp)
    else None
  }

  lemma SharePlatformCodeRoundTrip(p: SharePlatform)
    ensures ParseSharePlatform(SharePlatformCode(p)) == Some(p)
  {
  }

  /** A post. `isPaid` is read by the views and the admin but is not a column
      of the Post table; the model carries it as an attribute of the post. */
  datatype Post = Post(
    id: nat,
    creator: nat,
    title: string,
    text: string,
    visibility: Visibility,
    price: Option<Decimal>,
    createdAt: int,
    updatedAt: int,
    isPaid: bool)

  const DefaultTitle: string := "Untitled Post"

  /** The row a new post is saved as when only creator, text, price and
      is_paid are given: title and visibility take their defaults, both
      timestamps are the time of the insert, and price may be NULL. */
  function PostRow(id: nat, creator: nat, text: string, price: Option<Decimal>, isPaid: bool, now: int): (p: Post)
    ensures p.title == DefaultTitle && p.visibility == Public
    ensures p.createdAt == now && p.updatedAt == now
    ensures p.id == id && p.creator == creator && p.text == text && p.price == price && p.isPaid == isPaid
  {
    Post(id, creator, DefaultTitle, text, Public, price, now, now, isPaid)
  }

  /** Post.__str__: "<username>'s post: <title>". */
  function PostStr(creatorName: string, p: Post): (r: string)
    ensures |r| == |creatorName| + |"'s post: "| + |p.title|
    ensures r[..|creatorName|] == creatorName
    ensures r[|creatorName|..|creatorName| + 9] == "'s post: "
    ensures r[|r| - |p.title|..] == p.title
  {
    creatorName + "'s post: " + p.title
  }

  function PostIdOf(p: Post): nat { p.id }

  function PostCreatedAt(p: Post): int { p.createdAt }

  predicate PostsValid(posts: seq<Post>, nextId: nat)
  {
    KeyUnique(posts, PostIdOf) && forall i :: 0 <= i < |posts| ==> posts[i].id < nextId
  }

  datatype Media = Media(id: nat, file: UploadedFile, mediaType: MediaType, post: nat, createdAt: int)

  function MediaIdOf(m: Media): nat { m.id }

  predicate MediaValid(media: seq<Media>, nextId: nat)
  {
    KeyUnique(media, MediaIdOf) && forall i :: 0 <= i < |media| ==> media[i].id < nextId
  }

  predicate IsPost(posts: seq<Post>, id: nat)
  {
    exists i :: 0 <= i < |posts| && posts[i].id == id
  }

  datatype Category = Category(id: nat, name: string, description: string)

  datatype Tag = Tag(id: nat, name: string)

  function CategoryName(c: Category): string { c.name }

  function TagName(t: Tag): string { t.name }

  /** Category.objects.create(...) under the unique name. */
  function CreateCategory(cats: seq<Category>, c: Category): (r: Option<seq<Category>>)
    ensures r.None? <==> exists i :: 0 <= i < |cats| && cats[i].name == c.name
    ensures r.Some? ==> r.value == cats + [c]
    ensures r.Some? && KeyUnique(cats, CategoryName) ==> KeyUnique(r.value, CategoryName)
  {
    InsertUnique(cats, c, CategoryName)
  }

  /** Tag.objects.create(...) under the unique name. */
  function CreateTag(tags: seq<Tag>, t: Tag): (r: Option<seq<Tag>>)
    ensures r.None? <==> exists i :: 0 <= i < |tags| && tags[i].name == t.name
    ensures r.Some? ==> r.value == tags + [t]
    ensures r.Some? && KeyUnique(tags, TagName) ==> KeyUnique(r.value, TagName)
  {
    InsertUnique(tags, t, TagName)
  }

  datatype Like = Like(id: nat, user: nat, post: nat, createdAt: int)

  datatype Save = Save(id: nat, user: nat, post: nat, createdAt: int)

  datatype Share = Share(id: nat, user: nat, post: nat, platform: SharePlatform, message: string, createdAt: int)

  function LikePair(l: Like): (nat, nat) { (l.user, l.post) }

  function SavePair(s: Save): (nat, nat) { (s.user, s.post) }

  /** Like.objects.create(...) under unique_together (user, post): a user
      likes a post at most once. */
  function CreateLike(likes: seq<Like>, l: Like): (r: Option<seq<Like>>)
    ensures r.None? <==> exists i :: 0 <= i < |likes| && likes[i].user == l.user && likes[i].post == l.post
    ensures r.Some? ==> r.value == likes + [l]
    ensures r.Some? && KeyUnique(likes, LikePair) ==> KeyUnique(r.value, LikePair)
  {
    InsertUnique(likes, l, LikePair)
  }

  /** Save.objects.create(...) under unique_together (user, post). */
  function CreateSave(saves: seq<Save>, s: Save): (r: Option<seq<Save>>)
    ensures r.None? <==> exists i :: 0 <= i < |saves| && saves[i].user == s.user && saves[i].post == s.post
    ensures r.Some? ==> r.value == saves + [s]
    ensures r.Some? && KeyUnique(saves, SavePair) ==> KeyUnique(r.value, SavePair)
  {
    InsertUnique(saves, s, SavePair)
  }

  /** Post.Meta.ordering = ['-created_at'] */
  function NewestFirst(posts: seq<Post>): (r: seq<Post>)
    ensures SortedDesc(r, PostCreatedAt)
    ensures multiset(r) == multiset(posts)
    ensures forall p :: p in r <==> p in posts
  {
    var r := SortDesc(posts, PostCreatedAt);
    SortedMembers(posts, r);
    r
  }
}
