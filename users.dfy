/** The User row (the custom AbstractUser of the accounts app): the fields
    the core reads and writes, and the two lookups the views perform. */
module Users {
  import opened Base
  import opened Money
  import opened Query
  import opened Stripe

  datatype User = User(
    id: nat,
    username: string,
    email: string,
    bio: string,
    isCreator: bool,
    subscriptionPrice: Decimal,
    stripeAccountId: Option<string>,
    stripeProductId: Option<string>,
    stripePriceId: Option<string>,
    stripeCustomerId: Option<string>)

  /** `not field` on a nullable CharField: NULL and the empty string are
      both falsy, so both count as missing. */
  predicate Blank(v: Option<string>) { v.None? || v.value == "" }

  function IdOf(u: User): nat { u.id }

  function UsernameOf(u: User): string { u.username }

  /** Primary keys are unique, and so are usernames (AbstractUser). */
  predicate UsersValid(users: seq<User>)
  {
    KeyUnique(users, IdOf) && KeyUnique(users, UsernameOf)
  }

  predicate HasId(id: nat, u: User) { u.id == id }

  /** A foreign key to the User table points at an existing row. */
  predicate IsUser(users: seq<User>, id: nat)
  {
    exists i :: 0 <= i < |users| && users[i].id == id
  }

  predicate IsCreatorNamed(name: string, u: User) { u.username == name && u.isCreator }

  /** User.objects.get(id=id) */
  function ById(users: seq<User>, id: nat): (r: Lookup)
    requires UsersValid(users)
    ensures !r.MultipleObjectsReturned?
    ensures r.Found? ==> r.index < |users| && users[r.index].id == id
    ensures r.Found? ==> forall i :: 0 <= i < |users| && i != r.index ==> users[i].id != id
    ensures r.DoesNotExist? <==> forall i :: 0 <= i < |users| ==> users[i].id != id
  {
    var r := Get(users, u => HasId(id, u));
    if r.MultipleObjectsReturned? then
      assert false;
      r
    else r
  }

  /** get_object_or_404(User, username=name, is_creator=True) */
  function CreatorByUsername(users: seq<User>, name: string): (r: Lookup)
    requires UsersValid(users)
    ensures !r.MultipleObjectsReturned?
    ensures r.Found? ==> r.index < |users| && users[r.index].username == name && users[r.index].isCreator
    ensures r.Found? ==> forall i :: 0 <= i < |users| && i != r.index ==> users[i].username != name
    ensures r.DoesNotExist? <==>
      forall i :: 0 <= i < |users| ==> !(users[i].username == name && users[i].isCreator)
  {
    var r := Get(users, u => IsCreatorNamed(name, u));
    if r.MultipleObjectsReturned? then
      assert false;
      r
    else r
  }

  /** The row of a user known to exist, such as request.user. */
  function IndexOf(users: seq<User>, id: nat): (i: nat)
    requires UsersValid(users) && IsUser(users, id)
    ensures i < |users| && users[i].id == id
  {
    ById(users, id).index
  }

  /** User.objects.get(username=name) */
  function ByUsername(users: seq<User>, name: string): (r: Lookup)
    requires UsersValid(users)
    ensures !r.MultipleObjectsReturned?
    ensures r.Found? ==> r.index < |users| && users[r.index].username == name
    ensures r.DoesNotExist? <==> forall i :: 0 <= i < |users| ==> users[i].username != name
  {
    var r := Get(users, u => UsernameOf(u) == name);
    if r.MultipleObjectsReturned? then
      assert false;
      r
    else r
  }

  /** `if not user.field: user.field = stripe.X.create(...).id`: an id that
      is already there is kept and no call is made; a missing one is taken
      from Stripe's reply, and a failed reply is the error raised. */
  function EnsureId(field: Option<string>, reply: Reply): (r: Result<Option<string>, string>)
    ensures !Blank(field) ==> r == Ok(field)
    ensures Blank(field) ==> (r.Ok? <==> reply.Created?)
    ensures Blank(field) && r.Ok? ==> r.value == Some(reply.id)
    ensures Blank(field) && r.Err? ==> r.error == reply.message
  {
    if !Blank(field) then Ok(field)
    else match reply
      case Created(id) => Ok(Some(id))
      case Failed(m) => Err(m)
  }

  /** Running the step a second time creates nothing and keeps the id, as
      long as Stripe handed out a non-empty id the first time. */
  lemma EnsureIdIdempotent(field: Option<string>, first: Reply, second: Reply)
    requires EnsureId(field, first).Ok?
    requires Blank(field) ==> first.id != ""
    ensures EnsureId(EnsureId(field, first).value, second) == EnsureId(field, first)
  {
  }

  /** User.objects.get(id=s) for an id that arrives as a string (URL, JSON
      or Stripe metadata): the index of the user, or None when the string is
      not a number or no such user exists. */
  function LookupById(users: seq<User>, s: string): (r: Option<nat>)
    requires UsersValid(users)
    ensures r.Some? <==> ParseId(s).Some? && IsUser(users, ParseId(s).value)
    ensures r.Some? ==> r.value < |users| && users[r.value].id == ParseId(s).value
  {
    match ParseId(s)
    case None => None
    case Some(id) =>
      var l := ById(users, id);
      if l.Found? then Some(l.index) else None
  }

  /** Saving a user row whose id and username are unchanged keeps the table
      valid. */
  lemma SaveKeepsUsersValid(users: seq<User>, i: nat, u: User)
    requires UsersValid(users) && i < |users|
    requires u.id == users[i].id && u.username == users[i].username
    ensures UsersValid(users[i := u])
    ensures forall id :: IsUser(users[i := u], id) <==> IsUser(users, id)
  {
    forall id ensures IsUser(users[i := u], id) <==> IsUser(users, id) {
      if IsUser(users, id) {
        var k :| 0 <= k < |users| && users[k].id == id;
        assert users[i := u][k].id == id;
      }
      if IsUser(users[i := u], id) {
        var k :| 0 <= k < |users| && users[i := u][k].id == id;
        assert users[k].id == id;
      }
    }
    UpdateKeepsKeyUnique(users, i, u, IdOf);
    UpdateKeepsKeyUnique(users, i, u, UsernameOf);
  }
}
