/** The user_logged_in receiver that gives every user a Stripe customer. */
module AccountSignals {
  import opened Base
  import opened Stripe
  import opened Users
  import opened Db

  /** What the receiver does to one user: when the user has the
      stripe_customer_id field and it is empty, a customer is created with
      the user's email and metadata; a created id is stored, and a Stripe
      error is swallowed. */
  function ProvisionCustomer(u: User, hasField: bool, reply: Reply): (r: (User, seq<Call>))
    ensures !hasField || !Blank(u.stripeCustomerId) ==> r == (u, [])
    ensures hasField && Blank(u.stripeCustomerId) ==>
      r.1 == [CustomerCreate(u.email, u.id, u.username)]
    ensures hasField && Blank(u.stripeCustomerId) && reply.Created? ==>
      r.0 == u.(stripeCustomerId := Some(reply.id))
    ensures reply.Failed? ==> r.0 == u
    ensures r.0.id == u.id && r.0.username == u.username
  {
    if !hasField || !Blank(u.stripeCustomerId) then (u, [])
    else
      match reply
      case Created(id) => (u.(stripeCustomerId := Some(id)), [CustomerCreate(u.email, u.id, u.username)])
      case Failed(_) => (u, [CustomerCreate(u.email, u.id, u.username)])
  }

  /** Logging in again after a successful provisioning makes no further
      Stripe call and changes nothing, as long as Stripe's id was not
      empty; after a failed one the next login tries again. */
  lemma ProvisionIsIdempotent(u: User, first: Reply, second: Reply)
    requires first.Created? ==> first.id != ""
    ensures var once := ProvisionCustomer(u, true, first).0;
      first.Created? ==> ProvisionCustomer(once, true, second) == (once, [])
    ensures var once := ProvisionCustomer(u, true, first).0;
      first.Failed? && Blank(u.stripeCustomerId) ==> ProvisionCustomer(once, true, second).1 != []
  {
  }

  /** create_stripe_customer(sender, user, request): the receiver applied
      to the logged-in user's row. */
  method CreateStripeCustomer(db: Database, me: nat, hasField: bool, reply: Reply) returns (calls: seq<Call>)
    requires db.Valid() && IsUser(db.users, me)
    modifies db`users
    ensures db.Valid()
    ensures var i := IndexOf(old(db.users), me);
      var (u, cs) := ProvisionCustomer(old(db.users[i]), hasField, reply);
      db.users == old(db.users)[i := u] && calls == cs
  {
    var i := IndexOf(db.users, me);
    var (u, cs) := ProvisionCustomer(db.users[i], hasField, reply);
    if u != db.users[i] {
      db.SaveUser(i, u);
    }
    calls := cs;
  }
}
