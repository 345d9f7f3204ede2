/** The database the views read and write: one sequence of rows per table,
    in insertion order, and the next primary key to hand out. `Valid` is
    what the schema guarantees at every commit: unique keys, the unique
    constraints, and foreign keys that point at existing rows. */
module Db {
  import opened Base
  import opened Users
  import opened SubscriptionModels
  import opened ContentModels
  import opened ChatModels
  import opened PaymentMethodModels
  import opened SubscriptionRules

  class Database {
    var users: seq<User>
    var subscriptions: seq<Subscription>
    var payments: seq<PaymentHistory>
    var posts: seq<Post>
    var media: seq<Media>
    var chats: seq<Chat>
    var messages: seq<Message>
    var paymentMethods: seq<SavedPaymentMethod>
    var nextId: nat

    ghost predicate SubscriptionRefsValid()
      reads this
    {
      forall i :: 0 <= i < |subscriptions| ==>
        IsUser(users, subscriptions[i].subscriber) && IsUser(users, subscriptions[i].creator)
    }

    ghost predicate ContentRefsValid()
      reads this
    {
      && (forall i :: 0 <= i < |posts| ==> IsUser(users, posts[i].creator))
      && (forall i :: 0 <= i < |media| ==> IsPost(posts, media[i].post))
    }

    ghost predicate ChatRefsValid()
      reads this
    {
      && (forall i :: 0 <= i < |chats| ==> IsUser(users, chats[i].creator) && IsUser(users, chats[i].subscriber))
      && (forall i :: 0 <= i < |messages| ==> IsChat(chats, messages[i].chat) && IsUser(users, messages[i].sender))
    }

    ghost predicate Valid()
      reads this
    {
      && UsersValid(users)
      && SubscriptionsValid(subscriptions, nextId)
      && SubscriptionRefsValid()
      && PaymentsValid(payments, nextId)
      && PostsValid(posts, nextId)
      && MediaValid(media, nextId)
      && ContentRefsValid()
      && ChatsValid(chats, nextId)
      && MessagesValid(messages, nextId)
      && ChatRefsValid()
      && PaymentMethodsValid(paymentMethods, nextId)
      && forall i :: 0 <= i < |paymentMethods| ==> IsUser(users, paymentMethods[i].user)
    }

    /** An empty database. */
    constructor ()
      ensures Valid()
      ensures users == [] && subscriptions == [] && payments == [] && posts == []
      ensures media == [] && chats == [] && messages == [] && paymentMethods == []
    {
      users, subscriptions, payments, posts := [], [], [], [];
      media, chats, messages, paymentMethods := [], [], [], [];
      nextId := 1;
    }

    /** Subscription.objects.create(**args) between two existing users: the
        row goes in and takes the next key exactly when the create succeeds. */
    method InsertSubscription(args: SubscriptionArgs, now: int) returns (ok: bool)
      requires Valid() && IsUser(users, args.subscriber) && IsUser(users, args.creator)
      modifies this`subscriptions, this`nextId
      ensures Valid()
      ensures var r := CreateSubscription(old(subscriptions), args, old(nextId), now);
        && ok == r.Ok?
        && (r.Ok? ==> subscriptions == r.value && nextId == old(nextId) + 1)
        && (r.Err? ==> subscriptions == old(subscriptions) && nextId == old(nextId))
    {
      var r := CreateSubscription(subscriptions, args, nextId, now);
      ok := r.Ok?;
      if ok {
        CreateKeepsValid(subscriptions, args, nextId, now);
        subscriptions := r.value;
        nextId := nextId + 1;
      }
    }

    /** PaymentHistory.objects.create(...) with the next key. */
    method InsertPayment(row: PaymentHistory)
      requires Valid() && row.id == nextId
      modifies this`payments, this`nextId
      ensures Valid()
      ensures payments == old(payments) + [row] && nextId == old(nextId) + 1
    {
      var t := payments + [row];
      forall a, b | 0 <= a < b < |t| ensures t[a].id != t[b].id {
        if b == |payments| { assert t[a].id < nextId; }
      }
      payments := t;
      nextId := nextId + 1;
    }

    /** SavedPaymentMethod.objects.create(...) with the next key. */
    method InsertPaymentMethod(m: SavedPaymentMethod)
      requires Valid() && m.id == nextId && IsUser(users, m.user)
      modifies this`paymentMethods, this`nextId
      ensures Valid()
      ensures paymentMethods == AddMethod(old(paymentMethods), m) && nextId == old(nextId) + 1
    {
      AddKeepsValid(paymentMethods, m, nextId);
      var t := AddMethod(paymentMethods, m);
      forall k | 0 <= k < |t| ensures IsUser(users, t[k].user) {
        if k < |paymentMethods| {
          assert t[k].user == paymentMethods[k].user;
        }
      }
      paymentMethods := t;
      nextId := nextId + 1;
    }

    /** payment_method.is_default = True; payment_method.save() */
    method MakeDefaultPaymentMethod(i: nat)
      requires Valid() && i < |paymentMethods|
      modifies this`paymentMethods
      ensures Valid()
      ensures paymentMethods == MakeDefault(old(paymentMethods), i)
    {
      MakeDefaultKeepsValid(paymentMethods, i, nextId);
      var t := MakeDefault(paymentMethods, i);
      assert forall k :: 0 <= k < |t| ==> t[k].user == paymentMethods[k].user;
      paymentMethods := t;
    }

    /** payment_method.delete() */
    method DeletePaymentMethod(i: nat)
      requires Valid() && i < |paymentMethods|
      modifies this`paymentMethods
      ensures Valid()
      ensures paymentMethods == RemoveAt(old(paymentMethods), i)
    {
      RemoveKeepsValid(paymentMethods, i, nextId);
      var t := RemoveAt(paymentMethods, i);
      assert t == paymentMethods[..i] + paymentMethods[i + 1..];
      forall k | 0 <= k < |t| ensures IsUser(users, t[k].user) {
        assert t[k] == paymentMethods[if k < i then k else k + 1];
      }
      paymentMethods := t;
    }

    /** subscription.active = False; subscription.save() */
    method DeactivateSubscription(k: nat)
      requires Valid() && k < |subscriptions|
      modifies this`subscriptions
      ensures Valid()
      ensures subscriptions == Deactivate(old(subscriptions), k)
    {
      DeactivateKeepsValid(subscriptions, k, nextId);
      subscriptions := Deactivate(subscriptions, k);
    }

    /** subscription.active = False; subscription.auto_renew = False;
        subscription.save() */
    method StopSubscription(k: nat)
      requires Valid() && k < |subscriptions|
      modifies this`subscriptions
      ensures Valid()
      ensures subscriptions == Stop(old(subscriptions), k)
    {
      DeactivateKeepsValid(subscriptions, k, nextId);
      subscriptions := Stop(subscriptions, k);
    }

    /** Post.objects.create(...) by an existing user, with the next key. */
    method InsertPost(p: Post)
      requires Valid() && p.id == nextId && IsUser(users, p.creator)
      modifies this`posts, this`nextId
      ensures Valid()
      ensures posts == old(posts) + [p] && nextId == old(nextId) + 1
    {
      var t := posts + [p];
      forall a, b | 0 <= a < b < |t| ensures t[a].id != t[b].id {
        if b == |posts| { assert t[a].id < nextId; }
      }
      forall k | 0 <= k < |media| ensures IsPost(t, media[k].post) {
        var j :| 0 <= j < |posts| && posts[j].id == media[k].post;
        assert t[j] == posts[j];
      }
      posts := t;
      nextId := nextId + 1;
    }

    /** Media.objects.create(...) on an existing post, with the next key. */
    method InsertMedia(m: Media)
      requires Valid() && m.id == nextId && IsPost(posts, m.post)
      modifies this`media, this`nextId
      ensures Valid()
      ensures media == old(media) + [m] && nextId == old(nextId) + 1
    {
      var t := media + [m];
      forall a, b | 0 <= a < b < |t| ensures t[a].id != t[b].id {
        if b == |media| { assert t[a].id < nextId; }
      }
      media := t;
      nextId := nextId + 1;
    }

    /** user.save() for a row whose key and username are unchanged: the one
        row is replaced and every foreign key still resolves. */
    method SaveUser(i: nat, u: User)
      requires Valid() && i < |users|
      requires u.id == users[i].id && u.username == users[i].username
      modifies this`users
      ensures users == old(users)[i := u]
      ensures Valid()
    {
      SaveKeepsUsersValid(users, i, u);
      users := users[i := u];
    }
  }
}
