/** The saved-payment-method views: listing, saving a card retrieved from
    Stripe, choosing the default, and deleting. Every lookup is scoped to
    the requesting user. */
module PaymentMethodViews {
  import opened Base
  import opened Query
  import opened Users
  import opened Stripe
  import opened PaymentMethodModels
  import opened Db

  /** The `payment_method_id` POST field as the ORM sees it: absent (the
      lookup id=None matches nothing), not a number (the lookup raises
      ValueError), or a key. */
  datatype IdArgument = NoId | BadId | Id(key: nat)

  function ParseMethodId(s: Option<string>): (a: IdArgument)
    ensures a.NoId? <==> s.None?
    ensures a.BadId? <==> s.Some? && ParseId(s.value).None?
    ensures a.Id? ==> s.Some? && ParseId(s.value) == Some(a.key)
  {
    if s.None? then NoId
    else match ParseId(s.value)
      case None => BadId
      case Some(n) => Id(n)
  }

  /** list_payment_methods: only the user's own methods. */
  function ListPaymentMethods(ms: seq<SavedPaymentMethod>, me: nat): (r: seq<SavedPaymentMethod>)
    ensures forall m :: m in r <==> m in ms && m.user == me
    ensures |r| <= |ms|
  {
    Filter(ms, (m: SavedPaymentMethod) => m.user == me)
  }

  /** The JSON answer of save_payment_method: the saved record, or a 400. */
  datatype SaveResponse = Saved(saved: SavedPaymentMethod) | SaveFailed(message: string)

  /** The record saved for a retrieved card: it copies the card's fields
      and is the default exactly when the user had no saved method. */
  function NewMethod(id: nat, me: nat, paymentMethodId: Option<string>, card: Card, ms: seq<SavedPaymentMethod>)
    : (m: SavedPaymentMethod)
    ensures m.id == id && m.user == me && m.stripePaymentMethodId == paymentMethodId
    ensures m.last4 == card.last4 && m.brand == card.brand && m.expMonth == card.expMonth && m.expYear == card.expYear
    ensures m.isDefault <==> ListPaymentMethods(ms, me) == []
  {
    SavedPaymentMethod(id, me, paymentMethodId, card.last4, card.brand, card.expMonth, card.expYear,
                       !Exists(ms, (x: SavedPaymentMethod) => x.user == me))
  }

  /** save_payment_method: the card is retrieved from Stripe and recorded;
      a Stripe failure is a 400 and records nothing. */
  method SavePaymentMethod(db: Database, me: nat, paymentMethodId: Option<string>, reply: CardReply)
      returns (r: SaveResponse, calls: seq<Call>)
    requires db.Valid() && IsUser(db.users, me)
    modifies db`paymentMethods, db`nextId
    ensures db.Valid()
    ensures calls == [PaymentMethodRetrieve(paymentMethodId)]
    ensures reply.CardFailed? ==>
      r == SaveFailed(reply.message) && db.paymentMethods == old(db.paymentMethods) && db.nextId == old(db.nextId)
    ensures reply.CardRetrieved? ==>
      var m := NewMethod(old(db.nextId), me, paymentMethodId, reply.card, old(db.paymentMethods));
      r == Saved(m) && db.paymentMethods == AddMethod(old(db.paymentMethods), m) && db.nextId == old(db.nextId) + 1
  {
    calls := [PaymentMethodRetrieve(paymentMethodId)];
    match reply
    case CardFailed(message) =>
      r := SaveFailed(message);
    case CardRetrieved(card) =>
      var m := NewMethod(db.nextId, me, paymentMethodId, card, db.paymentMethods);
      db.InsertPaymentMethod(m);
      r := Saved(m);
  }

  /** The JSON answer of set_default and delete. */
  datatype MethodResponse = MethodOk | MethodNotFound | MethodFailed

  /** set_default_payment_method: the user's chosen method becomes the
      default; a method of another user is not found and nothing changes. */
  method SetDefaultPaymentMethod(db: Database, me: nat, paymentMethodId: Option<string>) returns (r: MethodResponse)
    requires db.Valid()
    modifies db`paymentMethods
    ensures db.Valid()
    ensures var a := ParseMethodId(paymentMethodId);
      && (a.NoId? ==> r == MethodNotFound && db.paymentMethods == old(db.paymentMethods))
      && (a.BadId? ==> r == MethodFailed && db.paymentMethods == old(db.paymentMethods))
      && (a.Id? ==>
            var l := OwnedLookup(old(db.paymentMethods), me, a.key);
            && (l.DoesNotExist? ==> r == MethodNotFound && db.paymentMethods == old(db.paymentMethods))
            && (l.Found? ==> r == MethodOk && db.paymentMethods == MakeDefault(old(db.paymentMethods), l.index)))
  {
    var a := ParseMethodId(paymentMethodId);
    if a.NoId? {
      r := MethodNotFound;
    } else if a.BadId? {
      r := MethodFailed;
    } else {
      var l := OwnedLookup(db.paymentMethods, me, a.key);
      if l.Found? {
        db.MakeDefaultPaymentMethod(l.index);
        r := MethodOk;
      } else {
        r := MethodNotFound;
      }
    }
  }

  /** After set_default the chosen method is the only default among the
      owner's methods, and nobody else's methods changed. */
  lemma SetDefaultLeavesOneDefault(ms: seq<SavedPaymentMethod>, i: nat, me: nat)
    requires KeyUnique(ms, PaymentMethodIdOf) && i < |ms| && ms[i].user == me
    ensures forall m :: m in ListPaymentMethods(MakeDefault(ms, i), me) ==> (m.isDefault <==> m.id == ms[i].id)
    ensures forall u :: u != me ==> ListPaymentMethods(MakeDefault(ms, i), u) == ListPaymentMethods(ms, u)
  {
    var r := MakeDefault(ms, i);
    forall m | m in ListPaymentMethods(r, me) ensures m.isDefault <==> m.id == ms[i].id {
      var k :| 0 <= k < |r| && r[k] == m;
      if k != i {
        assert r[k].id == ms[k].id;
      }
    }
    forall u | u != me ensures ListPaymentMethods(r, u) == ListPaymentMethods(ms, u) {
      FilterTail(ms, r, u);
    }
  }

  /** Rows whose owner is `u` are equal, and owners agree everywhere: the
      two filters for `u` are the same. */
  lemma {:induction false} FilterTail(ms: seq<SavedPaymentMethod>, r: seq<SavedPaymentMethod>, u: nat)
    requires |r| == |ms|
    requires forall j :: 0 <= j < |r| && ms[j].user == u ==> r[j] == ms[j]
    requires forall j :: 0 <= j < |r| ==> r[j].user == ms[j].user
    ensures ListPaymentMethods(r, u) == ListPaymentMethods(ms, u)
    decreases |ms|
  {
    if |ms| > 0 {
      FilterTail(ms[1..], r[1..], u);
    }
  }

  /** delete_payment_method: detach at Stripe, then remove exactly that
      record; a Stripe failure is a 400 and nothing is removed. */
  method DeletePaymentMethod(db: Database, me: nat, paymentMethodId: Option<string>, detach: Outcome)
      returns (r: MethodResponse, calls: seq<Call>)
    requires db.Valid()
    modifies db`paymentMethods
    ensures db.Valid()
    ensures var a := ParseMethodId(paymentMethodId);
      && (a.NoId? ==> r == MethodNotFound && calls == [] && db.paymentMethods == old(db.paymentMethods))
      && (a.BadId? ==> r == MethodFailed && calls == [] && db.paymentMethods == old(db.paymentMethods))
      && (a.Id? ==>
            var l := OwnedLookup(old(db.paymentMethods), me, a.key);
            && (l.DoesNotExist? ==> r == MethodNotFound && calls == [] && db.paymentMethods == old(db.paymentMethods))
            && (l.Found? ==>
                  && calls == [PaymentMethodDetach(old(db.paymentMethods)[l.index].stripePaymentMethodId)]
                  && (detach.Error? ==> r == MethodFailed && db.paymentMethods == old(db.paymentMethods))
                  && (detach.Done? ==> r == MethodOk && db.paymentMethods == RemoveAt(old(db.paymentMethods), l.index))))
  {
    calls := [];
    var a := ParseMethodId(paymentMethodId);
    if a.NoId? {
      r := MethodNotFound;
      return;
    }
    if a.BadId? {
      r := MethodFailed;
      return;
    }
    var l := OwnedLookup(db.paymentMethods, me, a.key);
    if !l.Found? {
      r := MethodNotFound;
      return;
    }
    calls := [PaymentMethodDetach(db.paymentMethods[l.index].stripePaymentMethodId)];
    if detach.Error? {
      r := MethodFailed;
      return;
    }
    db.DeletePaymentMethod(l.index);
    r := MethodOk;
  }
}
