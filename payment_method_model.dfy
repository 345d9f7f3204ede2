/** The SavedPaymentMethod table the payment-method views work on. Its model
    class is not part of this model; its columns come from the create(...)
    call of the save view, and the rule that saving a default clears the
    owner's other defaults comes from the comment at the set-default view
    and the tests that exercise it. */
module PaymentMethodModels {
  import opened Base
  import opened Query

  datatype SavedPaymentMethod = SavedPaymentMethod(
    id: nat,
    user: nat,
    stripePaymentMethodId: Option<string>,
    last4: string,
    brand: string,
    expMonth: int,
    expYear: int,
    isDefault: bool)

  function PaymentMethodIdOf(m: SavedPaymentMethod): nat { m.id }

  /** No user has two default methods. */
  predicate OneDefaultPerUser(ms: seq<SavedPaymentMethod>)
  {
    forall i, j :: 0 <= i < j < |ms| && ms[i].user == ms[j].user ==> !(ms[i].isDefault && ms[j].isDefault)
  }

  /** The same, ignoring row `k`. */
  predicate OneDefaultPerUserBesides(ms: seq<SavedPaymentMethod>, k: nat)
  {
    forall i, j :: 0 <= i < j < |ms| && i != k && j != k && ms[i].user == ms[j].user ==>
      !(ms[i].isDefault && ms[j].isDefault)
  }

  predicate PaymentMethodsValid(ms: seq<SavedPaymentMethod>, nextId: nat)
  {
    && KeyUnique(ms, PaymentMethodIdOf)
    && (forall i :: 0 <= i < |ms| ==> ms[i].id < nextId)
    && OneDefaultPerUser(ms)
  }

  /** The user's default method table after row `i` is saved with
      is_default=True: that row becomes the default and every other method
      of the same owner stops being one. */
  function MakeDefault(ms: seq<SavedPaymentMethod>, i: nat): (r: seq<SavedPaymentMethod>)
    requires i < |ms|
    ensures |r| == |ms|
    ensures r[i] == ms[i].(isDefault := true)
    ensures forall j :: 0 <= j < |r| && j != i && r[j].user == ms[i].user ==> !r[j].isDefault
    ensures forall j :: 0 <= j < |r| && ms[j].user != ms[i].user ==> r[j] == ms[j]
    ensures forall j :: 0 <= j < |r| ==> r[j] == ms[j].(isDefault := r[j].isDefault)
    ensures OneDefaultPerUserBesides(ms, i) ==> OneDefaultPerUser(r)
  {
    seq(|ms|, j requires 0 <= j < |ms| =>
      if j == i then ms[j].(isDefault := true)
      else if ms[j].user == ms[i].user then ms[j].(isDefault := false)
      else ms[j])
  }

  /** SavedPaymentMethod.objects.create(...): the row is appended, and when
      it is a default the owner's other defaults are cleared. */
  function AddMethod(ms: seq<SavedPaymentMethod>, m: SavedPaymentMethod): (r: seq<SavedPaymentMethod>)
    ensures |r| == |ms| + 1 && r[|ms|] == m
    ensures !m.isDefault ==> r == ms + [m]
    ensures forall j :: 0 <= j < |ms| && ms[j].user != m.user ==> r[j] == ms[j]
    ensures OneDefaultPerUser(ms) ==> OneDefaultPerUser(r)
  {
    if m.isDefault then MakeDefault(ms + [m], |ms|)
    else
      var r := ms + [m];
      assert forall j :: 0 <= j < |ms| ==> r[j] == ms[j];
      r
  }

  /** filter(user=user) */
  function MethodsOf(ms: seq<SavedPaymentMethod>, user: nat): (r: seq<SavedPaymentMethod>)
    ensures forall m :: m in r <==> m in ms && m.user == user
    ensures forall m :: m in r ==> m.user == user
  {
    Filter(ms, (m: SavedPaymentMethod) => m.user == user)
  }

  /** get(id=id, user=user): a method of another user is not found. */
  function OwnedLookup(ms: seq<SavedPaymentMethod>, user: nat, id: nat): (r: Lookup)
    requires KeyUnique(ms, PaymentMethodIdOf)
    ensures !r.MultipleObjectsReturned?
    ensures r.Found? ==> r.index < |ms| && ms[r.index].id == id && ms[r.index].user == user
    ensures r.DoesNotExist? <==> forall j :: 0 <= j < |ms| ==> !(ms[j].id == id && ms[j].user == user)
  {
    var r := Get(ms, (m: SavedPaymentMethod) => m.id == id && m.user == user);
    if r.MultipleObjectsReturned? then
      assert false;
      r
    else r
  }

  /** payment_method.delete(): exactly row `i` goes; every other row stays,
      in order. */
  function RemoveAt(ms: seq<SavedPaymentMethod>, i: nat): (r: seq<SavedPaymentMethod>)
    requires i < |ms|
    ensures |r| == |ms| - 1
    ensures forall j :: 0 <= j < |ms| && j != i ==> ms[j] in r
    ensures forall m :: m in r ==> m in ms
    ensures KeyUnique(ms, PaymentMethodIdOf) ==> forall m :: m in r ==> m.id != ms[i].id
    ensures OneDefaultPerUser(ms) ==> OneDefaultPerUser(r)
  {
    var r := ms[..i] + ms[i + 1..];
    assert forall k :: 0 <= k < i ==> r[k] == ms[k];
    assert forall k :: i <= k < |r| ==> r[k] == ms[k + 1];
    assert forall j :: 0 <= j < |ms| && j != i ==> ms[j] in r by {
      forall j | 0 <= j < |ms| && j != i ensures ms[j] in r {
        if j < i { assert r[j] == ms[j]; } else { assert r[j - 1] == ms[j]; }
      }
    }
    r
  }

  lemma RemoveKeepsValid(ms: seq<SavedPaymentMethod>, i: nat, nextId: nat)
    requires PaymentMethodsValid(ms, nextId) && i < |ms|
    ensures PaymentMethodsValid(RemoveAt(ms, i), nextId)
  {
    RemoveKeepsKeyUnique(ms, i, PaymentMethodIdOf);
    var r := RemoveAt(ms, i);
    assert r == ms[..i] + ms[i + 1..];
    forall k | 0 <= k < |r| ensures r[k].id < nextId {
      assert r[k] == ms[if k < i then k else k + 1];
    }
  }

  lemma MakeDefaultKeepsValid(ms: seq<SavedPaymentMethod>, i: nat, nextId: nat)
    requires KeyUnique(ms, PaymentMethodIdOf) && (forall j :: 0 <= j < |ms| ==> ms[j].id < nextId)
    requires OneDefaultPerUserBesides(ms, i) && i < |ms|
    ensures PaymentMethodsValid(MakeDefault(ms, i), nextId)
  {
    var r := MakeDefault(ms, i);
    forall a, b | 0 <= a < b < |r| ensures r[a].id != r[b].id {
      assert r[a].id == ms[a].id && r[b].id == ms[b].id;
    }
    forall a | 0 <= a < |r| ensures r[a].id < nextId {
      assert r[a].id == ms[a].id;
    }
  }

  lemma AddKeepsValid(ms: seq<SavedPaymentMethod>, m: SavedPaymentMethod, nextId: nat)
    requires PaymentMethodsValid(ms, nextId) && m.id == nextId
    ensures PaymentMethodsValid(AddMethod(ms, m), nextId + 1)
  {
    var t := ms + [m];
    forall a, b | 0 <= a < b < |t| ensures t[a].id != t[b].id {
      if b == |ms| { assert t[a].id < nextId; }
    }
    assert OneDefaultPerUserBesides(t, |ms|) by {
      assert forall a :: 0 <= a < |ms| ==> t[a] == ms[a];
    }
    if m.isDefault {
      MakeDefaultKeepsValid(t, |ms|, nextId + 1);
    } else {
      assert OneDefaultPerUser(t) by {
        assert forall a :: 0 <= a < |ms| ==> t[a] == ms[a];
      }
    }
  }
}
