/** The purchase record and the list operations both purchase stores share
    (src/context/PurchaseContext.tsx and frontend/src/context/PurchaseContext.tsx
    declare the same record and the same `userPurchases`, `getPurchase` and
    `cancelPurchase`). */
module Purchases {
  import opened Common

  datatype Status = Pending | Completed | Cancelled

  datatype Purchase = Purchase(
    id: string, eventId: string, userId: string, quantity: int, totalPrice: real,
    purchaseDate: string, status: Status, paymentId: Option<string>)

  const PurchaseNotFound := "Purchase not found"
  const CannotCancelCompleted := "Cannot cancel a completed purchase"

  function WithId(id: string): Purchase -> bool { (p: Purchase) => p.id == id }

  function OwnedBy(userId: string): Purchase -> bool { (p: Purchase) => p.userId == userId }

  /** `userPurchases`: nothing when signed out, otherwise the purchases
      whose owner is the signed-in user, in list order. */
  function UserPurchases(ps: seq<Purchase>, userId: Option<string>): (r: seq<Purchase>)
    ensures userId.None? ==> r == []
    ensures userId.Some? ==> forall j :: 0 <= j < |r| ==> r[j] in ps && r[j].userId == userId.value
    ensures userId.Some? ==> forall j :: 0 <= j < |ps| && ps[j].userId == userId.value ==> ps[j] in r
  {
    if userId.None? then [] else Filter(ps, OwnedBy(userId.value))
  }

  /** Appending a purchase appends it to its owner's list and to nobody
      else's. */
  lemma UserPurchasesAppend(ps: seq<Purchase>, p: Purchase, userId: Option<string>)
    ensures UserPurchases(ps + [p], userId)
      == UserPurchases(ps, userId) + (if userId == Some(p.userId) then [p] else [])
  {
    if userId.Some? {
      FilterAppend(ps, [p], OwnedBy(userId.value));
    }
  }

  /** `getPurchase`: the first purchase with the id. */
  function GetPurchase(ps: seq<Purchase>, id: string): (r: Option<Purchase>)
    ensures r.None? <==> forall j :: 0 <= j < |ps| ==> ps[j].id != id
    ensures r.Some? ==> exists j :: (0 <= j < |ps| && ps[j] == r.value
      && r.value.id == id && forall i :: 0 <= i < j ==> ps[i].id != id)
  {
    match FirstIndex(ps, WithId(id))
    case None => None
    case Some(k) => Some(ps[k])
  }

  /** The list `cancelPurchase` produces: an unknown id and a completed
      purchase are refused with their messages; otherwise the first purchase
      with the id is marked cancelled and every other position is kept. */
  function CancelIn(ps: seq<Purchase>, id: string): (r: Result<seq<Purchase>>)
    ensures r == Err(PurchaseNotFound) <==> GetPurchase(ps, id).None?
    ensures r == Err(CannotCancelCompleted)
      <==> GetPurchase(ps, id).Some? && GetPurchase(ps, id).value.status == Completed
    ensures r.Ok? ==> |r.value| == |ps|
    ensures r.Ok? ==> exists k :: (0 <= k < |ps| && ps[k] == GetPurchase(ps, id).value
      && ps[k].status != Completed
      && r.value[k] == ps[k].(status := Cancelled)
      && forall j :: 0 <= j < |ps| && j != k ==> r.value[j] == ps[j])
  {
    match FirstIndex(ps, WithId(id))
    case None => Err(PurchaseNotFound)
    case Some(k) =>
      if ps[k].status == Completed then Err(CannotCancelCompleted)
      else Ok(ps[k := ps[k].(status := Cancelled)])
  }

  /** Cancelling twice is the same as cancelling once. */
  lemma CancelIdempotent(ps: seq<Purchase>, id: string)
    requires CancelIn(ps, id).Ok?
    ensures CancelIn(CancelIn(ps, id).value, id) == CancelIn(ps, id)
  {
    var k := FirstIndex(ps, WithId(id)).value;
    var r := CancelIn(ps, id).value;
    FirstIndexUpdate(ps, WithId(id), k, r[k]);
    assert r[k := r[k].(status := Cancelled)] == r;
  }

  /** Cancelling never touches a completed purchase, and it leaves the
      owner, event, quantity and price of every purchase as they were. */
  lemma CancelKeepsCompleted(ps: seq<Purchase>, id: string)
    requires CancelIn(ps, id).Ok?
    ensures forall j :: 0 <= j < |ps| && ps[j].status == Completed ==> CancelIn(ps, id).value[j] == ps[j]
    ensures forall j :: 0 <= j < |ps| ==>
      var q := CancelIn(ps, id).value[j];
      q.id == ps[j].id && q.userId == ps[j].userId && q.eventId == ps[j].eventId
      && q.quantity == ps[j].quantity && q.totalPrice == ps[j].totalPrice
  {
    var k := FirstIndex(ps, WithId(id)).value;
    assert CancelIn(ps, id).value == ps[k := ps[k].(status := Cancelled)];
  }
}
