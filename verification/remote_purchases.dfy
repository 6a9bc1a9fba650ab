/** The purchase store backed by the purchases service
    (frontend/src/context/PurchaseContext.tsx): a purchase is created by the
    service after a capacity check against the freshly fetched event, paid
    through the service (which then lowers the event's capacity by the
    quantity and notifies the buyer), or cancelled locally while it is not
    completed. The list is written under the storage key 'purchases'. */
module RemotePurchases {
  import opened Common
  import opened Text
  import opened Purchases
  import RemoteEvents

  /** A purchase as the purchases service returns it. */
  datatype PurchaseRecord = PurchaseRecord(
    oid: string, usuarioId: string, eventoId: int, cantidad: int, pagado: bool, fechaCompra: string)

  /** A reply of the purchases service: its status, its body as text and
      the record parsed from it, or a request that threw with a message. */
  datatype ServiceReply = Answered(status: int, text: string, record: PurchaseRecord) | Failed(message: string)
  {
    predicate Ok() { Answered? && 200 <= status <= 299 }
  }

  /** The body posted to create a purchase. */
  datatype PurchaseRequest = PurchaseRequest(eventoId: int, cantidad: int)

  /** The confirmation handed to the notification service. */
  datatype Notice = Notice(userId: string, kind: string, title: string, message: string, eventId: string, purchaseId: string)

  const MustSignIn := "User must be logged in to purchase tickets"
  const EventNotFound := "Event not found"
  const NotEnoughTickets := "Not enough tickets available"

  /** `err.message || fallback`. */
  function OrElse(m: string, fallback: string): string
  {
    if m == "" then fallback else m
  }

  /** The message for a refused request: the prefix, the status and the
      body text; or the thrown error's message. */
  function ServiceFailure(prefix: string, reply: ServiceReply): string
  {
    if reply.Answered? then prefix + IntToString(reply.status) + " " + reply.text else reply.message
  }

  /** The mapping from a service record: the event id becomes its decimal
      text, the status follows the paid flag and the price is the event's
      unit price times the quantity the service recorded. */
  function ToPurchase(rec: PurchaseRecord, precio: real): (p: Purchase)
    ensures p.id == rec.oid && p.userId == rec.usuarioId && p.quantity == rec.cantidad
    ensures NumberOf(p.eventId) == Some(rec.eventoId)
    ensures p.totalPrice == precio * rec.cantidad as real && p.purchaseDate == rec.fechaCompra
    ensures p.status == Completed <==> rec.pagado
    ensures p.status != Cancelled && p.paymentId == None
  {
    NumberOfIntToString(rec.eventoId);
    Purchase(rec.oid, IntToString(rec.eventoId), rec.usuarioId, rec.cantidad,
             precio * rec.cantidad as real, rec.fechaCompra,
             if rec.pagado then Completed else Pending, None)
  }

  /** `createPurchase` once the event has been fetched (`event`): the buyer
      must be signed in, the event must exist, the quantity must not exceed
      the event's capacity, and the service must accept the request. */
  function CreateIn(userId: Option<string>, event: Option<RemoteEvents.Event>, quantity: int,
                    reply: ServiceReply): (r: Result<Purchase>)
    ensures userId.None? ==> r == Err(MustSignIn)
    ensures userId.Some? && event.None? ==> r == Err(EventNotFound)
    ensures userId.Some? && event.Some? && quantity > event.value.capacidad ==> r == Err(NotEnoughTickets)
    ensures r.Ok? <==> (userId.Some? && event.Some? && quantity <= event.value.capacidad && reply.Ok())
    ensures userId.Some? && event.Some? && quantity <= event.value.capacidad && !reply.Ok() ==>
      r == Err(ServiceFailure("Failed to create purchase: ", reply))
    ensures r.Ok? ==> r.value == ToPurchase(reply.record, event.value.precio)
  {
    if userId.None? then Err(MustSignIn)
    else if event.None? then Err(EventNotFound)
    else if quantity > event.value.capacidad then Err(NotEnoughTickets)
    else if !reply.Ok() then Err(ServiceFailure("Failed to create purchase: ", reply))
    else Ok(ToPurchase(reply.record, event.value.precio))
  }

  /** What paying decides: where the purchase sits, what it becomes and
      the event it is for. */
  datatype Payment = Payment(index: nat, purchase: Purchase, event: RemoteEvents.Event)

  /** `processPurchase` up to its effects: the purchase must be known
      locally, the service must accept the payment, and the event the
      service names must be fetched. */
  function PayIn(ps: seq<Purchase>, id: string, reply: ServiceReply, event: Option<RemoteEvents.Event>)
    : (r: Result<Payment>)
    ensures GetPurchase(ps, id).None? ==> r == Err(PurchaseNotFound)
    ensures GetPurchase(ps, id).Some? && !reply.Ok() ==>
      r == Err(ServiceFailure("Failed to process payment: ", reply))
    ensures GetPurchase(ps, id).Some? && reply.Ok() && event.None? ==> r == Err(EventNotFound)
    ensures r.Ok? <==> (GetPurchase(ps, id).Some? && reply.Ok() && event.Some?)
    ensures r.Ok? ==>
      && r.value.index < |ps| && ps[r.value.index] == GetPurchase(ps, id).value
      && (forall i :: 0 <= i < r.value.index ==> ps[i].id != id)
      && r.value.purchase == ToPurchase(reply.record, event.value.precio)
      && r.value.event == event.value
  {
    match FirstIndex(ps, WithId(id))
    case None => Err(PurchaseNotFound)
    case Some(k) =>
      if !reply.Ok() then Err(ServiceFailure("Failed to process payment: ", reply))
      else if event.None? then Err(EventNotFound)
      else Ok(Payment(k, ToPurchase(reply.record, event.value.precio), event.value))
  }

  /** The capacity update sent after a payment: the event's capacity less
      the quantity bought. */
  function CapacityPatch(p: Payment): RemoteEvents.EventPatch
  {
    RemoteEvents.EventPatch(None, None, None, Some(p.event.capacidad - p.purchase.quantity), None)
  }

  /** The confirmation sent to the buyer. */
  function ConfirmationFor(userId: string, p: Payment): Notice
  {
    Notice(userId, "purchase_confirmation", "Tu compra se completó",
           "Has comprado " + IntToString(p.purchase.quantity) + " boleto(s) para \"" + p.event.nombre + "\".",
           IntToString(p.event.id), p.purchase.id)
  }

  /** The confirmation names the paid purchase and its event. */
  lemma ConfirmationNamesPurchase(userId: string, p: Payment)
    ensures ConfirmationFor(userId, p).purchaseId == p.purchase.id
    ensures NumberOf(ConfirmationFor(userId, p).eventId) == Some(p.event.id)
    ensures ConfirmationFor(userId, p).userId == userId
    ensures ConfirmationFor(userId, p).kind == "purchase_confirmation"
  {
    NumberOfIntToString(p.event.id);
  }

  class PurchaseStore {
    var purchases: seq<Purchase>
    var error: Option<string>
    /** The entry under 'purchases', absent until the first write. */
    ghost var persisted: Option<seq<Purchase>>
    const catalog: RemoteEvents.EventStore

    ghost predicate Valid()
      reads this
    {
      if persisted.Some? then persisted.value == purchases else purchases == []
    }

    /** Mounting the provider loads the stored list, if any. */
    constructor (stored: Option<seq<Purchase>>, catalog: RemoteEvents.EventStore)
      ensures Valid() && error == None && persisted == stored && this.catalog == catalog
      ensures purchases == if stored.Some? then stored.value else []
    {
      purchases := if stored.Some? then stored.value else [];
      persisted := stored;
      error := None;
      this.catalog := catalog;
    }

    /** `createPurchase`: a signed-in buyer's request fetches the event
        (refreshing the catalogue's cache), checks the quantity against its
        capacity, posts the request and appends the purchase the service
        returns. Failures record their message and are passed on. */
    method CreatePurchase(userId: Option<string>, eventId: int, quantity: int,
                          eventReply: Reply<RemoteEvents.EventRecord>, postReply: ServiceReply)
      returns (sent: Option<PurchaseRequest>, r: Result<Purchase>)
      requires Valid()
      modifies this, catalog
      ensures Valid()
      ensures r == CreateIn(userId, RemoteEvents.Fetched(eventReply), quantity, postReply)
      ensures userId.None? ==> catalog.events == old(catalog.events) && catalog.error == old(catalog.error)
      ensures userId.Some? ==>
        catalog.events == RemoteEvents.AfterFetch(old(catalog.events), eventId, eventReply)
        && catalog.error == RemoteEvents.FetchError(eventId, eventReply)
      ensures sent.Some? <==> (userId.Some? && eventReply.Ok() && quantity <= eventReply.body.capacidad)
      ensures sent.Some? ==> sent.value == PurchaseRequest(eventId, quantity)
      ensures r.Ok? ==> purchases == old(purchases) + [r.value] && error == None
      ensures r.Err? ==>
        purchases == old(purchases) && error == Some(OrElse(r.message, "Failed to create purchase"))
    {
      error := None;
      sent := None;
      var event: Option<RemoteEvents.Event> := None;
      if userId.Some? {
        event := catalog.GetEvent(eventId, eventReply);
        if event.Some? && quantity <= event.value.capacidad {
          sent := Some(PurchaseRequest(eventId, quantity));
        }
      }
      r := CreateIn(userId, event, quantity, postReply);
      if r.Ok? {
        purchases := purchases + [r.value];
        persisted := Some(purchases);
      } else {
        error := Some(OrElse(r.message, "Failed to create purchase"));
      }
    }

    /** `processPurchase`: the payment request goes out only for a known
        purchase; the event is fetched only once the service accepted it.
        A payment replaces the purchase with the service's record, sends the
        capacity update, and notifies a signed-in buyer; when that
        notification fails the purchase stays replaced but the error is
        recorded and nothing is returned. */
    method ProcessPurchase(id: string, userId: Option<string>, putReply: ServiceReply,
                           eventReply: Reply<RemoteEvents.EventRecord>,
                           patchReply: Reply<RemoteEvents.EventRecord>, notifyError: Option<string>)
      returns (patchSent: Option<(int, RemoteEvents.EventPatch)>, notice: Option<Notice>, r: Option<Purchase>)
      requires Valid()
      modifies this, catalog
      ensures Valid()
      ensures var pay := PayIn(old(purchases), id, putReply, RemoteEvents.Fetched(eventReply));
        && (pay.Err? ==> purchases == old(purchases) && r == None && patchSent == None && notice == None
                         && error == Some(OrElse(pay.message, "Failed to process purchase")))
        && (pay.Ok? ==> purchases == old(purchases)[pay.value.index := pay.value.purchase]
                        && patchSent == Some((pay.value.event.id, CapacityPatch(pay.value)))
                        && notice == (if userId.Some? then Some(ConfirmationFor(userId.value, pay.value)) else None))
        && (pay.Ok? && (userId.None? || notifyError.None?) ==> r == Some(pay.value.purchase) && error == None)
        && (pay.Ok? && userId.Some? && notifyError.Some? ==>
              r == None && error == Some(OrElse(notifyError.value, "Failed to process purchase")))
      ensures !(GetPurchase(old(purchases), id).Some? && putReply.Ok()) ==>
        catalog.events == old(catalog.events) && catalog.error == old(catalog.error)
      ensures GetPurchase(old(purchases), id).Some? && putReply.Ok() ==>
        var fetched := RemoteEvents.AfterFetch(old(catalog.events), putReply.record.eventoId, eventReply);
        && (!eventReply.Ok() ==>
              catalog.events == fetched
              && catalog.error == RemoteEvents.FetchError(putReply.record.eventoId, eventReply))
        && (eventReply.Ok() ==>
              catalog.events == RemoteEvents.AfterUpdate(fetched, eventReply.body.id, patchReply)
              && catalog.error == RemoteEvents.UpdateError(patchReply))
    {
      error := None;
      patchSent := None;
      notice := None;
      r := None;
      var k := FirstIndex(purchases, WithId(id));
      var event: Option<RemoteEvents.Event> := None;
      if k.Some? && putReply.Ok() {
        event := catalog.GetEvent(putReply.record.eventoId, eventReply);
      }
      var pay := PayIn(purchases, id, putReply, event);
      if pay.Err? {
        error := Some(OrElse(pay.message, "Failed to process purchase"));
        return;
      }
      patchSent, notice, r := Settle(pay.value, userId, patchReply, notifyError);
    }

    /** The effects of an accepted payment, in the order `processPurchase`
        performs them. */
    method Settle(p: Payment, userId: Option<string>, patchReply: Reply<RemoteEvents.EventRecord>,
                  notifyError: Option<string>)
      returns (patchSent: Option<(int, RemoteEvents.EventPatch)>, notice: Option<Notice>, r: Option<Purchase>)
      requires Valid() && p.index < |purchases|
      modifies this, catalog
      ensures Valid()
      ensures purchases == old(purchases)[p.index := p.purchase]
      ensures patchSent == Some((p.event.id, CapacityPatch(p)))
      ensures catalog.events == RemoteEvents.AfterUpdate(old(catalog.events), p.event.id, patchReply)
      ensures catalog.error == RemoteEvents.UpdateError(patchReply)
      ensures notice == if userId.Some? then Some(ConfirmationFor(userId.value, p)) else None
      ensures userId.None? || notifyError.None? ==> r == Some(p.purchase) && error == None
      ensures userId.Some? && notifyError.Some? ==>
        r == None && error == Some(OrElse(notifyError.value, "Failed to process purchase"))
    {
      error := None;
      purchases := purchases[p.index := p.purchase];
      persisted := Some(purchases);
      var _ := catalog.UpdateEvent(p.event.id, CapacityPatch(p), patchReply);
      patchSent := Some((p.event.id, CapacityPatch(p)));
      notice := None;
      if userId.Some? {
        notice := Some(ConfirmationFor(userId.value, p));
        if notifyError.Some? {
          error := Some(OrElse(notifyError.value, "Failed to process purchase"));
          r := None;
          return;
        }
      }
      r := Some(p.purchase);
    }

    /** `cancelPurchase`: the same local rule as the simulated store. */
    method CancelPurchase(id: string) returns (ok: bool)
      requires Valid()
      modifies this
      ensures Valid()
      ensures match CancelIn(old(purchases), id)
        case Err(m) => !ok && purchases == old(purchases) && error == Some(m)
        case Ok(updated) => ok && purchases == updated && error == None
    {
      error := None;
      match CancelIn(purchases, id)
      case Err(m) =>
        error := Some(m);
        ok := false;
      case Ok(updated) =>
        purchases := updated;
        persisted := Some(purchases);
        ok := true;
    }
  }
}
