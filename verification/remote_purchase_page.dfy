/** The purchase page of the service-backed storefront
    (frontend/src/pages/Purchase.tsx): the buyer picks a quantity, the
    purchase is created, the card form is checked and the payment is
    processed. The page's calls into the purchase store are represented by
    their outcomes, which the store's own model determines. */
module RemotePurchasePage {
  import opened Common
  import opened Wizard
  import Purchases
  import RemoteEvents
  import RemotePurchases

  const CardIncomplete := "Por favor completa todos los datos de la tarjeta."

  /** `handleQuantityChange`: `parsed` is the integer read from the field,
      `None` when it is not a number. Not a number gives 1; anything else is
      clamped to [1, capacidad]. */
  function ClampQuantity(parsed: Option<int>, capacidad: int): (q: int)
    ensures q >= 1
    ensures parsed.None? ==> q == 1
    ensures parsed.Some? && 1 <= parsed.value <= capacidad ==> q == parsed.value
    ensures parsed.Some? && capacidad >= 1 && parsed.value > capacidad ==> q == capacidad
    ensures parsed.Some? && (parsed.value < 1 || capacidad < 1) ==> q == 1
    ensures capacidad >= 1 ==> q <= capacidad
  {
    if parsed.None? then 1 else Max(1, Min(parsed.value, capacidad))
  }

  /** Typing the quantity the field already shows changes nothing. */
  lemma ClampStable(parsed: Option<int>, capacidad: int)
    ensures ClampQuantity(Some(ClampQuantity(parsed, capacidad)), capacidad) == ClampQuantity(parsed, capacidad)
  {
  }

  /** Whatever the buyer types, the quantity the page then requests passes
      the store's capacity check while the event has a seat left, so the
      purchase is created exactly when the service accepts it; once the
      event is sold out, the request is refused. */
  lemma ClampedQuantityChecked(parsed: Option<int>, userId: string, e: RemoteEvents.Event,
                               reply: RemotePurchases.ServiceReply)
    ensures var r := RemotePurchases.CreateIn(Some(userId), Some(e), ClampQuantity(parsed, e.capacidad), reply);
      && (!RemoteEvents.SoldOut(e) ==> (r.Ok? <==> reply.Ok()))
      && (RemoteEvents.SoldOut(e) ==> r == Err(RemotePurchases.NotEnoughTickets))
  {
  }

  class PurchaseWizard {
    /** The event being bought, from the route. */
    const eventId: int
    const capacidad: int
    const precio: real
    var quantity: int
    var step: Step
    var purchaseId: Option<string>
    var details: PaymentDetails
    var formError: string

    /** The quantity is at least one, and past the first step a purchase
        has been created. */
    ghost predicate Valid()
      reads this
    {
      quantity >= 1 && (step != SelectTickets ==> purchaseId.Some?)
    }

    /** The page once the event has loaded. */
    constructor (eventId: int, capacidad: int, precio: real)
      ensures Valid()
      ensures this.eventId == eventId && this.capacidad == capacidad && this.precio == precio
      ensures quantity == 1 && step == SelectTickets && purchaseId == None
      ensures details == EmptyDetails && formError == ""
    {
      this.eventId := eventId;
      this.capacidad := capacidad;
      this.precio := precio;
      quantity := 1;
      step := SelectTickets;
      purchaseId := None;
      details := EmptyDetails;
      formError := "";
    }

    /** The total shown: the event's price times the quantity. */
    function TotalPrice(): real
      reads this
    {
      precio * quantity as real
    }

    method ChangeQuantity(parsed: Option<int>)
      requires Valid()
      modifies this
      ensures Valid()
      ensures quantity == ClampQuantity(parsed, capacidad)
      ensures step == old(step) && purchaseId == old(purchaseId)
      ensures details == old(details) && formError == old(formError)
    {
      quantity := ClampQuantity(parsed, capacidad);
    }

    /** `handleContinueToPayment`: asks the store for a purchase of the
        current quantity (`requested`); `created` is what the store answers.
        A created purchase moves to the payment step; a failure is left to
        the store's error and the page stays where it is. */
    method ContinueToPayment(created: Result<Purchases.Purchase>) returns (requested: (int, int))
      requires Valid()
      modifies this
      ensures Valid()
      ensures requested == (eventId, old(quantity)) && requested.1 >= 1
      ensures created.Ok? ==> step == Payment && purchaseId == Some(created.value.id)
      ensures created.Err? ==> step == old(step) && purchaseId == old(purchaseId)
      ensures quantity == old(quantity) && details == old(details) && formError == old(formError)
    {
      requested := (eventId, quantity);
      if created.Ok? {
        purchaseId := Some(created.value.id);
        step := Payment;
      }
    }

    /** `handleProcessPayment`: an incomplete card form is refused with its
        message; otherwise, when a purchase with a non-empty id exists, the store processes it
        (`called`) and a returned purchase moves to the confirmation. */
    method ProcessPayment(processed: Option<Purchases.Purchase>) returns (called: bool)
      requires Valid()
      modifies this
      ensures Valid()
      ensures called <==> Filled(details) && purchaseId.Some? && purchaseId.value != ""
      ensures formError == if Filled(details) then "" else CardIncomplete
      ensures step == if called && processed.Some? then Confirmation else old(step)
      ensures quantity == old(quantity) && purchaseId == old(purchaseId) && details == old(details)
    {
      formError := "";
      called := false;
      if !Filled(details) {
        formError := CardIncomplete;
        return;
      }
      if purchaseId.Some? && purchaseId.value != "" {
        called := true;
        if processed.Some? {
          step := Confirmation;
        }
      }
    }

    /** Typing in the card form. */
    method EditDetails(d: PaymentDetails)
      requires Valid()
      modifies this
      ensures Valid() && details == d
      ensures quantity == old(quantity) && step == old(step) && purchaseId == old(purchaseId)
      ensures formError == old(formError)
    {
      details := d;
    }

    /** The "back" button of the payment step. */
    method Back()
      requires Valid()
      modifies this
      ensures Valid() && step == SelectTickets
      ensures quantity == old(quantity) && purchaseId == old(purchaseId)
      ensures details == old(details) && formError == old(formError)
    {
      step := SelectTickets;
    }
  }
}
