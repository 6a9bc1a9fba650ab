/** The purchase page of the simulated storefront (src/pages/Purchase.tsx):
    the buyer chooses a quantity from the offered options, the pending
    purchase is created, the card form is checked and the payment is
    processed. The page's calls into the purchase store are represented by
    their outcomes, which the store's own model determines. */
module SimPurchasePage {
  import opened Common
  import opened Wizard
  import Purchases
  import Session
  import SimEvents
  import SimPurchases

  const FillAll := "Please fill in all payment details"
  const BadCardNumber := "Please enter a valid card number"
  const BadCvv := "Please enter a valid CVV"

  /** The quantities the selector offers: 1 up to the smaller of 10 and
      the tickets remaining. A negative number remaining makes the array
      constructor throw, so the page has nothing to render (`None`). */
  function QuantityOptions(remaining: int): (r: Option<seq<int>>)
    ensures r.None? <==> remaining < 0
    ensures r.Some? ==> |r.value| == Min(10, remaining)
    ensures r.Some? ==> forall i :: 0 <= i < |r.value| ==> r.value[i] == i + 1
  {
    if remaining < 0 then None
    else Some(seq(Min(10, remaining), i => i + 1))
  }

  /** Every offered quantity is between 1 and 10 and within the tickets
      remaining, and every such quantity is offered. */
  lemma QuantityOptionsSpec(remaining: int, q: int)
    requires remaining >= 0
    ensures q in QuantityOptions(remaining).value <==> 1 <= q <= 10 && q <= remaining
  {
    var opts := QuantityOptions(remaining).value;
    if 1 <= q <= 10 && q <= remaining {
      assert opts[q - 1] == q;
    }
  }

  /** A quantity taken from the selector passes the store's checks for a
      signed-in buyer, as long as the event is still in the catalogue and
      nothing was sold in between. */
  lemma OfferedQuantityAccepted(events: seq<SimEvents.Event>, user: Session.User, eventId: string,
                                q: int, newId: string, now: string)
    requires SimEvents.GetEvent(events, eventId).Some?
    requires SimEvents.Remaining(SimEvents.GetEvent(events, eventId).value) >= 0
    requires q in QuantityOptions(SimEvents.Remaining(SimEvents.GetEvent(events, eventId).value)).value
    ensures SimPurchases.CreateIn(events, Some(user), eventId, q, newId, now).Ok?
  {
    QuantityOptionsSpec(SimEvents.Remaining(SimEvents.GetEvent(events, eventId).value), q);
  }

  /** A sold-out event offers no quantity, and the store refuses every
      quantity of at least one for it. */
  lemma SoldOutOffersNothing(events: seq<SimEvents.Event>, user: Session.User, eventId: string,
                             q: int, newId: string, now: string)
    requires SimEvents.GetEvent(events, eventId).Some?
    requires SimEvents.SoldOut(SimEvents.GetEvent(events, eventId).value)
    requires q >= 1
    ensures var opts := QuantityOptions(SimEvents.Remaining(SimEvents.GetEvent(events, eventId).value));
      opts.None? || opts.value == []
    ensures SimPurchases.CreateIn(events, Some(user), eventId, q, newId, now) == Err(SimPurchases.NotEnoughTickets)
  {
  }

  /** The first rule of `handleProcessPayment` the card form breaks:
      every field filled, a card number of at least 16 characters, a CVV of
      at least 3. */
  function PaymentError(d: PaymentDetails): (r: Option<string>)
    ensures r.None? <==> Filled(d) && |d.cardNumber| >= 16 && |d.cvv| >= 3
    ensures r == Some(FillAll) <==> !Filled(d)
    ensures r == Some(BadCardNumber) <==> Filled(d) && |d.cardNumber| < 16
    ensures r == Some(BadCvv) <==> Filled(d) && |d.cardNumber| >= 16 && |d.cvv| < 3
  {
    if !Filled(d) then Some(FillAll)
    else if |d.cardNumber| < 16 then Some(BadCardNumber)
    else if |d.cvv| < 3 then Some(BadCvv)
    else None
  }

  class PurchaseWizard {
    /** The route's event id and the event as the catalogue holds it. */
    const eventId: string
    const event: SimEvents.Event
    var quantity: int
    var step: Step
    var purchaseId: Option<string>
    var details: PaymentDetails
    var formError: string

    /** The quantity is at least one, and past the first step a purchase
        has been created. */
    ghost predicate Valid()
      reads this
    {
      quantity >= 1 && (step != SelectTickets ==> purchaseId.Some?)
    }

    constructor (eventId: string, event: SimEvents.Event)
      ensures Valid() && this.eventId == eventId && this.event == event
      ensures quantity == 1 && step == SelectTickets && purchaseId == None
      ensures details == EmptyDetails && formError == ""
    {
      this.eventId := eventId;
      this.event := event;
      quantity := 1;
      step := SelectTickets;
      purchaseId := None;
      details := EmptyDetails;
      formError := "";
    }

    /** The tickets remaining and the total shown. */
    function TicketsRemaining(): int
      reads this
    {
      SimEvents.Remaining(event)
    }

    function TotalPrice(): real
      reads this
    {
      event.ticketPrice * quantity as real
    }

    /** `handleQuantityChange`: the selector only yields offered options. */
    method ChangeQuantity(choice: int)
      requires Valid()
      requires QuantityOptions(TicketsRemaining()).Some?
      requires choice in QuantityOptions(TicketsRemaining()).value
      modifies this
      ensures Valid() && quantity == choice
      ensures step == old(step) && purchaseId == old(purchaseId)
      ensures details == old(details) && formError == old(formError)
    {
      QuantityOptionsSpec(TicketsRemaining(), choice);
      quantity := choice;
    }

    /** `handleContinueToPayment`: asks the store for a purchase of the
        current quantity (`requested`); `created` is what it answers. */
    method ContinueToPayment(created: Result<Purchases.Purchase>) returns (requested: (string, int))
      requires Valid()
      modifies this
      ensures Valid()
      ensures requested == (eventId, old(quantity))
      ensures created.Ok? ==> step == Payment && purchaseId == Some(created.value.id)
      ensures created.Err? ==> step == old(step) && purchaseId == old(purchaseId)
      ensures quantity == old(quantity) && details == old(details) && formError == old(formError)
    {
      requested := (eventId, quantity);
      if created.Ok? {
        purchaseId := Some(created.value.id);
        step := Payment;
      }
    }

    /** `handleProcessPayment`: the first broken rule is shown and nothing
        is sent; otherwise, when a purchase with a non-empty id exists, the store processes it
        with the card details (`called`) and a returned purchase moves to
        the confirmation. */
    method ProcessPayment(processed: Option<Purchases.Purchase>) returns (called: bool)
      requires Valid()
      modifies this
      ensures Valid()
      ensures called <==> PaymentError(details).None? && purchaseId.Some? && purchaseId.value != ""
      ensures formError == if PaymentError(details).Some? then PaymentError(details).value else ""
      ensures step == if called && processed.Some? then Confirmation else old(step)
      ensures quantity == old(quantity) && purchaseId == old(purchaseId) && details == old(details)
    {
      formError := "";
      called := false;
      if !Filled(details) {
        formError := FillAll;
        return;
      }
      if |details.cardNumber| < 16 {
        formError := BadCardNumber;
        return;
      }
      if |details.cvv| < 3 {
        formError := BadCvv;
        return;
      }
      if purchaseId.Some? && purchaseId.value != "" {
        called := true;
        if processed.Some? {
          step := Confirmation;
        }
      }
    }

    /** Typing in the card form. */
    method EditDetails(d: PaymentDetails)
      requires Valid()
      modifies this
      ensures Valid() && details == d
      ensures quantity == old(quantity) && step == old(step) && purchaseId == old(purchaseId)
      ensures formError == old(formError)
    {
      details := d;
    }

    /** The "back" button of the payment step. */
    method Back()
      requires Valid()
      modifies this
      ensures Valid() && step == SelectTickets
      ensures quantity == old(quantity) && purchaseId == old(purchaseId)
      ensures details == old(details) && formError == old(formError)
    {
      step := SelectTickets;
    }
  }
}
