/** The simulated purchase store (src/context/PurchaseContext.tsx): a
    purchase is created pending after a capacity check, completed by
    processing its payment (which adds its tickets to the event's
    `ticketsSold` and sends the buyer a confirmation), or cancelled while it
    is not completed. The list is written under the storage key 'purchases'. */
module SimPurchases {
  import opened Common
  import opened Text
  import opened Purchases
  import Session
  import SimEvents
  import SimNotifications

  const MustSignIn := "User must be logged in to purchase tickets"
  const EventNotFound := "Event not found"
  const NotEnoughTickets := "Not enough tickets available"

  /** The purchase `createPurchase` builds, or the message it fails with:
      the buyer must be signed in, the event must exist, and the tickets
      already sold plus the quantity must not exceed the capacity. */
  function CreateIn(events: seq<SimEvents.Event>, user: Option<Session.User>, eventId: string,
                    quantity: int, newId: string, now: string): (r: Result<Purchase>)
    ensures user.None? ==> r == Err(MustSignIn)
    ensures user.Some? && SimEvents.GetEvent(events, eventId).None? ==> r == Err(EventNotFound)
    ensures r.Ok? <==> (user.Some? && SimEvents.GetEvent(events, eventId).Some?
      && quantity <= SimEvents.Remaining(SimEvents.GetEvent(events, eventId).value))
    ensures r.Err? && user.Some? && SimEvents.GetEvent(events, eventId).Some? ==> r == Err(NotEnoughTickets)
    ensures r.Ok? ==> var e := SimEvents.GetEvent(events, eventId).value;
      r.value == Purchase(newId, eventId, user.value.id, quantity,
                          e.ticketPrice * quantity as real, now, Pending, None)
  {
    if user.None? then Err(MustSignIn)
    else
      match SimEvents.GetEvent(events, eventId)
      case None => Err(EventNotFound)
      case Some(e) =>
        if e.ticketsSold + quantity > e.capacity then Err(NotEnoughTickets)
        else Ok(Purchase(newId, eventId, user.value.id, quantity,
                         e.ticketPrice * quantity as real, now, Pending, None))
  }

  /** What processing a payment decides: the new purchase list, the
      completed purchase and the event it is for. */
  datatype Settlement = Settlement(purchases: seq<Purchase>, completed: Purchase, event: SimEvents.Event)

  /** `processPurchase` before its effects on the catalogue and the inbox:
      the purchase must exist and so must its event; the first purchase with
      the id becomes completed with the payment id. Its current status is
      not consulted. */
  function SettleIn(ps: seq<Purchase>, events: seq<SimEvents.Event>, id: string, paymentId: string)
    : (r: Result<Settlement>)
    ensures GetPurchase(ps, id).None? ==> r == Err(PurchaseNotFound)
    ensures r.Ok? <==> (GetPurchase(ps, id).Some?
      && SimEvents.GetEvent(events, GetPurchase(ps, id).value.eventId).Some?)
    ensures r.Err? && GetPurchase(ps, id).Some? ==> r == Err(EventNotFound)
    ensures r.Ok? ==> var p := GetPurchase(ps, id).value;
      && r.value.completed == p.(status := Completed, paymentId := Some(paymentId))
      && r.value.event == SimEvents.GetEvent(events, p.eventId).value
      && |r.value.purchases| == |ps|
      && exists k :: (0 <= k < |ps| && ps[k] == p && r.value.purchases[k] == r.value.completed
           && forall j :: 0 <= j < |ps| && j != k ==> r.value.purchases[j] == ps[j])
  {
    match FirstIndex(ps, WithId(id))
    case None => Err(PurchaseNotFound)
    case Some(k) =>
      match SimEvents.GetEvent(events, ps[k].eventId)
      case None => Err(EventNotFound)
      case Some(e) =>
        var done := ps[k].(status := Completed, paymentId := Some(paymentId));
        Ok(Settlement(ps[k := done], done, e))
  }

  /** The patch processing sends to the catalogue. */
  function SoldPatch(sold: int): SimEvents.EventPatch
  {
    SimEvents.NoChange.(ticketsSold := Some(sold))
  }

  /** The event's `ticketsSold` once the settlement is applied. */
  function SoldAfter(s: Settlement): int
  {
    s.event.ticketsSold + s.completed.quantity
  }

  /** The catalogue after a settlement: the event's `ticketsSold` grows by
      the purchase's quantity. */
  function EventsAfter(events: seq<SimEvents.Event>, s: Settlement): Option<seq<SimEvents.Event>>
  {
    SimEvents.Patched(events, s.event.id, SoldPatch(SoldAfter(s)))
  }

  /** The confirmation sent to the buyer. */
  function Confirmation(userId: string, p: Purchase, e: SimEvents.Event): SimNotifications.NotificationDraft
  {
    SimNotifications.NotificationDraft(
      userId, SimNotifications.PurchaseConfirmation, "Purchase Confirmed",
      "Your purchase of " + IntToString(p.quantity) + " ticket(s) for " + e.name + " has been confirmed.",
      Some(e.id), Some(p.id))
  }

  /** After processing, the event the purchase names is found with its
      tickets sold raised by exactly the purchase's quantity, and every
      other event is as it was. */
  lemma SettleAddsSold(ps: seq<Purchase>, events: seq<SimEvents.Event>, id: string, paymentId: string)
    requires SettleIn(ps, events, id, paymentId).Ok?
    ensures var s := SettleIn(ps, events, id, paymentId).value;
      && EventsAfter(events, s).Some?
      && SimEvents.GetEvent(EventsAfter(events, s).value, s.completed.eventId).Some?
      && SimEvents.GetEvent(EventsAfter(events, s).value, s.completed.eventId).value.ticketsSold
         == s.event.ticketsSold + s.completed.quantity
      && |EventsAfter(events, s).value| == |events|
      && forall j :: 0 <= j < |events| && events[j].id != s.completed.eventId ==>
           EventsAfter(events, s).value[j] == events[j]
  {
    var s := SettleIn(ps, events, id, paymentId).value;
    var eid := s.completed.eventId;
    assert s.event.id == eid;
    SimEvents.PatchedThenFound(events, eid, SoldPatch(SoldAfter(s)));
  }

  /** Processing does not look at the status: a purchase processed twice is
      completed both times and its tickets are added to the event twice. */
  lemma SettleTwiceCountsTwice(ps: seq<Purchase>, events: seq<SimEvents.Event>, id: string,
                               pay1: string, pay2: string)
    requires SettleIn(ps, events, id, pay1).Ok?
    ensures var s1 := SettleIn(ps, events, id, pay1).value;
      && EventsAfter(events, s1).Some?
      && SettleIn(s1.purchases, EventsAfter(events, s1).value, id, pay2).Ok?
      && var s2 := SettleIn(s1.purchases, EventsAfter(events, s1).value, id, pay2).value;
         s2.completed.quantity == s1.completed.quantity
         && s2.event.ticketsSold == SoldAfter(s1)
  {
    var s1 := SettleIn(ps, events, id, pay1).value;
    SettleAddsSold(ps, events, id, pay1);
    var k := FirstIndex(ps, WithId(id)).value;
    assert s1.purchases == ps[k := s1.completed];
    FirstIndexUpdate(ps, WithId(id), k, s1.completed);
    var es1 := EventsAfter(events, s1).value;
    assert SimEvents.GetEvent(es1, s1.purchases[k].eventId).Some?;
    var s2 := SettleIn(s1.purchases, es1, id, pay2).value;
    assert s2.event == SimEvents.GetEvent(es1, s1.completed.eventId).value;
  }

  /** A pending purchase reserves nothing: when one ticket is left, two
      purchases of one ticket both pass the capacity check, and processing
      both leaves the event with one ticket more sold than its capacity. */
  lemma PendingPurchasesCanOversell(e: SimEvents.Event, u: Session.User, id1: string, id2: string,
                                    pay1: string, pay2: string, now: string)
    requires SimEvents.Remaining(e) == 1 && id1 != id2
    ensures && CreateIn([e], Some(u), e.id, 1, id1, now).Ok?
            && CreateIn([e], Some(u), e.id, 1, id2, now).Ok?
    ensures var ps := [CreateIn([e], Some(u), e.id, 1, id1, now).value,
                       CreateIn([e], Some(u), e.id, 1, id2, now).value];
      && SettleIn(ps, [e], id1, pay1).Ok?
      && EventsAfter([e], SettleIn(ps, [e], id1, pay1).value).Some?
      && var s1 := SettleIn(ps, [e], id1, pay1).value;
         var es1 := EventsAfter([e], s1).value;
         && SettleIn(s1.purchases, es1, id2, pay2).Ok?
         && SoldAfter(SettleIn(s1.purchases, es1, id2, pay2).value) == e.capacity + 1
  {
    assert [e][0].id == e.id;
    var p1 := CreateIn([e], Some(u), e.id, 1, id1, now).value;
    var p2 := CreateIn([e], Some(u), e.id, 1, id2, now).value;
    var ps := [p1, p2];
    assert ps[0].id == id1 && ps[1].id == id2;
    assert forall j :: 0 <= j < |ps| ==> ps[j].eventId == e.id;
    assert GetPurchase(ps, id1).value.eventId == e.id;
    SettleAddsSold(ps, [e], id1, pay1);
    var s1 := SettleIn(ps, [e], id1, pay1).value;
    var es1 := EventsAfter([e], s1).value;
    assert s1.completed.eventId == e.id;
    assert s1.purchases[1] == p2;
    assert forall j :: 0 <= j < |s1.purchases| ==> s1.purchases[j].eventId == e.id;
    assert SimEvents.GetEvent(es1, e.id).value.ticketsSold == e.ticketsSold + 1;
    assert GetPurchase(s1.purchases, id2).value.eventId == e.id;
  }

  class PurchaseStore {
    var purchases: seq<Purchase>
    var error: Option<string>
    /** The entry under 'purchases', absent until the first write. */
    ghost var persisted: Option<seq<Purchase>>
    const catalog: SimEvents.EventStore
    const inbox: SimNotifications.NotificationStore

    ghost predicate Valid()
      reads this, catalog, inbox
    {
      (if persisted.Some? then persisted.value == purchases else purchases == [])
      && catalog.Valid() && inbox.Valid()
    }

    /** Mounting the provider loads the stored list, if any. */
    constructor (stored: Option<seq<Purchase>>, catalog: SimEvents.EventStore,
                 inbox: SimNotifications.NotificationStore)
      requires catalog.Valid() && inbox.Valid()
      ensures Valid() && error == None && persisted == stored
      ensures this.catalog == catalog && this.inbox == inbox
      ensures purchases == if stored.Some? then stored.value else []
    {
      purchases := if stored.Some? then stored.value else [];
      persisted := stored;
      error := None;
      this.catalog := catalog;
      this.inbox := inbox;
    }

    /** `createPurchase`: on success the pending purchase is appended and
        the list written; otherwise the message is recorded. The catalogue
        is not touched: nothing is reserved. */
    method CreatePurchase(user: Option<Session.User>, eventId: string, quantity: int,
                          newId: string, now: string) returns (r: Result<Purchase>)
      requires Valid()
      modifies this
      ensures Valid()
      ensures r == CreateIn(catalog.events, user, eventId, quantity, newId, now)
      ensures r.Ok? ==> purchases == old(purchases) + [r.value] && error == None
      ensures r.Err? ==> purchases == old(purchases) && error == Some(r.message)
    {
      error := None;
      r := CreateIn(catalog.events, user, eventId, quantity, newId, now);
      if r.Ok? {
        purchases := purchases + [r.value];
        persisted := Some(purchases);
      } else {
        error := Some(r.message);
      }
    }

    /** `processPurchase`: completes the purchase, writes the list, raises
        the event's `ticketsSold` by the quantity and, when someone is
        signed in, sends them the confirmation. Failures record their
        message and change nothing. */
    method ProcessPurchase(id: string, user: Option<Session.User>, paymentId: string,
                           notificationId: string, now: string) returns (r: Option<Purchase>)
      requires Valid()
      modifies this, catalog, inbox
      ensures Valid()
      ensures match SettleIn(old(purchases), old(catalog.events), id, paymentId)
        case Err(m) =>
          r == None && error == Some(m) && purchases == old(purchases)
          && catalog.events == old(catalog.events) && inbox.notifications == old(inbox.notifications)
          && catalog.error == old(catalog.error) && inbox.error == old(inbox.error)
        case Ok(s) =>
          r == Some(s.completed) && error == None && purchases == s.purchases
          && EventsAfter(old(catalog.events), s) == Some(catalog.events)
          && catalog.error == None
          && inbox.error == (if user.Some? then None else old(inbox.error))
          && inbox.notifications == (if user.Some? then
               [SimNotifications.NewNotification(Confirmation(user.value.id, s.completed, s.event),
                                                 notificationId, now)] + old(inbox.notifications)
             else old(inbox.notifications))
    {
      var outcome := SettleIn(purchases, catalog.events, id, paymentId);
      if outcome.Err? {
        error := Some(outcome.message);
        r := None;
      } else {
        SettleAddsSold(purchases, catalog.events, id, paymentId);
        Apply(outcome.value, user, notificationId, now);
        r := Some(outcome.value.completed);
      }
    }

    /** The effects of a successful settlement, in the order
        `processPurchase` performs them. */
    method Apply(s: Settlement, user: Option<Session.User>, notificationId: string, now: string)
      requires Valid()
      modifies this, catalog, inbox
      ensures Valid()
      ensures error == None && purchases == s.purchases
      ensures EventsAfter(old(catalog.events), s).Some? ==> EventsAfter(old(catalog.events), s) == Some(catalog.events)
      ensures EventsAfter(old(catalog.events), s).None? ==> catalog.events == old(catalog.events)
      ensures catalog.error == if EventsAfter(old(catalog.events), s).Some? then None else Some("Event not found")
      ensures inbox.error == if user.Some? then None else old(inbox.error)
      ensures inbox.notifications == if user.Some? then
          [SimNotifications.NewNotification(Confirmation(user.value.id, s.completed, s.event),
                                            notificationId, now)] + old(inbox.notifications)
        else old(inbox.notifications)
    {
      Record(s.purchases, s.event.id, SoldAfter(s));
      if user.Some? {
        var _ := inbox.Send(Confirmation(user.value.id, s.completed, s.event), notificationId, now);
      }
    }

    /** The first two effects of a settlement: the list is written and the
        event's sales are set to `sold`; the catalogue's update leaves the
        list alone when no event has the id. */
    method Record(purchases': seq<Purchase>, eventId: string, sold: int)
      requires Valid()
      modifies this, catalog
      ensures Valid()
      ensures error == None && purchases == purchases'
      ensures SimEvents.Patched(old(catalog.events), eventId, SoldPatch(sold)).Some? ==>
        SimEvents.Patched(old(catalog.events), eventId, SoldPatch(sold)) == Some(catalog.events)
      ensures SimEvents.Patched(old(catalog.events), eventId, SoldPatch(sold)).None? ==>
        catalog.events == old(catalog.events)
      ensures catalog.error == if SimEvents.Patched(old(catalog.events), eventId, SoldPatch(sold)).Some?
        then None else Some("Event not found")
    {
      error := None;
      purchases := purchases';
      persisted := Some(purchases);
      var _ := catalog.UpdateEvent(eventId, SoldPatch(sold));
    }

    /** `cancelPurchase`: refuses an unknown id and a completed purchase
        with their messages; otherwise marks it cancelled and writes the
        list. */
    method CancelPurchase(id: string) returns (ok: bool)
      requires Valid()
      modifies this
      ensures Valid()
      ensures match CancelIn(old(purchases), id)
        case Err(m) => !ok && purchases == old(purchases) && error == Some(m)
        case Ok(updated) => ok && purchases == updated && error == None
    {
      error := None;
      match CancelIn(purchases, id)
      case Err(m) =>
        error := Some(m);
        ok := false;
      case Ok(updated) =>
        purchases := updated;
        persisted := Some(purchases);
        ok := true;
    }
  }
}
