/** The catalogue page of the service-backed storefront
    (frontend/src/pages/Events.tsx): the events still to come, narrowed by
    the search box, sorted by date or price, each card showing either a
    buy link or a mark for an event the buyer already holds tickets for.
    Date parsing is a parameter `when` that maps a `fecha` text to its
    instant; `today` is the current instant. */
module RemoteEventsPage {
  import opened Common
  import opened Text
  import opened Ordering
  import Purchases
  import RemoteEvents
  import RemotePurchases

  type Event = RemoteEvents.Event

  datatype SortKey = ByDate | ByPrice

  /** The sort button switches between the two orders. */
  function Toggle(k: SortKey): (r: SortKey)
    ensures r != k
  {
    if k == ByDate then ByPrice else ByDate
  }

  /** Events dated at or after `today`. */
  function Future(events: seq<Event>, when: string -> int, today: int): (r: seq<Event>)
    ensures forall e :: e in r <==> e in events && when(e.fecha) >= today
  {
    Filter(events, (e: Event) => when(e.fecha) >= today)
  }

  /** The search rule: the term occurs, ignoring case, in the name or the
      place. */
  predicate Found(e: Event, term: string)
  {
    Matches(e.nombre, term) || Matches(e.lugar, term)
  }

  function Searched(events: seq<Event>, term: string): (r: seq<Event>)
    ensures forall e :: e in r <==> e in events && Found(e, term)
  {
    Filter(events, (e: Event) => Found(e, term))
  }

  /** With an empty search box nothing is filtered out. */
  lemma SearchEmptyKeepsAll(events: seq<Event>)
    ensures Searched(events, "") == events
  {
    forall j | 0 <= j < |events|
      ensures Found(events[j], "")
    {
      MatchesEmpty(events[j].nombre);
    }
    FilterLength(events, (e: Event) => Found(e, ""));
  }

  /** The comparison key of each order. */
  function Key(k: SortKey, when: string -> int): Event -> real
  {
    if k == ByDate then (e: Event) => when(e.fecha) as real else (e: Event) => e.precio
  }

  /** The list the page shows: every future event the search keeps, each
      once per occurrence, in the chosen order. */
  function Listed(events: seq<Event>, term: string, sortBy: SortKey, when: string -> int, today: int)
    : (r: seq<Event>)
    ensures SortedBy(r, Key(sortBy, when))
    ensures multiset(r) == multiset(Searched(Future(events, when, today), term))
    ensures forall e :: e in r <==> e in events && when(e.fecha) >= today && Found(e, term)
  {
    var s := Searched(Future(events, when, today), term);
    var r := SortBy(s, Key(sortBy, when));
    assert forall e :: e in r <==> e in multiset(s);
    r
  }

  /** The event ids the buyer holds purchases for: the purchase's event id
      read as a number; a text that is not a number contributes nothing any
      event id could equal. */
  function PurchasedIds(ups: seq<Purchases.Purchase>): set<int>
  {
    set p | p in ups && NumberOf(p.eventId).Some? :: NumberOf(p.eventId).value
  }

  predicate AlreadyPurchased(e: Event, ups: seq<Purchases.Purchase>)
  {
    e.id in PurchasedIds(ups)
  }

  /** An event is marked exactly when one of the buyer's purchases names
      it. */
  lemma AlreadyPurchasedIff(e: Event, ups: seq<Purchases.Purchase>)
    ensures AlreadyPurchased(e, ups) <==> exists j :: 0 <= j < |ups| && NumberOf(ups[j].eventId) == Some(e.id)
  {
    if AlreadyPurchased(e, ups) {
      var p :| p in ups && NumberOf(p.eventId).Some? && NumberOf(p.eventId).value == e.id;
      var j :| 0 <= j < |ups| && ups[j] == p;
      assert NumberOf(ups[j].eventId) == Some(e.id);
    }
    if exists j :: 0 <= j < |ups| && NumberOf(ups[j].eventId) == Some(e.id) {
      var j :| 0 <= j < |ups| && NumberOf(ups[j].eventId) == Some(e.id);
      assert ups[j] in ups;
    }
  }

  /** A purchase the store built from the service's record for this event
      marks the event on the page. */
  lemma StoredPurchaseMarksEvent(e: Event, rec: RemotePurchases.PurchaseRecord, precio: real,
                                 ups: seq<Purchases.Purchase>)
    requires rec.eventoId == e.id
    requires RemotePurchases.ToPurchase(rec, precio) in ups
    ensures AlreadyPurchased(e, ups)
  {
    var p := RemotePurchases.ToPurchase(rec, precio);
    var j :| 0 <= j < |ups| && ups[j] == p;
    AlreadyPurchasedIff(e, ups);
  }

  /** A card: the event, and whether it shows the "already purchased" mark
      in place of the buy link. */
  datatype Card = Card(event: Event, purchased: bool)

  datatype View = Spinner | ErrorNotice(message: string) | NoMatches | Cards(cards: seq<Card>)

  /** What the list area shows. An empty error text counts as no error. */
  function Render(events: seq<Event>, isLoading: bool, error: Option<string>, term: string,
                  sortBy: SortKey, when: string -> int, today: int, ups: seq<Purchases.Purchase>)
    : (v: View)
    ensures v == Spinner <==> isLoading
    ensures v.ErrorNotice? <==> !isLoading && error.Some? && error.value != ""
    ensures v.ErrorNotice? ==> v.message == error.value
    ensures v == NoMatches <==>
      (!isLoading && !(error.Some? && error.value != "") && Listed(events, term, sortBy, when, today) == [])
    ensures v.Cards? ==>
      var listed := Listed(events, term, sortBy, when, today);
      && |v.cards| == |listed| > 0
      && forall j :: 0 <= j < |listed| ==>
           v.cards[j].event == listed[j] && (v.cards[j].purchased <==> AlreadyPurchased(listed[j], ups))
  {
    if isLoading then Spinner
    else if error.Some? && error.value != "" then ErrorNotice(error.value)
    else
      var listed := Listed(events, term, sortBy, when, today);
      if listed == [] then NoMatches
      else Cards(seq(|listed|, j requires 0 <= j < |listed| => Card(listed[j], AlreadyPurchased(listed[j], ups))))
  }
}
