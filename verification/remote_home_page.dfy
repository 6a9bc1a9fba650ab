/** The home page of the service-backed storefront
    (frontend/src/pages/Home.tsx): unless the catalogue is loading or
    failed, the three earliest events still to come, each marked when the
    buyer already holds tickets for it. `when` maps a `fecha` text to its
    instant and `now` is the current instant. */
module RemoteHomePage {
  import opened Common
  import opened Ordering
  import Purchases
  import RemoteEvents
  import RemoteEventsPage

  type Event = RemoteEvents.Event

  function DateKey(when: string -> int): Event -> real
  {
    (e: Event) => when(e.fecha) as real
  }

  /** Events dated strictly after `now`. */
  function Later(events: seq<Event>, when: string -> int, now: int): (r: seq<Event>)
    ensures forall e :: e in r <==> e in events && when(e.fecha) > now
  {
    Filter(events, (e: Event) => when(e.fecha) > now)
  }

  /** The upcoming events: the later events sorted by date, first three. */
  function Upcoming(events: seq<Event>, when: string -> int, now: int): (r: seq<Event>)
    ensures |r| <= 3
    ensures forall e :: e in r ==> e in events && when(e.fecha) > now
  {
    var later := Later(events, when, now);
    EarliestSpec(later, DateKey(when), 3);
    var r := Earliest(later, DateKey(when), 3);
    assert forall e :: e in r ==> e in multiset(later);
    r
  }

  /** As many upcoming events as there are later ones, up to three, in date
      order, and no later event left out is earlier than one shown. */
  lemma UpcomingSpec(events: seq<Event>, when: string -> int, now: int)
    ensures |Upcoming(events, when, now)| == Min(3, |Later(events, when, now)|)
    ensures forall i, j :: 0 <= i < j < |Upcoming(events, when, now)| ==>
      when(Upcoming(events, when, now)[i].fecha) <= when(Upcoming(events, when, now)[j].fecha)
    ensures forall x, y ::
      x in multiset(Upcoming(events, when, now))
      && y in multiset(Later(events, when, now)) - multiset(Upcoming(events, when, now))
      ==> when(x.fecha) <= when(y.fecha)
  {
    var later := Later(events, when, now);
    var r := Upcoming(events, when, now);
    EarliestSpec(later, DateKey(when), 3);
    assert r == Earliest(later, DateKey(when), 3);
    forall i, j | 0 <= i < j < |r|
      ensures when(r[i].fecha) <= when(r[j].fecha)
    {
      assert DateKey(when)(r[i]) <= DateKey(when)(r[j]);
    }
    forall x, y | x in multiset(r) && y in multiset(later) - multiset(r)
      ensures when(x.fecha) <= when(y.fecha)
    {
      assert DateKey(when)(x) <= DateKey(when)(y);
    }
  }

  datatype View = Spinner | ErrorNotice(message: string) | NoUpcoming | Cards(cards: seq<RemoteEventsPage.Card>)

  /** What the page shows. Loading and a failed load come before the list;
      an empty error text counts as no error. */
  function Render(events: seq<Event>, isLoading: bool, error: Option<string>, when: string -> int, now: int,
                  ups: seq<Purchases.Purchase>): (v: View)
    ensures v == Spinner <==> isLoading
    ensures v.ErrorNotice? <==> !isLoading && error.Some? && error.value != ""
    ensures v.ErrorNotice? ==> v.message == error.value
    ensures v == NoUpcoming <==>
      (!isLoading && !(error.Some? && error.value != "") && Upcoming(events, when, now) == [])
    ensures v.Cards? ==>
      var shown := Upcoming(events, when, now);
      && |v.cards| == |shown| > 0
      && forall j :: 0 <= j < |shown| ==>
           v.cards[j].event == shown[j]
           && (v.cards[j].purchased <==> RemoteEventsPage.AlreadyPurchased(shown[j], ups))
  {
    if isLoading then Spinner
    else if error.Some? && error.value != "" then ErrorNotice(error.value)
    else
      var shown := Upcoming(events, when, now);
      if shown == [] then NoUpcoming
      else Cards(seq(|shown|, j requires 0 <= j < |shown| =>
                     RemoteEventsPage.Card(shown[j], RemoteEventsPage.AlreadyPurchased(shown[j], ups))))
  }
}
