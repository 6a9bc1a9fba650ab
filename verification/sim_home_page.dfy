/** The home page of the simulated storefront (src/pages/Home.tsx): the
    three earliest events still to come, each with its tickets left.
    `when` maps a date text to its instant and `now` is the current
    instant. */
module SimHomePage {
  import opened Common
  import opened Ordering
  import SimEvents
  import SimEventsPage

  type Event = SimEvents.Event

  function DateKey(when: string -> int): Event -> real
  {
    (e: Event) => when(e.date) as real
  }

  /** Events dated strictly after `now`. */
  function Later(events: seq<Event>, when: string -> int, now: int): (r: seq<Event>)
    ensures forall e :: e in r <==> e in events && when(e.date) > now
  {
    Filter(events, (e: Event) => when(e.date) > now)
  }

  /** The upcoming events: the later events sorted by date, first three. */
  function Upcoming(events: seq<Event>, when: string -> int, now: int): (r: seq<Event>)
    ensures |r| <= 3
    ensures forall e :: e in r ==> e in events && when(e.date) > now
  {
    var later := Later(events, when, now);
    EarliestSpec(later, DateKey(when), 3);
    var r := Earliest(later, DateKey(when), 3);
    assert forall e :: e in r ==> e in multiset(later);
    r
  }

  /** As many upcoming events as there are later ones, up to three, in date
      order, and no later event left out is earlier than one shown. */
  lemma UpcomingSpec(events: seq<Event>, when: string -> int, now: int)
    ensures |Upcoming(events, when, now)| == Min(3, |Later(events, when, now)|)
    ensures forall i, j :: 0 <= i < j < |Upcoming(events, when, now)| ==>
      when(Upcoming(events, when, now)[i].date) <= when(Upcoming(events, when, now)[j].date)
    ensures forall x, y ::
      x in multiset(Upcoming(events, when, now))
      && y in multiset(Later(events, when, now)) - multiset(Upcoming(events, when, now))
      ==> when(x.date) <= when(y.date)
  {
    var later := Later(events, when, now);
    var r := Upcoming(events, when, now);
    EarliestSpec(later, DateKey(when), 3);
    assert r == Earliest(later, DateKey(when), 3);
    forall i, j | 0 <= i < j < |r|
      ensures when(r[i].date) <= when(r[j].date)
    {
      assert DateKey(when)(r[i]) <= DateKey(when)(r[j]);
    }
    forall x, y | x in multiset(r) && y in multiset(later) - multiset(r)
      ensures when(x.date) <= when(y.date)
    {
      assert DateKey(when)(x) <= DateKey(when)(y);
    }
  }

  /** The spinner while loading; otherwise the upcoming cards, possibly
      none. */
  function Render(events: seq<Event>, isLoading: bool, when: string -> int, now: int)
    : (v: Option<seq<SimEventsPage.Card>>)
    ensures v.None? <==> isLoading
    ensures v.Some? ==>
      var shown := Upcoming(events, when, now);
      && |v.value| == |shown|
      && forall j :: 0 <= j < |shown| ==>
           v.value[j].event == shown[j] && v.value[j].ticketsLeft == SimEvents.Remaining(shown[j])
  {
    if isLoading then None
    else
      var shown := Upcoming(events, when, now);
      Some(seq(|shown|, j requires 0 <= j < |shown| => SimEventsPage.Card(shown[j], SimEvents.Remaining(shown[j]))))
  }
}
