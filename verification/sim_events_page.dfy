/** The catalogue page of the simulated storefront (src/pages/Events.tsx):
    every event, narrowed by the search box and sorted by date or price,
    each card showing the tickets left. Date parsing is a parameter `when`
    that maps a date text to its instant. */
module SimEventsPage {
  import opened Common
  import opened Text
  import opened Ordering
  import SimEvents

  type Event = SimEvents.Event

  datatype SortKey = ByDate | ByPrice

  /** The search rule: the term occurs, ignoring case, in the name or the
      location. There is no date filter. */
  predicate Found(e: Event, term: string)
  {
    Matches(e.name, term) || Matches(e.location, term)
  }

  function Searched(events: seq<Event>, term: string): (r: seq<Event>)
    ensures forall e :: e in r <==> e in events && Found(e, term)
  {
    Filter(events, (e: Event) => Found(e, term))
  }

  /** With an empty search box every event is listed. */
  lemma SearchEmptyKeepsAll(events: seq<Event>)
    ensures Searched(events, "") == events
  {
    forall j | 0 <= j < |events|
      ensures Found(events[j], "")
    {
      MatchesEmpty(events[j].name);
    }
    FilterLength(events, (e: Event) => Found(e, ""));
  }

  function Key(k: SortKey, when: string -> int): Event -> real
  {
    if k == ByDate then (e: Event) => when(e.date) as real else (e: Event) => e.ticketPrice
  }

  /** The list the page shows: a sorted copy of the events the search
      keeps; the catalogue itself is a value here and is never reordered. */
  function Listed(events: seq<Event>, term: string, sortBy: SortKey, when: string -> int): (r: seq<Event>)
    ensures SortedBy(r, Key(sortBy, when))
    ensures multiset(r) == multiset(Searched(events, term))
    ensures forall e :: e in r <==> e in events && Found(e, term)
  {
    var s := Searched(events, term);
    var r := SortBy(s, Key(sortBy, when));
    assert forall e :: e in r <==> e in multiset(s);
    r
  }

  /** With an empty search box the list is the whole catalogue, reordered. */
  lemma ListedAllWhenEmpty(events: seq<Event>, sortBy: SortKey, when: string -> int)
    ensures multiset(Listed(events, "", sortBy, when)) == multiset(events)
  {
    SearchEmptyKeepsAll(events);
  }

  /** A card: the event and the tickets-left figure. */
  datatype Card = Card(event: Event, ticketsLeft: int)

  datatype View = Spinner | NoMatches | Cards(cards: seq<Card>)

  function Render(events: seq<Event>, isLoading: bool, term: string, sortBy: SortKey, when: string -> int)
    : (v: View)
    ensures v == Spinner <==> isLoading
    ensures v == NoMatches <==> !isLoading && Listed(events, term, sortBy, when) == []
    ensures v.Cards? ==>
      var listed := Listed(events, term, sortBy, when);
      && |v.cards| == |listed| > 0
      && forall j :: 0 <= j < |listed| ==>
           v.cards[j].event == listed[j] && v.cards[j].ticketsLeft == SimEvents.Remaining(listed[j])
  {
    if isLoading then Spinner
    else
      var listed := Listed(events, term, sortBy, when);
      if listed == [] then NoMatches
      else Cards(seq(|listed|, j requires 0 <= j < |listed| => Card(listed[j], SimEvents.Remaining(listed[j]))))
  }
}
