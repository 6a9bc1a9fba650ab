/** The simulated event catalogue (src/context/EventContext.tsx): one list
    of events, seeded with three sample events on first start, mutated by
    copying the list and written back whole under the storage key 'events'. */
module SimEvents {
  import opened Common

  /** An event; `date` is its ISO date text and `ticketsSold` counts
      completed purchases. */
  datatype Event = Event(
    id: string, name: string, date: string, location: string, description: string,
    capacity: int, ticketPrice: real, imageUrl: string, ticketsSold: int)

  /** The fields an administrator supplies when creating an event. */
  datatype EventDraft = EventDraft(
    name: string, date: string, location: string, description: string,
    capacity: int, ticketPrice: real, imageUrl: string)

  /** A `Partial<Event>`: every field that is present overrides the
      event's, `id` and `ticketsSold` included. */
  datatype EventPatch = EventPatch(
    id: Option<string>, name: Option<string>, date: Option<string>, location: Option<string>,
    description: Option<string>, capacity: Option<int>, ticketPrice: Option<real>,
    imageUrl: Option<string>, ticketsSold: Option<int>)

  const NoChange := EventPatch(None, None, None, None, None, None, None, None, None)

  /** The "tickets left" figure the pages show. */
  function Remaining(e: Event): int { e.capacity - e.ticketsSold }

  /** The event page's sold-out rule. */
  predicate SoldOut(e: Event) { Remaining(e) <= 0 }

  function WithId(id: string): Event -> bool { (e: Event) => e.id == id }

  function WithoutId(id: string): Event -> bool { (e: Event) => e.id != id }

  /** The three sample events installed when nothing is stored. */
  const SampleEvents: seq<Event> := [
    Event("1", "Summer Music Festival", "2023-07-15T18:00:00", "Central Park, New York",
          "Join us for a day of amazing music performances featuring top artists from around the world.",
          5000, 75.0, "https://images.unsplash.com/photo-1501281668745-f7f57925c3b4?ixlib=rb-4.0.3&ixid=M3wxMjA3fDB8MHxwaG90by1wYWdlfHx8fGVufDB8fHx8fA%3D%3D&auto=format&fit=crop&w=1470&q=80", 2150),
    Event("2", "Tech Conference 2023", "2023-09-22T09:00:00", "Convention Center, San Francisco",
          "The biggest tech conference of the year featuring keynotes, workshops, and networking opportunities.",
          2000, 299.0, "https://images.unsplash.com/photo-1540575467063-178a50c2df87?ixlib=rb-4.0.3&ixid=M3wxMjA3fDB8MHxwaG90by1wYWdlfHx8fGVufDB8fHx8fA%3D%3D&auto=format&fit=crop&w=1470&q=80", 1200),
    Event("3", "Comedy Night", "2023-06-30T20:00:00", "Laugh Factory, Los Angeles",
          "A night of laughter with top comedians performing their best stand-up routines.",
          500, 45.0, "https://images.unsplash.com/photo-1610964199131-5e29387e6267?ixlib=rb-4.0.3&ixid=M3wxMjA3fDB8MHxwaG90by1wYWdlfHx8fGVufDB8fHx8fA%3D%3D&auto=format&fit=crop&w=1470&q=80", 350)
  ]

  /** `getEvent`: the first event carrying `id`, if any. */
  function GetEvent(events: seq<Event>, id: string): (r: Option<Event>)
    ensures r.None? <==> forall j :: 0 <= j < |events| ==> events[j].id != id
    ensures r.Some? ==> exists j :: (0 <= j < |events| && events[j] == r.value
      && r.value.id == id && forall i :: 0 <= i < j ==> events[i].id != id)
  {
    match FirstIndex(events, WithId(id))
    case None => None
    case Some(k) => Some(events[k])
  }

  /** The event `createEvent` builds: the draft's fields, a new id and no
      tickets sold. */
  function NewEvent(d: EventDraft, id: string): Event
  {
    Event(id, d.name, d.date, d.location, d.description, d.capacity, d.ticketPrice, d.imageUrl, 0)
  }

  /** `{ ...e, ...patch }`. */
  function ApplyPatch(e: Event, p: EventPatch): Event
  {
    Event(
      if p.id.Some? then p.id.value else e.id,
      if p.name.Some? then p.name.value else e.name,
      if p.date.Some? then p.date.value else e.date,
      if p.location.Some? then p.location.value else e.location,
      if p.description.Some? then p.description.value else e.description,
      if p.capacity.Some? then p.capacity.value else e.capacity,
      if p.ticketPrice.Some? then p.ticketPrice.value else e.ticketPrice,
      if p.imageUrl.Some? then p.imageUrl.value else e.imageUrl,
      if p.ticketsSold.Some? then p.ticketsSold.value else e.ticketsSold)
  }

  /** The list `updateEvent` produces: `None` when no event has the id;
      otherwise the first event with the id is patched and every other
      position is kept. */
  function Patched(events: seq<Event>, id: string, p: EventPatch): (r: Option<seq<Event>>)
    ensures r.None? <==> forall j :: 0 <= j < |events| ==> events[j].id != id
    ensures r.Some? ==> |r.value| == |events|
    ensures r.Some? ==> exists k :: (0 <= k < |events| && events[k].id == id
      && (forall i :: 0 <= i < k ==> events[i].id != id)
      && r.value[k] == ApplyPatch(events[k], p)
      && forall j :: 0 <= j < |events| && j != k ==> r.value[j] == events[j])
  {
    match FirstIndex(events, WithId(id))
    case None => None
    case Some(k) => Some(events[k := ApplyPatch(events[k], p)])
  }

  /** A patch that keeps the id leaves the patched event the one `getEvent`
      finds, now carrying the patch. */
  lemma PatchedThenFound(events: seq<Event>, id: string, p: EventPatch)
    requires GetEvent(events, id).Some?
    requires p.id.None? || p.id == Some(id)
    ensures Patched(events, id, p).Some?
    ensures GetEvent(Patched(events, id, p).value, id) == Some(ApplyPatch(GetEvent(events, id).value, p))
  {
    var k := FirstIndex(events, WithId(id)).value;
    var r := events[k := ApplyPatch(events[k], p)];
    assert Patched(events, id, p) == Some(r);
    assert r[k].id == id;
    assert forall i :: 0 <= i < k ==> r[i] == events[i];
    assert WithId(id)(r[k]);
    assert FirstIndex(r, WithId(id)) == Some(k);
  }

  /** The list `deleteEvent` produces: every event carrying the id is gone,
      and nothing else is. */
  function Removed(events: seq<Event>, id: string): (r: seq<Event>)
    ensures forall j :: 0 <= j < |r| ==> r[j].id != id && r[j] in events
    ensures forall j :: 0 <= j < |events| && events[j].id != id ==> events[j] in r
    ensures |r| == |events| <==> forall j :: 0 <= j < |events| ==> events[j].id != id
  {
    FilterLength(events, WithoutId(id));
    Filter(events, WithoutId(id))
  }

  class EventStore {
    var events: seq<Event>
    var error: Option<string>
    /** The list as last written under 'events'. */
    ghost var persisted: seq<Event>

    ghost predicate Valid()
      reads this
    {
      persisted == events
    }

    /** Mounting the provider: a stored list is loaded as it is; otherwise
        the sample events are installed and written. */
    constructor (stored: Option<seq<Event>>)
      ensures Valid() && error == None
      ensures events == if stored.Some? then stored.value else SampleEvents
    {
      if stored.Some? {
        events := stored.value;
      } else {
        events := SampleEvents;
      }
      persisted := events;
      error := None;
    }

    /** `createEvent`: appends the new event (its id taken fresh) and writes
        the list. */
    method CreateEvent(draft: EventDraft, newId: string) returns (e: Event)
      requires Valid()
      requires forall j :: 0 <= j < |events| ==> events[j].id != newId
      modifies this
      ensures Valid() && error == None
      ensures e == NewEvent(draft, newId) && e.ticketsSold == 0
      ensures events == old(events) + [e]
      ensures GetEvent(events, newId) == Some(e)
    {
      e := NewEvent(draft, newId);
      events := events + [e];
      persisted := events;
      error := None;
      assert events[|events| - 1] == e;
    }

    /** `updateEvent`: an unknown id records "Event not found" and changes
        nothing; otherwise the first event with the id is patched and the
        list written. */
    method UpdateEvent(id: string, patch: EventPatch) returns (r: Option<Event>)
      requires Valid()
      modifies this
      ensures Valid()
      ensures Patched(old(events), id, patch).None? ==>
        r == None && events == old(events) && error == Some("Event not found")
      ensures Patched(old(events), id, patch).Some? ==>
        events == Patched(old(events), id, patch).value && error == None
        && r == Some(ApplyPatch(GetEvent(old(events), id).value, patch))
    {
      error := None;
      var k := FirstIndex(events, WithId(id));
      if k.None? {
        error := Some("Event not found");
        r := None;
      } else {
        var updated := ApplyPatch(events[k.value], patch);
        events := events[k.value := updated];
        persisted := events;
        r := Some(updated);
      }
    }

    /** `deleteEvent`: removes every event with the id; when none matched it
        records "Event not found" and returns false. */
    method DeleteEvent(id: string) returns (ok: bool)
      requires Valid()
      modifies this
      ensures Valid()
      ensures ok <==> exists j :: 0 <= j < |old(events)| && old(events)[j].id == id
      ensures ok ==> events == Removed(old(events), id) && error == None
      ensures !ok ==> events == old(events) && error == Some("Event not found")
    {
      error := None;
      var updated := Removed(events, id);
      if |updated| == |events| {
        FilterLength(events, WithoutId(id));
        error := Some("Event not found");
        ok := false;
      } else {
        events := updated;
        persisted := events;
        ok := true;
      }
    }
  }
}
