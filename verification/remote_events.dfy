/** The catalogue backed by the events service
    (frontend/src/context/EventContext.tsx): a cached list of events that
    each request refreshes from the service's reply. Nothing is persisted. */
module RemoteEvents {
  import opened Common
  import opened Text

  /** An event as the client keeps it; `fecha` is the ISO date text. */
  datatype Event = Event(id: int, nombre: string, fecha: string, lugar: string, capacidad: int, precio: real)

  /** An event as the service sends it, with its bookkeeping dates. */
  datatype EventRecord = EventRecord(
    id: int, nombre: string, fecha: string, lugar: string, capacidad: int, precio: real,
    createdAt: string, updatedAt: string)

  /** The fields sent when creating an event (an event without its id). */
  datatype EventData = EventData(nombre: string, fecha: string, lugar: string, capacidad: int, precio: real)

  /** The fields sent when updating an event; absent ones are not sent. */
  datatype EventPatch = EventPatch(
    nombre: Option<string>, fecha: Option<string>, lugar: Option<string>,
    capacidad: Option<int>, precio: Option<real>)

  /** The mapping every request applies to a service record: the
      bookkeeping dates are dropped. */
  function ToEvent(r: EventRecord): (e: Event)
    ensures e.id == r.id && e.nombre == r.nombre && e.fecha == r.fecha && e.lugar == r.lugar
    ensures e.capacidad == r.capacidad && e.precio == r.precio
  {
    Event(r.id, r.nombre, r.fecha, r.lugar, r.capacidad, r.precio)
  }

  function ToEvents(rs: seq<EventRecord>): (es: seq<Event>)
    ensures |es| == |rs| && forall j :: 0 <= j < |rs| ==> es[j] == ToEvent(rs[j])
  {
    seq(|rs|, j requires 0 <= j < |rs| => ToEvent(rs[j]))
  }

  /** The message recorded for a failed request: the prefix followed by the
      status when the service answered, the thrown error's message when the
      request itself failed. */
  function Failure<T>(prefix: string, reply: Reply<T>): string
  {
    if reply.Answered? then prefix + IntToString(reply.status) else reply.message
  }

  /** The detail page's sold-out rule: no capacity left. */
  predicate SoldOut(e: Event)
  {
    e.capacidad <= 0
  }

  function WithId(id: int): Event -> bool { (e: Event) => e.id == id }

  function WithoutId(id: int): Event -> bool { (e: Event) => e.id != id }

  /** How `getEvent` refreshes the cache with a fetched event: every cached
      event with the requested id is replaced; when there is none, the
      fetched event is appended. */
  function Upsert(events: seq<Event>, id: int, e: Event): (r: seq<Event>)
    ensures (exists j :: 0 <= j < |events| && events[j].id == id) ==> r == ReplaceWhere(events, WithId(id), e)
    ensures (forall j :: 0 <= j < |events| ==> events[j].id != id) ==> r == events + [e]
  {
    if exists j :: 0 <= j < |events| && events[j].id == id then ReplaceWhere(events, WithId(id), e)
    else events + [e]
  }

  /** When the service returns the event that was asked for, the cache
      afterwards holds it, and it is the only version of that id there. */
  lemma UpsertHolds(events: seq<Event>, id: int, e: Event)
    requires e.id == id
    ensures e in Upsert(events, id, e)
    ensures forall j :: 0 <= j < |Upsert(events, id, e)| && Upsert(events, id, e)[j].id == id
                        ==> Upsert(events, id, e)[j] == e
    ensures forall j :: 0 <= j < |events| && events[j].id != id ==> events[j] in Upsert(events, id, e)
  {
    var r := Upsert(events, id, e);
    if exists j :: 0 <= j < |events| && events[j].id == id {
      var j :| 0 <= j < |events| && events[j].id == id;
      assert r[j] == e;
      forall i | 0 <= i < |events| && events[i].id != id
        ensures events[i] in r
      {
        assert r[i] == events[i];
      }
    } else {
      assert r[|events|] == e;
      forall i | 0 <= i < |events| && events[i].id != id
        ensures events[i] in r
      {
        assert r[i] == events[i];
      }
    }
  }

  /** Fetching the same event twice leaves the cache as fetching it once. */
  lemma UpsertIdempotent(events: seq<Event>, id: int, e: Event)
    requires e.id == id
    ensures Upsert(Upsert(events, id, e), id, e) == Upsert(events, id, e)
  {
    var r := Upsert(events, id, e);
    UpsertHolds(events, id, e);
    var j :| 0 <= j < |r| && r[j] == e;
    assert r[j].id == id;
    assert ReplaceWhere(r, WithId(id), e) == r;
  }

  /** What `getEvent` yields for a reply. */
  function Fetched(reply: Reply<EventRecord>): (r: Option<Event>)
    ensures r.Some? <==> reply.Ok()
    ensures r.Some? ==> r.value == ToEvent(reply.body)
  {
    if reply.Ok() then Some(ToEvent(reply.body)) else None
  }

  /** The cache after a `getEvent` request. */
  function AfterFetch(events: seq<Event>, id: int, reply: Reply<EventRecord>): seq<Event>
  {
    if reply.Ok() then Upsert(events, id, ToEvent(reply.body)) else events
  }

  /** The error `getEvent` leaves recorded. */
  function FetchError(id: int, reply: Reply<EventRecord>): Option<string>
  {
    if reply.Ok() then None else Some(Failure("Error fetching event " + IntToString(id) + ": ", reply))
  }

  /** The cache after an `updateEvent` request. */
  function AfterUpdate(events: seq<Event>, id: int, reply: Reply<EventRecord>): seq<Event>
  {
    if reply.Ok() then ReplaceWhere(events, WithId(id), ToEvent(reply.body)) else events
  }

  /** The error `updateEvent` leaves recorded. */
  function UpdateError(reply: Reply<EventRecord>): Option<string>
  {
    if reply.Ok() then None else Some(Failure("Failed to update event: ", reply))
  }

  class EventStore {
    var events: seq<Event>
    var error: Option<string>

    /** The provider starts with an empty cache. */
    constructor ()
      ensures events == [] && error == None
    {
      events := [];
      error := None;
    }

    /** The fetch run on mount: a successful reply replaces the cache with
        the mapped list; anything else records its message. */
    method Load(reply: Reply<seq<EventRecord>>)
      modifies this
      ensures reply.Ok() ==> events == ToEvents(reply.body) && error == None
      ensures !reply.Ok() ==>
        events == old(events) && error == Some(Failure("Error fetching events: ", reply))
    {
      error := None;
      if reply.Ok() {
        events := ToEvents(reply.body);
      } else {
        error := Some(Failure("Error fetching events: ", reply));
      }
    }

    /** `getEvent`: the fetched event, cached by the requested id; a failure
        records its message and yields nothing. */
    method GetEvent(id: int, reply: Reply<EventRecord>) returns (r: Option<Event>)
      modifies this
      ensures r == Fetched(reply) && events == AfterFetch(old(events), id, reply)
      ensures error == FetchError(id, reply)
    {
      error := None;
      if reply.Ok() {
        var e := ToEvent(reply.body);
        events := Upsert(events, id, e);
        r := Some(e);
      } else {
        error := Some(Failure("Error fetching event " + IntToString(id) + ": ", reply));
        r := None;
      }
    }

    /** `createEvent`: only the status 201 counts as success; the created
        event is appended. On failure the message is recorded and the error
        is passed on to the caller. */
    method CreateEvent(data: EventData, reply: Reply<EventRecord>) returns (r: Result<Event>)
      modifies this
      ensures reply.Answered? && reply.status == 201 ==>
        r == Ok(ToEvent(reply.body)) && events == old(events) + [r.value] && error == None
      ensures !(reply.Answered? && reply.status == 201) ==>
        r == Err(Failure("Failed to create event: ", reply)) && events == old(events) && error == Some(r.message)
    {
      error := None;
      if reply.Answered? && reply.status == 201 {
        var e := ToEvent(reply.body);
        events := events + [e];
        r := Ok(e);
      } else {
        r := Err(Failure("Failed to create event: ", reply));
        error := Some(r.message);
      }
    }

    /** `updateEvent`: the patch is sent; a successful reply replaces every
        cached event with the id by the returned event. */
    method UpdateEvent(id: int, patch: EventPatch, reply: Reply<EventRecord>) returns (r: Option<Event>)
      modifies this
      ensures r == Fetched(reply) && error == UpdateError(reply)
      ensures events == AfterUpdate(old(events), id, reply)
      ensures reply.Ok() ==> forall j :: 0 <= j < |events| ==>
        events[j] == if old(events)[j].id == id then r.value else old(events)[j]
    {
      error := None;
      if reply.Ok() {
        var e := ToEvent(reply.body);
        events := ReplaceWhere(events, WithId(id), e);
        r := Some(e);
      } else {
        error := Some(Failure("Failed to update event: ", reply));
        r := None;
      }
    }

    /** `deleteEvent`: only the status 204 counts as success; then every
        cached event with the id is dropped. */
    method DeleteEvent(id: int, reply: Reply<()>) returns (ok: bool)
      modifies this
      ensures ok <==> reply.Answered? && reply.status == 204
      ensures ok ==> events == Filter(old(events), WithoutId(id)) && error == None
      ensures ok ==> forall j :: 0 <= j < |events| ==> events[j].id != id
      ensures !ok ==> events == old(events) && error == Some(Failure("Failed to delete event: ", reply))
    {
      error := None;
      if reply.Answered? && reply.status == 204 {
        events := Filter(events, WithoutId(id));
        ok := true;
      } else {
        error := Some(Failure("Failed to delete event: ", reply));
        ok := false;
      }
    }
  }
}
