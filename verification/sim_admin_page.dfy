/** The event administration page of the simulated storefront
    (src/pages/AdminDashboard.tsx): one form used both to create an event
    and to edit one, checked before it is handed to the catalogue. */
module SimAdminPage {
  import opened Common
  import SimEvents

  /** The form's fields. */
  datatype EventForm = EventForm(
    name: string, date: string, location: string, description: string,
    capacity: int, ticketPrice: real, imageUrl: string)

  /** Empty texts, a capacity of 100 and a free ticket. */
  const DefaultForm := EventForm("", "", "", "", 100, 0.0, "")

  const NameRequired := "Event name is required"
  const DateRequired := "Event date is required"
  const LocationRequired := "Event location is required"
  const DescriptionRequired := "Event description is required"
  const CapacityNotPositive := "Capacity must be greater than 0"
  const PriceNegative := "Ticket price cannot be negative"
  const ImageRequired := "Image URL is required"

  /** Every rule of `validateForm` holds. */
  predicate Acceptable(f: EventForm)
  {
    f.name != "" && f.date != "" && f.location != "" && f.description != ""
    && f.capacity > 0 && f.ticketPrice >= 0.0 && f.imageUrl != ""
  }

  /** `validateForm`: the message of the first rule the form breaks, in the
      order name, date, location, description, capacity, price, image. */
  function Validate(f: EventForm): (r: Option<string>)
    ensures r.None? <==> Acceptable(f)
    ensures r == Some(NameRequired) <==> f.name == ""
    ensures r == Some(DateRequired) <==> f.name != "" && f.date == ""
    ensures r == Some(LocationRequired) <==> f.name != "" && f.date != "" && f.location == ""
    ensures r == Some(DescriptionRequired) <==>
      f.name != "" && f.date != "" && f.location != "" && f.description == ""
    ensures r == Some(CapacityNotPositive) <==>
      f.name != "" && f.date != "" && f.location != "" && f.description != "" && f.capacity <= 0
    ensures r == Some(PriceNegative) <==>
      (f.name != "" && f.date != "" && f.location != "" && f.description != "" && f.capacity > 0
       && f.ticketPrice < 0.0)
    ensures r == Some(ImageRequired) <==>
      (f.name != "" && f.date != "" && f.location != "" && f.description != "" && f.capacity > 0
       && f.ticketPrice >= 0.0 && f.imageUrl == "")
  {
    if f.name == "" then Some(NameRequired)
    else if f.date == "" then Some(DateRequired)
    else if f.location == "" then Some(LocationRequired)
    else if f.description == "" then Some(DescriptionRequired)
    else if f.capacity <= 0 then Some(CapacityNotPositive)
    else if f.ticketPrice < 0.0 then Some(PriceNegative)
    else if f.imageUrl == "" then Some(ImageRequired)
    else None
  }

  /** The form handed to `createEvent`. */
  function DraftOf(f: EventForm): SimEvents.EventDraft
  {
    SimEvents.EventDraft(f.name, f.date, f.location, f.description, f.capacity, f.ticketPrice, f.imageUrl)
  }

  /** The form handed to `updateEvent`: its seven fields, nothing else. */
  function PatchOf(f: EventForm): SimEvents.EventPatch
  {
    SimEvents.EventPatch(None, Some(f.name), Some(f.date), Some(f.location), Some(f.description),
                         Some(f.capacity), Some(f.ticketPrice), Some(f.imageUrl), None)
  }

  /** `handleEditClick`'s copy of an event into the form; `format` is the
      date reformatting for the date-time input. */
  function FormOf(e: SimEvents.Event, format: string -> string): EventForm
  {
    EventForm(e.name, format(e.date), e.location, e.description, e.capacity, e.ticketPrice, e.imageUrl)
  }

  /** An event created from an accepted form has seats on sale at a price
      that is not negative. */
  lemma AcceptedFormIsBookable(f: EventForm, id: string)
    requires Validate(f).None?
    ensures !SimEvents.SoldOut(SimEvents.NewEvent(DraftOf(f), id))
    ensures SimEvents.NewEvent(DraftOf(f), id).ticketPrice >= 0.0
  {
  }

  /** Saving an edited form changes the event's descriptive fields to the
      form's and keeps its id and its tickets sold. */
  lemma EditKeepsSales(e: SimEvents.Event, f: EventForm)
    ensures var u := SimEvents.ApplyPatch(e, PatchOf(f));
      && u.id == e.id && u.ticketsSold == e.ticketsSold
      && u.name == f.name && u.date == f.date && u.location == f.location
      && u.description == f.description && u.capacity == f.capacity
      && u.ticketPrice == f.ticketPrice && u.imageUrl == f.imageUrl
  {
  }

  /** Editing an event and saving the unchanged form restores every field
      but the date, which goes through `format`. */
  lemma EditRoundTrip(e: SimEvents.Event, format: string -> string)
    ensures SimEvents.ApplyPatch(e, PatchOf(FormOf(e, format))) == e.(date := format(e.date))
  {
  }

  /** The catalogue after saving an edit of `id`. */
  function AfterEdit(events: seq<SimEvents.Event>, id: string, f: EventForm): seq<SimEvents.Event>
  {
    var p := SimEvents.Patched(events, id, PatchOf(f));
    if p.Some? then p.value else events
  }

  class AdminForm {
    const store: SimEvents.EventStore
    var form: EventForm
    var isCreating: bool
    /** The id being edited; the empty id counts as none. */
    var isEditing: Option<string>
    var formError: string

    ghost predicate Valid()
      reads this, store
    {
      store.Valid()
    }

    constructor (store: SimEvents.EventStore)
      requires store.Valid()
      ensures Valid() && this.store == store
      ensures form == DefaultForm && !isCreating && isEditing == None && formError == ""
    {
      this.store := store;
      form := DefaultForm;
      isCreating := false;
      isEditing := None;
      formError := "";
    }

    /** `resetForm`. */
    method ResetForm()
      requires Valid()
      modifies this
      ensures Valid() && form == DefaultForm && formError == ""
      ensures isCreating == old(isCreating) && isEditing == old(isEditing)
    {
      form := DefaultForm;
      formError := "";
    }

    /** `handleCreateClick`: a fresh form in create mode. */
    method CreateClick()
      requires Valid()
      modifies this
      ensures Valid() && form == DefaultForm && formError == ""
      ensures isCreating && isEditing == None
    {
      ResetForm();
      isCreating := true;
      isEditing := None;
    }

    /** `handleEditClick`: an id the catalogue does not hold changes
        nothing; otherwise the event is copied into the form in edit mode. */
    method EditClick(id: string, format: string -> string)
      requires Valid()
      modifies this
      ensures Valid() && formError == old(formError)
      ensures SimEvents.GetEvent(store.events, id).None? ==>
        form == old(form) && isCreating == old(isCreating) && isEditing == old(isEditing)
      ensures SimEvents.GetEvent(store.events, id).Some? ==>
        form == FormOf(SimEvents.GetEvent(store.events, id).value, format)
        && isEditing == Some(id) && !isCreating
    {
      var found := SimEvents.GetEvent(store.events, id);
      if found.Some? {
        form := FormOf(found.value, format);
        isEditing := Some(id);
        isCreating := false;
      }
    }

    /** `handleSubmit`: a form that breaks a rule shows its message and
        reaches no store operation. Otherwise create mode creates the event
        (under the fresh id `newId`) and leaves create mode; edit mode with
        a non-empty id updates that event and leaves edit mode; either way
        the form is reset. */
    method Submit(newId: string)
      requires Valid()
      requires forall j :: 0 <= j < |store.events| ==> store.events[j].id != newId
      modifies this, store
      ensures Valid()
      ensures Validate(old(form)).Some? ==>
        formError == Validate(old(form)).value && form == old(form)
        && isCreating == old(isCreating) && isEditing == old(isEditing)
        && store.events == old(store.events) && store.error == old(store.error)
      ensures Validate(old(form)).None? ==> form == DefaultForm && formError == ""
      ensures Validate(old(form)).None? && old(isCreating) ==>
        store.events == old(store.events) + [SimEvents.NewEvent(DraftOf(old(form)), newId)]
        && store.error == None && !isCreating && isEditing == old(isEditing)
      ensures Validate(old(form)).None? && !old(isCreating) && old(isEditing).Some? && old(isEditing).value != "" ==>
        store.events == AfterEdit(old(store.events), old(isEditing).value, old(form))
        && store.error == (if SimEvents.Patched(old(store.events), old(isEditing).value, PatchOf(old(form))).Some?
                           then None else Some("Event not found"))
        && isEditing == None && !isCreating
      ensures Validate(old(form)).None? && !old(isCreating) && !(old(isEditing).Some? && old(isEditing).value != "") ==>
        store.events == old(store.events) && store.error == old(store.error)
        && isEditing == old(isEditing) && !isCreating
    {
      var invalid := Validate(form);
      if invalid.Some? {
        formError := invalid.value;
        return;
      }
      if isCreating {
        var _ := store.CreateEvent(DraftOf(form), newId);
        isCreating := false;
      } else if isEditing.Some? && isEditing.value != "" {
        var _ := store.UpdateEvent(isEditing.value, PatchOf(form));
        isEditing := None;
      }
      ResetForm();
    }
  }
}
