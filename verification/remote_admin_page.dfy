/** The event administration page of the service-backed storefront
    (frontend/src/pages/AdminDashboard.tsx): one form used both to create
    an event and to edit one, checked before it is sent through the
    catalogue store. The service's reply to the store's request is a
    parameter. */
module RemoteAdminPage {
  import opened Common
  import RemoteEvents

  datatype EventForm = EventForm(nombre: string, fecha: string, lugar: string, capacidad: int, precio: real)

  /** Empty texts, a capacity of 1 and a free ticket. */
  const DefaultForm := EventForm("", "", "", 1, 0.0)

  const NombreRequired := "Nombre es requerido"
  const FechaRequired := "Fecha es requerida"
  const LugarRequired := "Lugar es requerido"
  const CapacidadNotPositive := "Capacidad debe ser mayor a 0"
  const PrecioNegative := "Precio no puede ser negativo"
  const SaveFailed := "Error al guardar el evento."

  /** Every rule of `validateForm` holds. */
  predicate Acceptable(f: EventForm)
  {
    f.nombre != "" && f.fecha != "" && f.lugar != "" && f.capacidad > 0 && f.precio >= 0.0
  }

  /** `validateForm`: the message of the first rule the form breaks, in the
      order name, date, place, capacity, price. */
  function Validate(f: EventForm): (r: Option<string>)
    ensures r.None? <==> Acceptable(f)
    ensures r == Some(NombreRequired) <==> f.nombre == ""
    ensures r == Some(FechaRequired) <==> f.nombre != "" && f.fecha == ""
    ensures r == Some(LugarRequired) <==> f.nombre != "" && f.fecha != "" && f.lugar == ""
    ensures r == Some(CapacidadNotPositive) <==> f.nombre != "" && f.fecha != "" && f.lugar != "" && f.capacidad <= 0
    ensures r == Some(PrecioNegative) <==>
      f.nombre != "" && f.fecha != "" && f.lugar != "" && f.capacidad > 0 && f.precio < 0.0
  {
    if f.nombre == "" then Some(NombreRequired)
    else if f.fecha == "" then Some(FechaRequired)
    else if f.lugar == "" then Some(LugarRequired)
    else if f.capacidad <= 0 then Some(CapacidadNotPositive)
    else if f.precio < 0.0 then Some(PrecioNegative)
    else None
  }

  /** The form sent to `createEvent`. */
  function DataOf(f: EventForm): RemoteEvents.EventData
  {
    RemoteEvents.EventData(f.nombre, f.fecha, f.lugar, f.capacidad, f.precio)
  }

  /** The form sent to `updateEvent`: all five fields. */
  function PatchOf(f: EventForm): RemoteEvents.EventPatch
  {
    RemoteEvents.EventPatch(Some(f.nombre), Some(f.fecha), Some(f.lugar), Some(f.capacidad), Some(f.precio))
  }

  /** `handleEditClick`'s copy of an event into the form; `format` is the
      date reformatting for the date-time input. */
  function FormOf(e: RemoteEvents.Event, format: string -> string): EventForm
  {
    EventForm(e.nombre, format(e.fecha), e.lugar, e.capacidad, e.precio)
  }

  /** The first cached event with the id (`events.find`). */
  function Find(events: seq<RemoteEvents.Event>, id: int): (r: Option<RemoteEvents.Event>)
    ensures r.None? <==> forall j :: 0 <= j < |events| ==> events[j].id != id
    ensures r.Some? ==> exists k :: (0 <= k < |events| && r.value == events[k] && r.value.id == id
      && forall j :: 0 <= j < k ==> events[j].id != id)
  {
    match FirstIndex(events, RemoteEvents.WithId(id))
    case None => None
    case Some(k) => Some(events[k])
  }

  /** An event whose form is accepted is not sold out, and a form copied
      from an event passes the capacity and price rules exactly when the
      event is on sale at a price that is not negative. */
  lemma AcceptedFormOnSale(e: RemoteEvents.Event, format: string -> string)
    ensures Acceptable(FormOf(e, format)) ==> !RemoteEvents.SoldOut(e)
    ensures (e.nombre != "" && format(e.fecha) != "" && e.lugar != "") ==>
      (Validate(FormOf(e, format)).None? <==> !RemoteEvents.SoldOut(e) && e.precio >= 0.0)
  {
  }

  class AdminForm {
    const store: RemoteEvents.EventStore
    var form: EventForm
    var isCreating: bool
    /** The id being edited; any number, 0 included, counts. */
    var isEditing: Option<int>
    var formError: string

    constructor (store: RemoteEvents.EventStore)
      ensures this.store == store
      ensures form == DefaultForm && !isCreating && isEditing == None && formError == ""
    {
      this.store := store;
      form := DefaultForm;
      isCreating := false;
      isEditing := None;
      formError := "";
    }

    /** `resetForm`: the defaults, and no message. */
    method ResetForm()
      modifies this
      ensures form == DefaultForm && formError == ""
      ensures isCreating == old(isCreating) && isEditing == old(isEditing)
    {
      form := DefaultForm;
      formError := "";
    }

    /** `handleCreateClick`: a fresh form in create mode. */
    method CreateClick()
      modifies this
      ensures form == DefaultForm && formError == ""
      ensures isCreating && isEditing == None
    {
      ResetForm();
      isCreating := true;
      isEditing := None;
    }

    /** `handleEditClick`: an id the cache does not hold changes nothing;
        otherwise the event is copied into the form in edit mode. */
    method EditClick(id: int, format: string -> string)
      modifies this
      ensures formError == old(formError)
      ensures Find(store.events, id).None? ==>
        form == old(form) && isCreating == old(isCreating) && isEditing == old(isEditing)
      ensures Find(store.events, id).Some? ==>
        form == FormOf(Find(store.events, id).value, format) && isEditing == Some(id) && !isCreating
    {
      var found := Find(store.events, id);
      if found.None? {
        return;
      }
      form := FormOf(found.value, format);
      isEditing := Some(id);
      isCreating := false;
    }

    /** `handleSubmit`: a form that breaks a rule shows its message and
        sends nothing. In create mode the event is created; a refusal is
        thrown back to the page, which keeps the form open with
        "Error al guardar el evento.". In edit mode the update is sent, and
        since a failed update is not thrown the form closes whatever the
        reply. When the form closes, both modes end and it is reset. */
    method Submit(reply: Reply<RemoteEvents.EventRecord>)
      modifies this, store
      ensures Validate(old(form)).Some? ==>
        formError == Validate(old(form)).value && form == old(form)
        && isCreating == old(isCreating) && isEditing == old(isEditing)
        && store.events == old(store.events) && store.error == old(store.error)
      ensures Validate(old(form)).None? && old(isCreating) && !(reply.Answered? && reply.status == 201) ==>
        formError == SaveFailed && form == old(form) && isCreating && isEditing == old(isEditing)
        && store.events == old(store.events)
        && store.error == Some(RemoteEvents.Failure("Failed to create event: ", reply))
      ensures Validate(old(form)).None? && old(isCreating) && reply.Answered? && reply.status == 201 ==>
        store.events == old(store.events) + [RemoteEvents.ToEvent(reply.body)] && store.error == None
        && form == DefaultForm && formError == "" && !isCreating && isEditing == None
      ensures Validate(old(form)).None? && !old(isCreating) ==>
        form == DefaultForm && formError == "" && !isCreating && isEditing == None
      ensures Validate(old(form)).None? && !old(isCreating) && old(isEditing).Some? ==>
        store.events == RemoteEvents.AfterUpdate(old(store.events), old(isEditing).value, reply)
        && store.error == RemoteEvents.UpdateError(reply)
      ensures Validate(old(form)).None? && !old(isCreating) && old(isEditing).None? ==>
        store.events == old(store.events) && store.error == old(store.error)
    {
      var invalid := Validate(form);
      if invalid.Some? {
        formError := invalid.value;
        return;
      }
      if isCreating {
        var created := store.CreateEvent(DataOf(form), reply);
        if created.Err? {
          formError := SaveFailed;
          return;
        }
      } else if isEditing.Some? {
        var _ := store.UpdateEvent(isEditing.value, PatchOf(form), reply);
      }
      isCreating := false;
      isEditing := None;
      ResetForm();
    }
  }
}
