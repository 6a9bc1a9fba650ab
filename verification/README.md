# Ticket storefront: stores and page rules

This project models the core of FrontMicroservicios, a React ticket storefront. It comes in two
variants.

- **The simulated storefront** (`src/`). Its stores keep events, purchases and notifications in
  the browser's local storage. They seed three sample events and complete payments locally.
- **The service-backed storefront** (`frontend/`). Its event store is a cache in front of an
  events service. Its purchase store posts to a purchases service, records each accepted
  purchase locally and sends a capacity update after each payment.

Both variants share the same pages: a catalogue with search and sorting, a home page listing the
three earliest upcoming events, a three-step purchase wizard, and an admin form for creating and
editing events. The service-backed variant adds a sign-up page. Sessions come from a bearer
token whose middle part carries the user's claims.

How the model is built:

- Each store is a class with `seq` fields. Its methods change the fields as the store's functions
  do.
- Every change is specified against a pure function of the old state, such as `Patched`,
  `MarkedRead`, `CancelIn`, `SettleIn`, `PayIn` or `Upsert`. The lemmas state what those
  functions preserve or guarantee.
- Local storage is a ghost field. The store's `Valid()` predicate ties it to the list it mirrors.
- Everything the code gets from outside is a parameter. This covers service replies, fresh ids,
  the clock, date parsing (`when`), the token decoder, and the outcome of a notification
  request.
- The pages are modelled in two ways. Their pure computations (filters, sorts, views, validation)
  are functions. Their event handlers are methods on small classes holding the page's state.

Module layout: `Common` holds Option, Result, Reply and the list helpers. `Text` holds lower
casing, `includes`, `split`, and number-to-text and text-to-number conversion. `Ordering` holds
the sort by a numeric key and the first-k selection. `Purchases` holds the purchase record
that both purchase stores share. Then comes one module per source file.

## Model

| member | source | states |
|---|---|---|
| Text.IncludesAt | src/pages/Events.tsx:13 | `includes` holds exactly when the needle occurs at some position of the text |
| Text.MatchesEmpty | frontend/src/pages/Events.tsx:21-24 | an empty search term matches every text |
| Text.SplitCount | src/context/AuthContext.tsx:58-59 | `split('.')` yields one more piece than there are dots |
| Text.SplitJoin | src/context/AuthContext.tsx:58 | splitting the join of dot-free pieces gives back the pieces |
| Text.JoinSplit | src/context/AuthContext.tsx:58 | joining the pieces of a split with the separator gives back the text |
| Text.NumberOfIntToString | frontend/src/context/PurchaseContext.tsx:131 | `Number(String(n)) == n` for every integer |
| Text.IntToStringInjective | frontend/src/pages/Events.tsx:36-38 | distinct event ids have distinct texts |
| Ordering.SortBy | src/pages/Events.tsx:15-21 | the sorted copy is a permutation of the list and is non-decreasing by the key |
| Ordering.EarliestSpec | src/pages/Home.tsx:11 | `sort().slice(0, k)` keeps min(k, n) elements, in order, and none left out is smaller than one kept |
| Session.DecodeToken | src/context/AuthContext.tsx:57-72 | a token without exactly two dots is "Token inválido"; a middle part that does not decode is "No se pudo decodificar el token"; otherwise the user carries the claims' sub, name, email and role |
| Session.ThreePartTokenDecodes | src/context/AuthContext.tsx:57-72 | a token assembled from three dot-free parts decodes to the user its middle part describes |
| Session.SignInOutcome | src/context/AuthContext.tsx:74-86 | success exactly when a token was issued and decodes; a refusal without a message falls back to the given text |
| Session.SessionStore.constructor | src/context/AuthContext.tsx:37-55 | a stored token that decodes restores the session; one that does not is removed; none leaves the session empty |
| Session.SessionStore.Login | src/context/AuthContext.tsx:88-104 | the token and user are set and stored only when the reply yields them; otherwise only the error changes |
| Session.SessionStore.Register | src/context/AuthContext.tsx:106-145 | the form is posted with role "user"; success sets and stores the token and the user; failure records "Error al registrar" or the service's message |
| Session.SessionStore.Logout | src/context/AuthContext.tsx:147-151 | user and token are cleared and the stored token removed |
| SimEvents.GetEvent | src/context/EventContext.tsx:78-80 | none exactly when no event has the id, otherwise the first event with it |
| SimEvents.Patched | src/context/EventContext.tsx:105-130 | an unknown id gives none; otherwise the first event with the id is patched, the length kept and every other position unchanged |
| SimEvents.PatchedThenFound | src/context/EventContext.tsx:115-121 | after a patch that keeps the id, looking the id up yields the patched event |
| SimEvents.Removed | src/context/EventContext.tsx:138 | the events left are those of the list without the id, and all of them |
| SimEvents.EventStore.constructor | src/context/EventContext.tsx:35-76 | the stored list when there is one, otherwise the three sample events, which are then stored |
| SimEvents.EventStore.CreateEvent | src/context/EventContext.tsx:82-103 | the new event with no tickets sold is appended, stored and found by its id |
| SimEvents.EventStore.UpdateEvent | src/context/EventContext.tsx:105-130 | an unknown id records "Event not found" and changes nothing; otherwise the list is `Patched` and the patched event returned |
| SimEvents.EventStore.DeleteEvent | src/context/EventContext.tsx:132-151 | succeeds exactly when some event has the id, then leaves no event with it; otherwise "Event not found" |
| SimNotifications.UnreadCount | src/context/NotificationContext.tsx:44 | at most the list's length; equal to it exactly when none is read; zero when all are read |
| SimNotifications.UnreadCountAppend | src/context/NotificationContext.tsx:44 | the count of a concatenation is the sum of the counts |
| SimNotifications.SendAddsUnread | src/context/NotificationContext.tsx:46-74 | sending puts the new notification first and raises the unread count by one |
| SimNotifications.MarkedRead | src/context/NotificationContext.tsx:76-101 | none for an unknown id; otherwise only the first notification with the id becomes read |
| SimNotifications.MarkedReadCount | src/context/NotificationContext.tsx:82-92 | marking read lowers the unread count by one exactly when the notification was unread |
| SimNotifications.MarkedReadIdempotent | src/context/NotificationContext.tsx:76-101 | marking the same notification twice equals marking it once |
| SimNotifications.AllRead | src/context/NotificationContext.tsx:103-122 | the same notifications, all read, with an unread count of zero |
| SimNotifications.Removed | src/context/NotificationContext.tsx:130-132 | removes every notification with the id and keeps all others; the length is unchanged exactly when none had the id |
| SimNotifications.NotificationStore.constructor | src/context/NotificationContext.tsx:36-42 | the stored list, or an empty inbox |
| SimNotifications.NotificationStore.Send | src/context/NotificationContext.tsx:46-74 | the unread notification is put first and stored; the unread count rises by one |
| SimNotifications.NotificationStore.MarkAsRead | src/context/NotificationContext.tsx:76-101 | the list becomes `MarkedRead`, or "Notification not found" with nothing changed |
| SimNotifications.NotificationStore.MarkAllAsRead | src/context/NotificationContext.tsx:103-122 | every notification read; the unread count is zero |
| SimNotifications.NotificationStore.Delete | src/context/NotificationContext.tsx:124-143 | succeeds exactly when some notification has the id; otherwise "Notification not found" with nothing changed |
| Purchases.UserPurchases | src/context/PurchaseContext.tsx:56 | nothing when signed out; otherwise exactly the purchases owned by the user |
| Purchases.UserPurchasesAppend | frontend/src/context/PurchaseContext.tsx:72 | an appended purchase joins its owner's list and nobody else's |
| Purchases.GetPurchase | src/context/PurchaseContext.tsx:58-60 | none exactly when no purchase has the id, otherwise the first with it |
| Purchases.CancelIn | src/context/PurchaseContext.tsx:150-179 | "Purchase not found" for an unknown id and "Cannot cancel a completed purchase" for a completed one; otherwise only that purchase becomes cancelled |
| Purchases.CancelIdempotent | src/context/PurchaseContext.tsx:150-179 | cancelling twice equals cancelling once |
| Purchases.CancelKeepsCompleted | frontend/src/context/PurchaseContext.tsx:236-265 | cancelling never touches a completed purchase, and keeps every owner, event, quantity and price |
| SimPurchases.CreateIn | src/context/PurchaseContext.tsx:62-97 | sign-in first, then the event, then capacity; succeeds exactly when sold plus quantity fits, giving a pending purchase priced at ticket price times quantity |
| SimPurchases.SettleIn | src/context/PurchaseContext.tsx:99-126 | needs the purchase and its event; the first purchase with the id becomes completed with the payment id, whatever its status was |
| SimPurchases.SettleAddsSold | src/context/PurchaseContext.tsx:127-130 | after a payment the event's tickets sold rise by exactly the purchase's quantity, the list keeps its length, and every event with another id is as it was |
| SimPurchases.SettleTwiceCountsTwice | src/context/PurchaseContext.tsx:99-126 | paying the same purchase twice counts its tickets twice, because the status is not checked |
| SimPurchases.PendingPurchasesCanOversell | src/context/PurchaseContext.tsx:74-77 | for any event with one ticket left, two pending one-ticket purchases with distinct ids are both accepted, and paying both leaves the event with one ticket more sold than its capacity |
| SimPurchases.PurchaseStore.constructor | src/context/PurchaseContext.tsx:48-54 | the stored purchases, or none |
| SimPurchases.PurchaseStore.CreatePurchase | src/context/PurchaseContext.tsx:62-97 | the outcome is `CreateIn`; a purchase is appended and stored, a failure recorded; the catalogue is untouched |
| SimPurchases.PurchaseStore.ProcessPurchase | src/context/PurchaseContext.tsx:99-148 | a failure records its message and changes nothing else, the catalogue's and inbox's errors included; otherwise the purchase list, the event's tickets sold and, for a signed-in buyer, the confirmation in the inbox all follow `SettleIn`, the catalogue's error is cleared and the inbox's error is cleared when a confirmation is sent |
| SimPurchases.PurchaseStore.Record | src/context/PurchaseContext.tsx:122-129 | the new purchase list is stored and the event's `ticketsSold` set to the given figure by the catalogue's update; the catalogue's error is cleared; when no event has the id its events are left as they were and its error is "Event not found" |
| SimPurchases.PurchaseStore.Apply | src/context/PurchaseContext.tsx:122-138 | the effects of a payment in order: purchases stored, event updated with the catalogue's error cleared, confirmation "Purchase Confirmed" sent to a signed-in buyer with the inbox's error cleared; the inbox is otherwise untouched |
| SimPurchases.PurchaseStore.CancelPurchase | src/context/PurchaseContext.tsx:150-179 | the list becomes `CancelIn`'s or its message is recorded |
| RemoteEvents.ToEvents | frontend/src/context/EventContext.tsx:56-75 | every record maps to the event with the same fields, in order |
| RemoteEvents.Upsert | frontend/src/context/EventContext.tsx:108-111 | replaces every cached event with the id, or appends when there is none |
| RemoteEvents.UpsertHolds | frontend/src/context/EventContext.tsx:108-111 | afterwards the fetched event is cached, is the only version of its id, and no other event is lost |
| RemoteEvents.UpsertIdempotent | frontend/src/context/EventContext.tsx:108-111 | fetching the same event twice leaves the cache as fetching it once |
| RemoteEvents.Fetched | frontend/src/context/EventContext.tsx:90-123 | an event exactly when the reply's status is 2xx, and then it is the reply's record mapped to an event |
| RemoteEvents.EventStore.constructor | frontend/src/context/EventContext.tsx:28-31 | an empty cache and no error |
| RemoteEvents.EventStore.Load | frontend/src/context/EventContext.tsx:46-87 | a 2xx reply replaces the cache with the mapped list; otherwise "Error fetching events: " and the status, or the thrown message |
| RemoteEvents.EventStore.GetEvent | frontend/src/context/EventContext.tsx:90-123 | the fetched event is upserted into the cache; a failure records "Error fetching event <id>: " and the status |
| RemoteEvents.EventStore.CreateEvent | frontend/src/context/EventContext.tsx:126-165 | only status 201 appends the event; any other reply records and returns "Failed to create event: " and the status |
| RemoteEvents.EventStore.UpdateEvent | frontend/src/context/EventContext.tsx:168-203 | a 2xx reply replaces every cached event with the id; otherwise "Failed to update event: " and nothing returned |
| RemoteEvents.EventStore.DeleteEvent | frontend/src/context/EventContext.tsx:206-227 | succeeds exactly on status 204, then no cached event has the id |
| RemotePurchases.ToPurchase | frontend/src/context/PurchaseContext.tsx:129-138 | the event id text reads back as the record's event number; the status is completed exactly when the record is paid; the price is the event's price times the quantity |
| RemotePurchases.CreateIn | frontend/src/context/PurchaseContext.tsx:81-152 | sign-in, then the event, then quantity within capacity, then a 2xx reply; the failure messages in that order |
| RemotePurchases.PayIn | frontend/src/context/PurchaseContext.tsx:157-198 | needs the purchase locally, a 2xx payment reply and the event it names; the result replaces the first purchase with the id |
| RemotePurchases.ConfirmationNamesPurchase | frontend/src/context/PurchaseContext.tsx:213-221 | the notice is a purchase confirmation addressed to the buyer, names the paid purchase, and its event id text reads back as the event's id |
| RemotePurchases.PurchaseStore.constructor | frontend/src/context/PurchaseContext.tsx:65-70 | the stored purchases, or none |
| RemotePurchases.PurchaseStore.CreatePurchase | frontend/src/context/PurchaseContext.tsx:81-152 | the request is sent only for a signed-in buyer and a fetched event with room; the outcome is `CreateIn` and an accepted purchase is appended |
| RemotePurchases.PurchaseStore.ProcessPurchase | frontend/src/context/PurchaseContext.tsx:157-231 | the outcome follows `PayIn`; a payment replaces the purchase, sends capacity minus quantity, and notifies a signed-in buyer; a failed notice keeps the replacement but returns nothing |
| RemotePurchases.PurchaseStore.Settle | frontend/src/context/PurchaseContext.tsx:200-222 | the effects of an accepted payment in the order the store performs them |
| RemotePurchases.PurchaseStore.CancelPurchase | frontend/src/context/PurchaseContext.tsx:236-265 | the list becomes `CancelIn`'s or its message is recorded |
| Wizard.IndicatorConsistent | frontend/src/pages/Purchase.tsx:401-431 | a connector is lit exactly when the next circle is highlighted; highlighting has no gaps; the first circle is always lit |
| RemotePurchasePage.ClampQuantity | frontend/src/pages/Purchase.tsx:81-90 | not a number gives 1; otherwise the value clamped to [1, capacity], always at least 1 |
| RemotePurchasePage.ClampStable | frontend/src/pages/Purchase.tsx:81-90 | re-entering the shown quantity changes nothing |
| RemotePurchasePage.ClampedQuantityChecked | frontend/src/pages/Purchase.tsx:81-106 | the clamped quantity passes the store's capacity check unless the event is sold out, when it is refused |
| RemotePurchasePage.PurchaseWizard.constructor | frontend/src/pages/Purchase.tsx:25-34 | quantity 1, first step, no purchase, empty card form and no message |
| RemotePurchasePage.PurchaseWizard.ChangeQuantity | frontend/src/pages/Purchase.tsx:81-90 | the quantity becomes the clamped value; nothing else changes |
| RemotePurchasePage.PurchaseWizard.ContinueToPayment | frontend/src/pages/Purchase.tsx:102-112 | asks for the route's event and the current quantity; a created purchase moves to payment with its id; a failure changes nothing |
| RemotePurchasePage.PurchaseWizard.ProcessPayment | frontend/src/pages/Purchase.tsx:115-136 | an empty card field gives "Por favor completa todos los datos de la tarjeta." and no call; the store is called exactly when the form is full and a purchase with a non-empty id exists (`if (purchaseId)`); a returned purchase moves to confirmation |
| RemotePurchasePage.PurchaseWizard.EditDetails | frontend/src/pages/Purchase.tsx:93-99 | the card form takes the typed values |
| RemotePurchasePage.PurchaseWizard.Back | frontend/src/pages/Purchase.tsx:323 | back to the first step, keeping quantity and purchase |
| SimPurchasePage.QuantityOptions | src/pages/Purchase.tsx:125 | the options 1..min(10, remaining); a negative remaining count leaves nothing to render |
| SimPurchasePage.QuantityOptionsSpec | src/pages/Purchase.tsx:125 | a quantity is offered exactly when it is between 1 and 10 and within the tickets remaining |
| SimPurchasePage.OfferedQuantityAccepted | src/pages/Purchase.tsx:48-72 | an offered quantity passes the store's checks for a signed-in buyer |
| SimPurchasePage.SoldOutOffersNothing | src/pages/EventDetails.tsx:50-51 | a sold-out event offers no quantity, and the store refuses every quantity of at least one for it |
| SimPurchasePage.PaymentError | src/pages/Purchase.tsx:73-88 | the first broken rule: all fields filled, card number of 16 or more, CVV of 3 or more; none exactly when all hold |
| SimPurchasePage.PurchaseWizard.constructor | src/pages/Purchase.tsx:27-36 | quantity 1, first step, no purchase, empty card form and no message |
| SimPurchasePage.PurchaseWizard.ChangeQuantity | src/pages/Purchase.tsx:50-52 | the quantity becomes the chosen option and stays at least 1 |
| SimPurchasePage.PurchaseWizard.ContinueToPayment | src/pages/Purchase.tsx:63-72 | asks for the route's event and the current quantity; a created purchase moves to payment with its id; a failure changes nothing |
| SimPurchasePage.PurchaseWizard.ProcessPayment | src/pages/Purchase.tsx:73-95 | the first broken rule is shown and nothing is sent; the store is called exactly when all rules hold and a purchase with a non-empty id exists (`if (purchaseId)`) |
| SimPurchasePage.PurchaseWizard.EditDetails | src/pages/Purchase.tsx:53-62 | the card form takes the typed values |
| SimPurchasePage.PurchaseWizard.Back | src/pages/Purchase.tsx:218 | back to the first step, keeping quantity and purchase |
| RemoteEventsPage.Toggle | frontend/src/pages/Events.tsx:65 | the button always switches the order |
| RemoteEventsPage.Future | frontend/src/pages/Events.tsx:14-18 | exactly the events dated at or after today |
| RemoteEventsPage.Searched | frontend/src/pages/Events.tsx:21-24 | exactly the events whose name or place contains the term, ignoring case |
| RemoteEventsPage.SearchEmptyKeepsAll | frontend/src/pages/Events.tsx:21-24 | an empty term keeps every event, in order |
| RemoteEventsPage.Listed | frontend/src/pages/Events.tsx:13-33 | a permutation of the future events the search keeps, sorted by date or price |
| RemoteEventsPage.AlreadyPurchasedIff | frontend/src/pages/Events.tsx:36-38 | an event is marked exactly when some purchase's event id reads as its id |
| RemoteEventsPage.StoredPurchaseMarksEvent | frontend/src/pages/Events.tsx:90 | a purchase the store built from a record for the event marks that event |
| RemoteEventsPage.Render | frontend/src/pages/Events.tsx:73-136 | spinner while loading, then the error, then the no-match message, else one card per listed event with the mark in place of the buy link |
| RemoteHomePage.Later | frontend/src/pages/Home.tsx:35-39 | exactly the events dated strictly after now |
| RemoteHomePage.Upcoming | frontend/src/pages/Home.tsx:34-44 | at most three events, all later than now |
| RemoteHomePage.UpcomingSpec | frontend/src/pages/Home.tsx:40-44 | min(3, later) events in date order, none of the later events left out being earlier than one shown |
| RemoteHomePage.Render | frontend/src/pages/Home.tsx:16-119 | spinner while loading, then the error, then "no upcoming events", else the upcoming cards, each marked when already bought |
| SimEventsPage.Searched | src/pages/Events.tsx:13 | exactly the events whose name or location contains the term, ignoring case, with no date filter |
| SimEventsPage.SearchEmptyKeepsAll | src/pages/Events.tsx:13 | an empty term keeps every event, in order |
| SimEventsPage.Listed | src/pages/Events.tsx:13-21 | a permutation of the events the search keeps, sorted by date or price |
| SimEventsPage.ListedAllWhenEmpty | src/pages/Events.tsx:13-21 | with an empty term the list is the whole catalogue, reordered |
| SimEventsPage.Render | src/pages/Events.tsx:54-88 | spinner while loading, then the no-match message, else one card per listed event with capacity minus sold as tickets left |
| SimHomePage.Later | src/pages/Home.tsx:11 | exactly the events dated strictly after now |
| SimHomePage.Upcoming | src/pages/Home.tsx:11 | at most three events, all later than now |
| SimHomePage.UpcomingSpec | src/pages/Home.tsx:11 | min(3, later) events in date order, none of the later events left out being earlier than one shown |
| SimHomePage.Render | src/pages/Home.tsx:80-110 | the spinner while loading (no cards), else the upcoming cards with capacity minus sold as tickets left |
| SimAdminPage.Validate | src/pages/AdminDashboard.tsx:86-95 | the message of the first broken rule in the order name, date, location, description, capacity, price, image; none exactly when all hold |
| SimAdminPage.AcceptedFormIsBookable | src/pages/AdminDashboard.tsx:86-95 | an event created from an accepted form is not sold out and has a price that is not negative |
| SimAdminPage.EditKeepsSales | src/pages/AdminDashboard.tsx:108-109 | saving an edit sets the seven form fields and keeps the id and tickets sold |
| SimAdminPage.EditRoundTrip | src/pages/AdminDashboard.tsx:48-66 | saving an unchanged edit form restores the event except for the reformatted date |
| SimAdminPage.AdminForm.constructor | src/pages/AdminDashboard.tsx:22-33 | default form, neither mode, no message |
| SimAdminPage.AdminForm.ResetForm | src/pages/AdminDashboard.tsx:35-46 | empty texts, capacity 100, price 0 and no message; the modes are kept |
| SimAdminPage.AdminForm.CreateClick | src/pages/AdminDashboard.tsx:68-72 | the default form in create mode, out of edit mode |
| SimAdminPage.AdminForm.EditClick | src/pages/AdminDashboard.tsx:48-66 | an unknown id changes nothing; otherwise the event's fields fill the form in edit mode |
| SimAdminPage.AdminForm.Submit | src/pages/AdminDashboard.tsx:97-116 | a broken rule shows its message and reaches no store operation; create mode appends the event and clears the store's error; edit mode with a non-empty id patches it, the store's error being "Event not found" when the id has vanished and none otherwise; either way the form is reset |
| RemoteAdminPage.Validate | frontend/src/pages/AdminDashboard.tsx:54-61 | the message of the first broken rule in the order name, date, place, capacity, price; none exactly when all hold |
| RemoteAdminPage.Find | frontend/src/pages/AdminDashboard.tsx:38 | none exactly when no cached event has the id; otherwise the first cached event with the id |
| RemoteAdminPage.AcceptedFormOnSale | frontend/src/pages/AdminDashboard.tsx:54-61 | an accepted form's event is not sold out, and a copied form passes the number rules exactly when the event is on sale at a price that is not negative |
| RemoteAdminPage.AdminForm.constructor | frontend/src/pages/AdminDashboard.tsx:15-24 | default form, neither mode, no message |
| RemoteAdminPage.AdminForm.ResetForm | frontend/src/pages/AdminDashboard.tsx:26-29 | empty texts, capacity 1, price 0 and no message |
| RemoteAdminPage.AdminForm.CreateClick | frontend/src/pages/AdminDashboard.tsx:31-35 | the default form in create mode, out of edit mode |
| RemoteAdminPage.AdminForm.EditClick | frontend/src/pages/AdminDashboard.tsx:37-44 | an unknown id changes nothing; otherwise the event's fields fill the form in edit mode |
| RemoteAdminPage.AdminForm.Submit | frontend/src/pages/AdminDashboard.tsx:63-82 | a broken rule shows its message and sends nothing; a refused create keeps the form open with "Error al guardar el evento." and the store's error is "Failed to create event: " and the status or thrown message; a created event is appended and the store's error cleared; an update closes the form whatever the reply; edit mode includes id 0 |
| RegisterPage.Validate | frontend/src/pages/Register.tsx:22-30 | "Por favor, completa todos los campos." when any of the eight fields is empty, then "Las contraseñas no coinciden.", none exactly when both pass |
| RegisterPage.AcceptedFormComplete | frontend/src/pages/Register.tsx:32-40 | an accepted form hands over seven filled fields whose password is the one typed twice |
| RegisterPage.SignUp.constructor | frontend/src/pages/Register.tsx:6-14 | all fields empty and no message |
| RegisterPage.SignUp.Submit | frontend/src/pages/Register.tsx:18-45 | the message is cleared first; register is called exactly when the checks pass, with the seven fields and role "user"; the page goes home exactly when registration succeeds |

## Left out

- I/O: the `fetch` calls, their URLs and headers, the bearer header and the JSON parsing are not modelled. The service's answer to each request is a parameter: a status and a body, or the message of a request that threw. The answer is not derived from the data sent.
- Asynchrony: loading flags, the interleaving of `await`s and stale React closures are not modelled. Every handler runs to completion before the next one starts.
- The simulated store's `sendNotification` is not awaited in the source. The model runs it after the event update, in source order.
- Local storage is a ghost field mirroring each list. Its JSON encoding is not modelled.
- `Date` parsing, formatting and the clock are parameters: `when`, `format`, `today` and `now`. The clock-based ids (`Date.now()`, `Math.random()`) are also parameters, which must be fresh where the store relies on it.
- Prices are `real`. `parseFloat`, `toFixed` and floating-point rounding are not modelled, and neither is the NaN a non-numeric form field produces.
- `Number(text)` is modelled for decimal digits with an optional leading `-` or `+` and for the empty text. Other JavaScript number syntax, such as spaces, exponents and hexadecimal, reads as not a number.
- Lower-casing covers ASCII letters only.
- `JSON.parse(atob(...))` in the token decoder is a parameter, `decode`.
- The `'An unknown error occurred'` branches catch values that are not `Error`s. Every failure in the model carries a message, so these branches are not reachable.
- The service-backed variant's own notification store is not part of this model. Its outcome is the `notifyError` parameter of `RemotePurchases.PurchaseStore.ProcessPurchase`.
- The service-backed variant's own session store is not part of this model. The sign-up page is modelled against `Session.SessionStore`, the store in src/context/AuthContext.tsx. frontend/src/pages/Register.tsx:32-40 calls `register` with exactly the seven fields `Session.RegisterData` carries and branches on its boolean result. The purchase store takes the signed-in user's id as a parameter.
- Ordering.SortBy: the sort is stable in its construction, as JavaScript's `sort` is, but no contract states the relative order of events with equal keys; the contracts state sortedness and permutation only.
- Rendering is modelled only as far as each page's choice of view and the figures on its cards. Markup, styles, the event detail pages and the route guards are not modelled, apart from the detail pages' sold-out rules, `SimEvents.SoldOut` and `RemoteEvents.SoldOut`.
- The email address logged to the console at sign-in is not modelled.
- SimPurchasePage.PurchaseWizard: the event is a snapshot taken when the page opens, although the page re-reads it from the catalogue on every render.
- Pending purchases reserve no seats: two pending one-ticket purchases of the last seat are both accepted, and paying both oversells the event (`SimPurchases.PendingPurchasesCanOversell`).
