/** The simulated notification inbox (src/context/NotificationContext.tsx):
    newest first, with an unread count derived from the list and every
    change written back under the storage key 'notifications'. */
module SimNotifications {
  import opened Common

  datatype NotificationType = PurchaseConfirmation | EventUpdate | System

  datatype Notification = Notification(
    id: string, userId: string, kind: NotificationType, title: string, message: string,
    isRead: bool, createdAt: string, eventId: Option<string>, purchaseId: Option<string>)

  /** What a sender supplies; the inbox adds the id, the unread flag and the
      creation time. */
  datatype NotificationDraft = NotificationDraft(
    userId: string, kind: NotificationType, title: string, message: string,
    eventId: Option<string>, purchaseId: Option<string>)

  const NotFound := "Notification not found"

  function IsUnread(): Notification -> bool { (n: Notification) => !n.isRead }

  function WithoutId(id: string): Notification -> bool { (n: Notification) => n.id != id }

  function WithId(id: string): Notification -> bool { (n: Notification) => n.id == id }

  /** `unreadCount`. */
  function UnreadCount(ns: seq<Notification>): (c: nat)
    ensures c <= |ns|
    ensures c == 0 <== forall j :: 0 <= j < |ns| ==> ns[j].isRead
    ensures c == |ns| <==> forall j :: 0 <= j < |ns| ==> !ns[j].isRead
  {
    FilterLength(ns, IsUnread());
    var r := Filter(ns, IsUnread());
    assert (forall j :: 0 <= j < |ns| ==> ns[j].isRead) ==> |r| == 0 by {
      if |r| > 0 {
        assert r[0] in ns && IsUnread()(r[0]);
      }
    }
    |r|
  }

  /** The unread count of a concatenation is the sum of the counts. */
  lemma UnreadCountAppend(a: seq<Notification>, b: seq<Notification>)
    ensures UnreadCount(a + b) == UnreadCount(a) + UnreadCount(b)
  {
    FilterAppend(a, b, IsUnread());
  }

  /** The notification `sendNotification` builds: unread, with the given id
      and creation time. */
  function NewNotification(d: NotificationDraft, id: string, createdAt: string): Notification
  {
    Notification(id, d.userId, d.kind, d.title, d.message, false, createdAt, d.eventId, d.purchaseId)
  }

  /** Sending puts the new notification first and adds one to the unread
      count. */
  lemma SendAddsUnread(d: NotificationDraft, id: string, createdAt: string, ns: seq<Notification>)
    ensures UnreadCount([NewNotification(d, id, createdAt)] + ns) == UnreadCount(ns) + 1
  {
    UnreadCountAppend([NewNotification(d, id, createdAt)], ns);
    assert Filter([NewNotification(d, id, createdAt)], IsUnread()) == [NewNotification(d, id, createdAt)];
  }

  /** The list `markAsRead` produces: `None` when no notification has the
      id; otherwise the first one with the id is marked read and every other
      position is kept. */
  function MarkedRead(ns: seq<Notification>, id: string): (r: Option<seq<Notification>>)
    ensures r.None? <==> forall j :: 0 <= j < |ns| ==> ns[j].id != id
    ensures r.Some? ==> |r.value| == |ns|
    ensures r.Some? ==> exists k :: (0 <= k < |ns| && ns[k].id == id
      && (forall i :: 0 <= i < k ==> ns[i].id != id)
      && r.value[k] == ns[k].(isRead := true)
      && forall j :: 0 <= j < |ns| && j != k ==> r.value[j] == ns[j])
  {
    match FirstIndex(ns, WithId(id))
    case None => None
    case Some(k) => Some(ns[k := ns[k].(isRead := true)])
  }

  /** Marking a notification read lowers the unread count by one when it was
      unread and leaves it alone when it was already read. */
  lemma MarkedReadCount(ns: seq<Notification>, id: string)
    requires MarkedRead(ns, id).Some?
    ensures var k := FirstIndex(ns, WithId(id)).value;
      UnreadCount(MarkedRead(ns, id).value) == UnreadCount(ns) - (if ns[k].isRead then 0 else 1)
  {
    var k := FirstIndex(ns, WithId(id)).value;
    var x := ns[k].(isRead := true);
    var pre, post := ns[..k], ns[k + 1..];
    assert MarkedRead(ns, id).value == pre + [x] + post;
    assert ns == pre + [ns[k]] + post;
    UnreadCountAppend(pre + [ns[k]], post);
    UnreadCountAppend(pre, [ns[k]]);
    UnreadCountAppend(pre + [x], post);
    UnreadCountAppend(pre, [x]);
    assert UnreadCount([x]) == 0;
  }

  /** Marking the same notification read twice is the same as once. */
  lemma MarkedReadIdempotent(ns: seq<Notification>, id: string)
    requires MarkedRead(ns, id).Some?
    ensures MarkedRead(MarkedRead(ns, id).value, id) == MarkedRead(ns, id)
  {
    var k := FirstIndex(ns, WithId(id)).value;
    var r := MarkedRead(ns, id).value;
    assert WithId(id)(r[k]);
    assert FirstIndex(r, WithId(id)) == Some(k);
    assert r[k := r[k].(isRead := true)] == r;
  }

  /** The list `markAllAsRead` produces: the same notifications, all read. */
  function AllRead(ns: seq<Notification>): (r: seq<Notification>)
    ensures |r| == |ns|
    ensures forall j :: 0 <= j < |ns| ==> r[j] == ns[j].(isRead := true)
    ensures UnreadCount(r) == 0
  {
    seq(|ns|, j requires 0 <= j < |ns| => ns[j].(isRead := true))
  }

  /** The list `deleteNotification` produces. */
  function Removed(ns: seq<Notification>, id: string): (r: seq<Notification>)
    ensures forall j :: 0 <= j < |r| ==> r[j].id != id && r[j] in ns
    ensures forall j :: 0 <= j < |ns| && ns[j].id != id ==> ns[j] in r
    ensures |r| == |ns| <==> forall j :: 0 <= j < |ns| ==> ns[j].id != id
  {
    FilterLength(ns, WithoutId(id));
    Filter(ns, WithoutId(id))
  }

  class NotificationStore {
    var notifications: seq<Notification>
    var error: Option<string>
    /** The entry under 'notifications', absent until the first write. */
    ghost var persisted: Option<seq<Notification>>

    ghost predicate Valid()
      reads this
    {
      if persisted.Some? then persisted.value == notifications else notifications == []
    }

    /** Mounting the provider loads the stored list, if any. */
    constructor (stored: Option<seq<Notification>>)
      ensures Valid() && error == None && persisted == stored
      ensures notifications == if stored.Some? then stored.value else []
    {
      notifications := if stored.Some? then stored.value else [];
      persisted := stored;
      error := None;
    }

    /** `sendNotification`: the new, unread notification goes first. */
    method Send(draft: NotificationDraft, newId: string, now: string) returns (n: Notification)
      requires Valid()
      modifies this
      ensures Valid() && error == None
      ensures n == NewNotification(draft, newId, now) && !n.isRead
      ensures notifications == [n] + old(notifications)
      ensures UnreadCount(notifications) == UnreadCount(old(notifications)) + 1
    {
      n := NewNotification(draft, newId, now);
      SendAddsUnread(draft, newId, now, notifications);
      notifications := [n] + notifications;
      persisted := Some(notifications);
      error := None;
    }

    /** `markAsRead`: an unknown id records "Notification not found". */
    method MarkAsRead(id: string) returns (ok: bool)
      requires Valid()
      modifies this
      ensures Valid()
      ensures match MarkedRead(old(notifications), id)
        case None => !ok && notifications == old(notifications) && error == Some(NotFound)
        case Some(updated) => ok && notifications == updated && error == None
    {
      error := None;
      var k := FirstIndex(notifications, WithId(id));
      if k.None? {
        error := Some(NotFound);
        ok := false;
      } else {
        notifications := notifications[k.value := notifications[k.value].(isRead := true)];
        persisted := Some(notifications);
        ok := true;
      }
    }

    /** `markAllAsRead`: every notification read; the count drops to 0. */
    method MarkAllAsRead() returns (ok: bool)
      requires Valid()
      modifies this
      ensures Valid() && ok && error == None
      ensures notifications == AllRead(old(notifications))
      ensures UnreadCount(notifications) == 0
    {
      notifications := AllRead(notifications);
      persisted := Some(notifications);
      error := None;
      ok := true;
    }

    /** `deleteNotification`: removes every notification with the id; when
        none matched it records "Notification not found". */
    method Delete(id: string) returns (ok: bool)
      requires Valid()
      modifies this
      ensures Valid()
      ensures ok <==> exists j :: 0 <= j < |old(notifications)| && old(notifications)[j].id == id
      ensures ok ==> notifications == Removed(old(notifications), id) && error == None
      ensures !ok ==> notifications == old(notifications) && error == Some(NotFound)
    {
      error := None;
      var updated := Removed(notifications, id);
      if |updated| == |notifications| {
        error := Some(NotFound);
        ok := false;
      } else {
        notifications := updated;
        persisted := Some(notifications);
        ok := true;
      }
    }
  }
}
