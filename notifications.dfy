/**
 * The notification list of the notification context
 * (src/contexts/NotificationContext.tsx): notifications are added unread
 * in front, marked read one by one or all at once, and cleared.
 */
module Notifications {
  import opened Wrappers
  import opened Clock
  import Seqs

  datatype NotificationType = Appointment | PatientArrival | ExamResult | PharmacyAlert | General | BillingAlert

  datatype Notification = Notification(
    id: string,
    kind: NotificationType,
    title: string,
    message: string,
    read: bool,
    userId: Option<string>,
    relatedId: Option<string>,
    createdAt: string)

  /** What a caller of `addNotification` supplies: everything but id, read flag and date. */
  datatype Draft = Draft(kind: NotificationType, title: string, message: string,
                         userId: Option<string>, relatedId: Option<string>)

  predicate IsUnread(n: Notification) {
    !n.read
  }

  /** `unreadCount`. */
  function UnreadCount(list: seq<Notification>): nat {
    Seqs.Count(list, IsUnread)
  }

  /** The notification `addNotification` builds. */
  function Created(d: Draft, clock: Instant): (n: Notification)
    ensures n.id == Stamp("notif-", clock) && !n.read && n.createdAt == clock.iso
    ensures n.kind == d.kind && n.title == d.title && n.message == d.message
    ensures n.userId == d.userId && n.relatedId == d.relatedId
  {
    Notification(Stamp("notif-", clock), d.kind, d.title, d.message, false, d.userId, d.relatedId, clock.iso)
  }

  /** `addNotification`: the new notification, unread, in front. */
  function Added(list: seq<Notification>, d: Draft, clock: Instant): (r: seq<Notification>)
    ensures |r| == |list| + 1 && r[0] == Created(d, clock) && r[1..] == list
    ensures UnreadCount(r) == UnreadCount(list) + 1
  {
    var r := [Created(d, clock)] + list;
    assert r[1..] == list;
    r
  }

  /** `markAsRead`: the notifications with that id are read; nothing else changes. */
  function ReadOne(list: seq<Notification>, id: string): (r: seq<Notification>)
    ensures |r| == |list|
    ensures forall i :: 0 <= i < |list| ==>
      r[i] == if list[i].id == id then list[i].(read := true) else list[i]
  {
    seq(|list|, i requires 0 <= i < |list| =>
      if list[i].id == id then list[i].(read := true) else list[i])
  }

  /** `markAllAsRead`: every notification read, in the same order. */
  function ReadAll(list: seq<Notification>): (r: seq<Notification>)
    ensures |r| == |list|
    ensures forall i :: 0 <= i < |list| ==> r[i] == list[i].(read := true)
  {
    seq(|list|, i requires 0 <= i < |list| => list[i].(read := true))
  }

  /** `clearNotification`: the notifications without that id. */
  function Cleared(list: seq<Notification>, id: string): (r: seq<Notification>)
    ensures |r| <= |list|
    ensures forall n: Notification :: n in r <==> n in list && n.id != id
    ensures forall n: Notification :: multiset(r)[n] == if n.id != id then multiset(list)[n] else 0
  {
    Seqs.FilterMultiset(list, (n: Notification) => n.id != id);
    Seqs.Filter(list, (n: Notification) => n.id != id)
  }

  lemma ReadOneIdempotent(list: seq<Notification>, id: string)
    ensures ReadOne(ReadOne(list, id), id) == ReadOne(list, id)
  {
  }

  /**
   * Marking one notification read never raises the unread count, and
   * lowers it when an unread notification has that id.
   */
  lemma ReadOneNeverRaisesUnread(list: seq<Notification>, id: string)
    ensures UnreadCount(ReadOne(list, id)) <= UnreadCount(list)
  {
    Seqs.CountPointwise(list, ReadOne(list, id), IsUnread, IsUnread);
  }

  lemma {:induction false} ReadOneLowersUnread(list: seq<Notification>, id: string, k: nat)
    requires k < |list| && list[k].id == id && IsUnread(list[k])
    ensures UnreadCount(ReadOne(list, id)) < UnreadCount(list)
  {
    var r := ReadOne(list, id);
    assert r[1..] == ReadOne(list[1..], id);
    if k == 0 {
      ReadOneNeverRaisesUnread(list[1..], id);
    } else {
      ReadOneLowersUnread(list[1..], id, k - 1);
    }
  }

  lemma ReadAllClearsUnread(list: seq<Notification>)
    ensures UnreadCount(ReadAll(list)) == 0
  {
  }

  /** Clearing keeps the remaining notifications in their order: it works piece by piece. */
  lemma ClearedKeepsOrder(a: seq<Notification>, b: seq<Notification>, id: string)
    ensures Cleared(a + b, id) == Cleared(a, id) + Cleared(b, id)
  {
    Seqs.FilterConcat(a, b, (n: Notification) => n.id != id);
  }

  /** Clearing an id nobody has changes nothing. */
  lemma ClearingUnknownIdKeepsAll(list: seq<Notification>, id: string)
    requires forall i :: 0 <= i < |list| ==> list[i].id != id
    ensures Cleared(list, id) == list
  {
    Seqs.FilterKeepsAll(list, (n: Notification) => n.id != id);
  }

  /** The state of the notification provider. */
  class Inbox {
    var notifications: seq<Notification>

    constructor (initial: seq<Notification>)
      ensures notifications == initial
    {
      notifications := initial;
    }

    function Unread(): nat
      reads this
    {
      UnreadCount(notifications)
    }

    method Add(d: Draft, clock: Instant)
      modifies this
      ensures notifications == Added(old(notifications), d, clock)
      ensures Unread() == old(Unread()) + 1
    {
      notifications := Added(notifications, d, clock);
    }

    method MarkAsRead(id: string)
      modifies this
      ensures notifications == ReadOne(old(notifications), id)
      ensures Unread() <= old(Unread())
    {
      ReadOneNeverRaisesUnread(notifications, id);
      notifications := ReadOne(notifications, id);
    }

    method MarkAllAsRead()
      modifies this
      ensures notifications == ReadAll(old(notifications))
      ensures Unread() == 0
    {
      ReadAllClearsUnread(notifications);
      notifications := ReadAll(notifications);
    }

    method Clear(id: string)
      modifies this
      ensures notifications == Cleared(old(notifications), id)
    {
      notifications := Cleared(notifications, id);
    }
  }
}
