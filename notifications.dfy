/** The notification centre of client/hooks/use-notifications.tsx: a list of
    notifications, newest first, that is replaced by each operation. Ids and
    timestamps come from the clock and a random draw, so they are parameters;
    sounds are reported as a value. */
module Notifications {
  import opened Common

  datatype NotificationType = Success | Error | Warning | Info | Progress

  /** The `action` button (a label and a callback) is not part of this model. */
  datatype Notification = Notification(
    id: string,
    kind: NotificationType,
    title: string,
    message: string,
    duration: Option<int>,
    progress: Option<int>,
    timestamp: int,
    read: bool)

  /** `Omit<Notification, 'id' | 'timestamp' | 'read'>`. */
  datatype NotificationInput = NotificationInput(
    kind: NotificationType,
    title: string,
    message: string,
    duration: Option<int>,
    progress: Option<int>)

  datatype Sound = SuccessSound | ErrorSound | NotificationSound

  /** The sound `addNotification` plays for each type. */
  function SoundFor(kind: NotificationType): (r: Sound)
    ensures r == SuccessSound <==> kind == Success
    ensures r == ErrorSound <==> kind == Error
  {
    match kind
    case Success => SuccessSound
    case Error => ErrorSound
    case _ => NotificationSound
  }

  /** Whether the auto-removal effect starts a timer for the notification:
      a duration that is present, non-zero and positive. */
  predicate ExpiresAutomatically(n: Notification)
    ensures ExpiresAutomatically(n) <==> n.duration.Some? && n.duration.value > 0
  {
    n.duration.Some? && n.duration.value != 0 && n.duration.value > 0
  }

  predicate Unread(n: Notification) { !n.read }

  /** `getUnreadCount`. */
  function UnreadCount(list: seq<Notification>): (r: nat)
    ensures r <= |list|
    ensures r == 0 <==> forall i :: 0 <= i < |list| ==> list[i].read
  {
    CountWhereZero(list, Unread);
    CountWhere(list, Unread)
  }

  function Created(input: NotificationInput, id: string, now: int): Notification {
    Notification(id, input.kind, input.title, input.message, input.duration, input.progress, now, false)
  }

  /** `prev.filter(n => n.id !== id)`. */
  function Removed(list: seq<Notification>, id: string): (r: seq<Notification>)
    ensures |r| <= |list|
  {
    Filter(list, (n: Notification) => n.id != id)
  }

  function MarkOne(n: Notification, id: string): Notification {
    if n.id == id then n.(read := true) else n
  }

  /** `prev.map(n => n.id === id ? { ...n, read: true } : n)`. */
  function MarkedRead(list: seq<Notification>, id: string): (r: seq<Notification>)
    ensures |r| == |list|
    ensures forall i :: 0 <= i < |r| ==> r[i] == MarkOne(list[i], id)
  {
    if list == [] then [] else MarkedRead(list[..|list| - 1], id) + [MarkOne(list[|list| - 1], id)]
  }

  /** `Math.max(0, Math.min(100, progress))`. */
  function Clamp(progress: int): (r: int)
    ensures 0 <= r <= 100
    ensures 0 <= progress <= 100 ==> r == progress
    ensures progress < 0 ==> r == 0
    ensures progress > 100 ==> r == 100
  {
    Max(0, Min(100, progress))
  }

  function UpdateOne(n: Notification, id: string, progress: int, message: Option<string>, now: int): (r: Notification)
    ensures n.id != id ==> r == n
    ensures r.id == n.id && r.kind == n.kind && r.title == n.title && r.duration == n.duration && r.read == n.read
    ensures n.id == id ==> r.progress == Some(Clamp(progress)) && 0 <= r.progress.value <= 100 && r.timestamp == now
    ensures n.id == id ==> r.message == if message.Some? && message.value != "" then message.value else n.message
  {
    if n.id == id then n.(progress := Some(Clamp(progress)), message := OrElse(message, n.message), timestamp := now) else n
  }

  /** The `prev.map` of `updateProgress`. */
  function ProgressUpdated(list: seq<Notification>, id: string, progress: int, message: Option<string>, now: int): (r: seq<Notification>)
    ensures |r| == |list|
    ensures forall i :: 0 <= i < |r| ==> r[i] == UpdateOne(list[i], id, progress, message, now)
  {
    if list == [] then [] else ProgressUpdated(list[..|list| - 1], id, progress, message, now) + [UpdateOne(list[|list| - 1], id, progress, message, now)]
  }

  class NotificationCenter {
    var notifications: seq<Notification>

    constructor ()
      ensures notifications == []
    {
      notifications := [];
    }

    /** `addNotification`: puts the new, unread notification in front and
        returns its id. */
    method AddNotification(input: NotificationInput, freshId: string, now: int) returns (id: string, sound: Sound)
      modifies this
      ensures id == freshId && sound == SoundFor(input.kind)
      ensures notifications == [Created(input, freshId, now)] + old(notifications)
      ensures UnreadCount(notifications) == UnreadCount(old(notifications)) + 1
    {
      id := freshId;
      var notification := Created(input, id, now);
      CountWhereCons(notification, notifications, Unread);
      notifications := [notification] + notifications;
      sound := SoundFor(input.kind);
    }

    method RemoveNotification(id: string)
      modifies this
      ensures notifications == Removed(old(notifications), id)
    {
      notifications := Removed(notifications, id);
    }

    method MarkAsRead(id: string)
      modifies this
      ensures notifications == MarkedRead(old(notifications), id)
      ensures UnreadCount(notifications) <= UnreadCount(old(notifications))
    {
      UnreadAfterMarkAsRead(notifications, id);
      CountWhereMonotone(notifications, (n: Notification) => Unread(n) && n.id != id, Unread);
      notifications := MarkedRead(notifications, id);
    }

    method ClearAll()
      modifies this
      ensures notifications == []
    {
      notifications := [];
    }

    function GetUnreadCount(): (r: nat)
      reads this
      ensures r <= |notifications|
    {
      UnreadCount(notifications)
    }

    method UpdateProgress(id: string, progress: int, message: Option<string>, now: int)
      modifies this
      ensures notifications == ProgressUpdated(old(notifications), id, progress, message, now)
      ensures UnreadCount(notifications) == UnreadCount(old(notifications))
    {
      UpdateProgressKeepsUnread(notifications, id, progress, message, now);
      notifications := ProgressUpdated(notifications, id, progress, message, now);
    }

    /** `notifySuccess`, `notifyError`, `notifyWarning`, `notifyInfo`: a
        notification of that type with the given or the default duration. */
    method Notify(kind: NotificationType, title: string, message: string, duration: Option<int>, freshId: string, now: int)
      returns (id: string)
      requires kind != Progress
      modifies this
      ensures id == freshId
      ensures notifications == [Created(HelperInput(kind, title, message, duration), freshId, now)] + old(notifications)
    {
      var sound;
      id, sound := AddNotification(HelperInput(kind, title, message, duration), freshId, now);
    }

    /** `notifyProgress`: a progress notification that stays until removed. */
    method NotifyProgress(title: string, message: string, progress: int, freshId: string, now: int)
      returns (id: string)
      modifies this
      ensures id == freshId
      ensures notifications == [Created(ProgressInput(title, message, progress), freshId, now)] + old(notifications)
      ensures !ExpiresAutomatically(notifications[0])
    {
      var sound;
      id, sound := AddNotification(ProgressInput(title, message, progress), freshId, now);
    }
  }

  /** The default durations of the helpers: 5 s, 8 s, 6 s and 4 s. */
  function DefaultDuration(kind: NotificationType): int {
    match kind
    case Success => 5000
    case Error => 8000
    case Warning => 6000
    case Info => 4000
    case Progress => 0
  }

  function HelperInput(kind: NotificationType, title: string, message: string, duration: Option<int>): NotificationInput {
    NotificationInput(kind, title, message, Some(if duration.Some? then duration.value else DefaultDuration(kind)), None)
  }

  function ProgressInput(title: string, message: string, progress: int): NotificationInput {
    NotificationInput(Progress, title, message, Some(0), Some(progress))
  }

  /** A helper called without a duration creates a notification that is
      removed automatically after the default delay of its type; a progress
      notification never is. */
  lemma HelperDurations(kind: NotificationType, title: string, message: string, id: string, now: int)
    requires kind != Progress
    ensures var n := Created(HelperInput(kind, title, message, None), id, now);
      ExpiresAutomatically(n) && n.duration.value == DefaultDuration(kind) && n.duration.value in {4000, 5000, 6000, 8000}
    ensures !ExpiresAutomatically(Created(ProgressInput(title, message, 50), id, now))
  {
  }

  /** `removeNotification` keeps exactly the notifications with another id,
      in their previous order; an unknown id changes nothing. */
  lemma RemoveKeepsExactly(list: seq<Notification>, id: string, n: Notification)
    ensures n in Removed(list, id) <==> n in list && n.id != id
    ensures (forall i :: 0 <= i < |list| ==> list[i].id != id) ==> Removed(list, id) == list
  {
    FilterMembership(list, (m: Notification) => m.id != id, n);
    if forall i :: 0 <= i < |list| ==> list[i].id != id {
      FilterKeepsAll(list, id);
    }
  }

  lemma {:induction false} FilterKeepsAll(list: seq<Notification>, id: string)
    requires forall i :: 0 <= i < |list| ==> list[i].id != id
    ensures Removed(list, id) == list
  {
    if list != [] {
      FilterKeepsAll(list[..|list| - 1], id);
      assert list == list[..|list| - 1] + [list[|list| - 1]];
    }
  }

  /** After `markAsRead(id)` the unread notifications are the previously
      unread ones with another id. */
  lemma {:induction false} UnreadAfterMarkAsRead(list: seq<Notification>, id: string)
    ensures UnreadCount(MarkedRead(list, id)) == CountWhere(list, (n: Notification) => Unread(n) && n.id != id)
  {
    if list != [] {
      var init := list[..|list| - 1];
      UnreadAfterMarkAsRead(init, id);
      var r := MarkedRead(list, id);
      assert r[..|r| - 1] == MarkedRead(init, id);
    }
  }

  /** Marking as read twice is marking once; every notification keeps its
      id, content and position. */
  lemma MarkAsReadIdempotent(list: seq<Notification>, id: string)
    ensures MarkedRead(MarkedRead(list, id), id) == MarkedRead(list, id)
    ensures forall i :: 0 <= i < |list| ==>
      && MarkedRead(list, id)[i].id == list[i].id
      && MarkedRead(list, id)[i] == list[i].(read := list[i].read || list[i].id == id)
  {
  }

  /** `updateProgress` changes no read flag, so the unread count stays. */
  lemma {:induction false} UpdateProgressKeepsUnread(list: seq<Notification>, id: string, progress: int, message: Option<string>, now: int)
    ensures UnreadCount(ProgressUpdated(list, id, progress, message, now)) == UnreadCount(list)
  {
    if list != [] {
      var init := list[..|list| - 1];
      UpdateProgressKeepsUnread(init, id, progress, message, now);
      var r := ProgressUpdated(list, id, progress, message, now);
      assert r[..|r| - 1] == ProgressUpdated(init, id, progress, message, now);
    }
  }

  /** Every notification with the id gets a progress within 0..100 and
      keeps its message when the new one is absent or empty; the others are
      unchanged. */
  lemma UpdateProgressEffect(list: seq<Notification>, id: string, progress: int, message: Option<string>, now: int, i: nat)
    requires i < |list|
    ensures var n := ProgressUpdated(list, id, progress, message, now)[i];
      && (list[i].id == id ==>
            && n.progress.Some? && 0 <= n.progress.value <= 100
            && (message.None? || message.value == "" ==> n.message == list[i].message)
            && (message.Some? && message.value != "" ==> n.message == message.value)
            && n.read == list[i].read && n.id == id)
      && (list[i].id != id ==> n == list[i])
  {
  }
}
