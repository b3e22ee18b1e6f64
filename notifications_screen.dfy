/** The notifications screen: a list of notifications that pressing one marks read, that
    "mark all" marks read entirely and that "clear" empties; pressing also routes by the
    notification's type and related id, either to another screen or to an info toast. */
module NotificationsScreen {
  import opened Wrappers
  import opened ToastContext

  datatype NotificationType =
    EventInvite | NewMessage | GroupInvite | RsvpConfirm | FriendRequest | EventUpdate | System | Generic

  /** A notification; the icon fields are display-only and the timestamp is an abstract
      millisecond count. */
  datatype Notification = Notification(
    id: string,
    title: string,
    message: string,
    timestamp: int,
    read: bool,
    relatedId: Option<string>,
    kind: NotificationType)

  /** The sample notifications, with timestamps relative to the clock value `now`. */
  function DummyNotifications(now: int): seq<Notification> {
    [ Notification("1", "Event RSVP Confirmation", "You have successfully RSVP'd to Neon Nights Fest.",
                   now - 1000 * 60 * 5, false, Some("1"), RsvpConfirm),
      Notification("2", "New Message from Alice", "Hey, are you going to the tech meetup tomorrow? Let me know!",
                   now - 1000 * 60 * 30, false, Some("chat3"), NewMessage),
      Notification("3", "Group Invite: VibeWave Launch Team",
                   "You've been invited to join the \"VibeWave Launch Team\" group chat.",
                   now - 1000 * 60 * 60 * 2, true, Some("group_launch"), GroupInvite),
      Notification("4", "New Connection Request", "Mike D. wants to connect with you.",
                   now - 1000 * 60 * 60 * 5, true, Some("p2"), FriendRequest),
      Notification("5", "Event Update: Local Food Fair", "The Local Food Fair location has been updated. Check details.",
                   now - 1000 * 60 * 60 * 24, true, Some("4"), EventUpdate),
      Notification("6", "You unlocked a new badge!",
                   "Congrats on attending 5 events! You earned the \"Event Hopper\" badge.",
                   now - 1000 * 60 * 60 * 48, false, None, System),
      Notification("7", "Someone VIBED with you!", "Jessie sent you a Vibe! Check out their profile.",
                   now - 1000 * 60 * 15, false, Some("p1"), Generic),
      Notification("8", "Welcome to VibeWave!", "Explore events, connect with people, and enjoy the vibe!",
                   now - 1000 * 60 * 60 * 72, true, None, System) ]
  }

  // ---------------------------------------------------------------- list updates

  /** `prev.map(n => n.id === id ? { ...n, read: true } : n)`: every entry with that id becomes
      read; nothing else changes, neither the other entries nor the other fields. */
  function MarkRead(ns: seq<Notification>, id: string): (r: seq<Notification>)
    ensures |r| == |ns|
    ensures forall i :: 0 <= i < |ns| ==> r[i].read == (ns[i].read || ns[i].id == id)
    ensures forall i :: 0 <= i < |ns| ==> r[i].(read := ns[i].read) == ns[i]
    ensures forall i :: 0 <= i < |ns| && ns[i].id != id ==> r[i] == ns[i]
  {
    seq(|ns|, i requires 0 <= i < |ns| => if ns[i].id == id then ns[i].(read := true) else ns[i])
  }

  /** `prev.map(n => ({ ...n, read: true }))`: every entry becomes read, with length, order and
      every other field kept. */
  function MarkAllRead(ns: seq<Notification>): (r: seq<Notification>)
    ensures |r| == |ns|
    ensures forall i :: 0 <= i < |ns| ==> r[i].read && r[i].(read := ns[i].read) == ns[i]
  {
    seq(|ns|, i requires 0 <= i < |ns| => ns[i].(read := true))
  }

  /** The number of unread notifications. */
  function UnreadCount(ns: seq<Notification>): nat
    decreases |ns|
  {
    if ns == [] then 0 else (if ns[0].read then 0 else 1) + UnreadCount(ns[1..])
  }

  /** Lists whose entries agree in everything but possibly the read flag, and where every
      entry of `b` that is unread is unread in `a` too, have no more unread entries in `b`. */
  lemma {:induction false} UnreadCountMonotone(a: seq<Notification>, b: seq<Notification>)
    requires |a| == |b|
    requires forall i :: 0 <= i < |a| && !b[i].read ==> !a[i].read
    ensures UnreadCount(b) <= UnreadCount(a)
    decreases |a|
  {
    if a != [] {
      UnreadCountMonotone(a[1..], b[1..]);
    }
  }

  /** A list with no unread entry has an unread count of zero. */
  lemma {:induction false} AllReadCountsZero(ns: seq<Notification>)
    requires forall i :: 0 <= i < |ns| ==> ns[i].read
    ensures UnreadCount(ns) == 0
    decreases |ns|
  {
    if ns != [] {
      AllReadCountsZero(ns[1..]);
    }
  }

  /** Pressing never raises the number of unread notifications. */
  lemma MarkReadLowersUnread(ns: seq<Notification>, id: string)
    ensures UnreadCount(MarkRead(ns, id)) <= UnreadCount(ns)
  {
    UnreadCountMonotone(ns, MarkRead(ns, id));
  }

  /** After "mark all" nothing is unread. */
  lemma MarkAllReadClearsUnread(ns: seq<Notification>)
    ensures UnreadCount(MarkAllRead(ns)) == 0
  {
    AllReadCountsZero(MarkAllRead(ns));
  }

  /** Marking everything read twice is marking it once. */
  lemma MarkAllReadIdempotent(ns: seq<Notification>)
    ensures MarkAllRead(MarkAllRead(ns)) == MarkAllRead(ns)
  {
  }

  /** Pressing the same notification twice is pressing it once. */
  lemma MarkReadIdempotent(ns: seq<Notification>, id: string)
    ensures MarkRead(MarkRead(ns, id), id) == MarkRead(ns, id)
  {
  }

  /** Pressing an id that no entry carries leaves the list as it was. */
  lemma MarkReadAbsent(ns: seq<Notification>, id: string)
    requires forall i :: 0 <= i < |ns| ==> ns[i].id != id
    ensures MarkRead(ns, id) == ns
  {
  }

  /** Pressing one and then marking all gives the same list as marking all directly. */
  lemma MarkAllAbsorbsMarkRead(ns: seq<Notification>, id: string)
    ensures MarkAllRead(MarkRead(ns, id)) == MarkAllRead(ns)
  {
    var a := MarkAllRead(MarkRead(ns, id));
    var b := MarkAllRead(ns);
    forall i | 0 <= i < |ns| ensures a[i] == b[i] {
      assert a[i] == MarkRead(ns, id)[i].(read := true);
    }
  }

  /** The mark-all and clear buttons are offered only for a non-empty list. */
  function HeaderActionsShown(ns: seq<Notification>): (r: bool)
    ensures r <==> |ns| > 0
  {
    |ns| > 0
  }

  // ---------------------------------------------------------------- routing

  /** The screens a press can open. */
  datatype Target = EventDetail(eventId: string) | ChatTab(chatId: string) | OtherUserProfile(personId: string)

  /** What a press does after marking the notification read. */
  datatype Destination = Navigate(target: Target) | ShowToast(toast: ToastDetails)

  /** `if (item.relatedId)`: present and not the empty string. */
  predicate HasRelatedId(n: Notification) {
    n.relatedId.Some? && n.relatedId.value != ""
  }

  function InfoToast(message: string): ToastDetails {
    ToastDetails(message, Info, None, None)
  }

  /** The `switch (item.type)` of `handleNotificationPress`. */
  function Route(n: Notification): (r: Destination)
    ensures r.Navigate? <==> HasRelatedId(n) && n.kind !in {System, Generic}
    ensures r.Navigate? ==> match r.target
                            case EventDetail(id) => id == n.relatedId.value && n.kind in {EventInvite, EventUpdate, RsvpConfirm}
                            case ChatTab(id) => id == n.relatedId.value && n.kind in {NewMessage, GroupInvite}
                            case OtherUserProfile(id) => id == n.relatedId.value && n.kind == FriendRequest
    ensures r.ShowToast? ==> r.toast.kind == Info && r.toast.duration.None? && r.toast.title.None?
  {
    match n.kind
    case EventInvite | EventUpdate | RsvpConfirm =>
      if HasRelatedId(n) then Navigate(EventDetail(n.relatedId.value))
      else ShowToast(InfoToast("Viewing details for: " + n.title))
    case NewMessage | GroupInvite =>
      if HasRelatedId(n) then Navigate(ChatTab(n.relatedId.value))
      else ShowToast(InfoToast("Opening chat: " + n.title))
    case FriendRequest =>
      if HasRelatedId(n) then Navigate(OtherUserProfile(n.relatedId.value))
      else ShowToast(InfoToast("Viewing profile for: " + n.title))
    case System | Generic =>
      ShowToast(InfoToast("Notification: " + n.title))
  }

  /** System and generic notifications always end in the default toast, even with a related
      id; the sample "Someone VIBED with you!" carries one and still does not navigate. */
  lemma SystemAndGenericOnlyToast(n: Notification)
    requires n.kind == System || n.kind == Generic
    ensures Route(n) == ShowToast(InfoToast("Notification: " + n.title))
  {
  }

  /** The sample data routes as its comments suggest: the RSVP to event 1, the message to
      chat3, the connection request to p2, the generic vibe notice to a toast. */
  lemma SampleRoutes(now: int)
    ensures Route(DummyNotifications(now)[0]) == Navigate(EventDetail("1"))
    ensures Route(DummyNotifications(now)[1]) == Navigate(ChatTab("chat3"))
    ensures Route(DummyNotifications(now)[3]) == Navigate(OtherUserProfile("p2"))
    ensures Route(DummyNotifications(now)[6]).ShowToast?
  {
  }

  // ---------------------------------------------------------------- state

  /** The screen's `notifications` state. */
  class Screen {
    var notifications: seq<Notification>

    constructor (now: int)
      ensures notifications == DummyNotifications(now)
    {
      notifications := DummyNotifications(now);
    }

    /** `handleNotificationPress(item)`: marks every entry with the item's id read and returns
        where the item's type and related id lead. */
    method Press(item: Notification) returns (dest: Destination)
      modifies this
      ensures notifications == MarkRead(old(notifications), item.id)
      ensures UnreadCount(notifications) <= UnreadCount(old(notifications))
      ensures dest == Route(item)
    {
      MarkReadLowersUnread(notifications, item.id);
      notifications := MarkRead(notifications, item.id);
      dest := Route(item);
    }

    /** `markAllAsRead`. */
    method MarkAllAsRead() returns (toast: ToastDetails)
      modifies this
      ensures notifications == MarkAllRead(old(notifications))
      ensures UnreadCount(notifications) == 0
      ensures toast == ToastDetails("All notifications marked as read.", Success, None, None)
    {
      MarkAllReadClearsUnread(notifications);
      notifications := MarkAllRead(notifications);
      toast := ToastDetails("All notifications marked as read.", Success, None, None);
    }

    /** `clearAllNotifications`: afterwards the header buttons are gone. */
    method ClearAllNotifications() returns (toast: ToastDetails)
      modifies this
      ensures notifications == [] && !HeaderActionsShown(notifications)
      ensures toast == InfoToast("All notifications cleared.")
    {
      notifications := [];
      toast := InfoToast("All notifications cleared.");
    }
  }
}
