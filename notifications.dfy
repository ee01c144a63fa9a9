/** The notification bell: a list of notifications that can be marked read
    one by one or all at once and removed, an unread badge, and the
    "time ago" label under each entry. */
module NotificationBell {
  import opened Wrappers
  import opened Seqs
  import opened Text
  import Types

  datatype Kind = Overdue | Reminder | Streak | Achievement | PausedSession

  datatype Notification = Notification(
    id: string,
    kind: Kind,
    title: string,
    description: string,
    timestamp: Types.Millis,
    isRead: bool,
    actionable: bool,
    topicId: Option<string>)

  const MinuteMs := 60000
  const HourMs := 60 * MinuteMs

  /** The demo list loaded on mount: three unread, two read. The titles
      use the fire and party emoji the source's mis-encoded bytes stand
      for. */
  function MockNotifications(now: Types.Millis): seq<Notification>
  {
    [ Notification("1", Overdue, "Topics Overdue",
        "3 topics are overdue for revision. Start catching up!", now - 2 * HourMs, false, true, None),
      Notification("2", PausedSession, "Paused Session Alert",
        "Differential Calculus session paused for 25+ hours. Mark as complete?", now - 25 * HourMs, false, true, Some("1")),
      Notification("3", Reminder, "Daily Revision Reminder",
        "Don't forget your daily revision goals! 5 topics due today.", now - 30 * MinuteMs, false, false, None),
      Notification("4", Streak, "Streak Milestone! \U{1F525}",
        "Congratulations! You've maintained a 7-day revision streak.", now - 1 * HourMs, true, false, None),
      Notification("5", Achievement, "Weekly Goal Achieved! \U{1F389}",
        "You've completed 180 minutes this week. Great job!", now - 6 * HourMs, true, false, None) ]
  }

  // ---------------------------------------------------------------------
  // The list operations
  // ---------------------------------------------------------------------

  predicate Unread(n: Notification) { !n.isRead }

  function HasId(id: string): Notification -> bool { (n: Notification) => n.id == id }
  function HasOtherId(id: string): Notification -> bool { (n: Notification) => n.id != id }
  function UnreadWithId(id: string): Notification -> bool { (n: Notification) => !n.isRead && n.id == id }

  /** `notifications.filter(n => !n.isRead).length`. */
  function UnreadCount(ns: seq<Notification>): nat
  {
    Count(ns, Unread)
  }

  function MarkOne(n: Notification, id: string): Notification
  {
    if n.id == id then n.(isRead := true) else n
  }

  /** `markAsRead(id)`: the entries with that id become read. */
  function MarkAsRead(ns: seq<Notification>, id: string): (r: seq<Notification>)
    ensures |r| == |ns|
  {
    if ns == [] then [] else [MarkOne(ns[0], id)] + MarkAsRead(ns[1..], id)
  }

  /** `markAllAsRead()`: every entry becomes read. */
  function MarkAllAsRead(ns: seq<Notification>): (r: seq<Notification>)
    ensures |r| == |ns|
  {
    if ns == [] then [] else [ns[0].(isRead := true)] + MarkAllAsRead(ns[1..])
  }

  /** `removeNotification(id)`: the entries with another id, in order. */
  function RemoveNotification(ns: seq<Notification>, id: string): seq<Notification>
  {
    Filter(ns, HasOtherId(id))
  }

  /** Marking one id read touches exactly the entries with that id, sets
      their flag and nothing else, and keeps length and order. */
  lemma {:induction false} MarkAsReadFacts(ns: seq<Notification>, id: string)
    ensures |MarkAsRead(ns, id)| == |ns|
    ensures forall k :: 0 <= k < |ns| && ns[k].id == id ==> MarkAsRead(ns, id)[k] == ns[k].(isRead := true)
    ensures forall k :: 0 <= k < |ns| && ns[k].id != id ==> MarkAsRead(ns, id)[k] == ns[k]
    decreases |ns|
  {
    if ns != [] {
      MarkAsReadFacts(ns[1..], id);
      forall k | 1 <= k < |ns| ensures MarkAsRead(ns, id)[k] == MarkOne(ns[k], id) {
        assert MarkAsRead(ns, id)[k] == MarkAsRead(ns[1..], id)[k - 1];
      }
    }
  }

  /** Marking the same id twice is the same as marking it once. */
  lemma {:induction false} MarkAsReadIdempotent(ns: seq<Notification>, id: string)
    ensures MarkAsRead(MarkAsRead(ns, id), id) == MarkAsRead(ns, id)
    decreases |ns|
  {
    if ns != [] {
      MarkAsReadIdempotent(ns[1..], id);
      var r := MarkAsRead(ns, id);
      assert r[1..] == MarkAsRead(ns[1..], id);
    }
  }

  /** The unread count drops by the number of unread entries with that id. */
  lemma {:induction false} MarkAsReadUnread(ns: seq<Notification>, id: string)
    ensures UnreadCount(MarkAsRead(ns, id)) == UnreadCount(ns) - Count(ns, UnreadWithId(id))
    decreases |ns|
  {
    if ns != [] {
      MarkAsReadUnread(ns[1..], id);
      var r := MarkAsRead(ns, id);
      assert r[1..] == MarkAsRead(ns[1..], id);
      assert r[0] == MarkOne(ns[0], id);
    }
  }

  /** After marking all read nothing is unread; each entry keeps everything
      but its flag, in the same place. */
  lemma {:induction false} MarkAllAsReadFacts(ns: seq<Notification>)
    ensures UnreadCount(MarkAllAsRead(ns)) == 0
    ensures forall k :: 0 <= k < |ns| ==> MarkAllAsRead(ns)[k] == ns[k].(isRead := true)
    decreases |ns|
  {
    if ns != [] {
      MarkAllAsReadFacts(ns[1..]);
      var r := MarkAllAsRead(ns);
      assert r[1..] == MarkAllAsRead(ns[1..]);
      forall k | 1 <= k < |ns| ensures r[k] == ns[k].(isRead := true) {
        assert r[k] == r[1..][k - 1];
      }
    }
  }

  /** Marking all read first or after marking one id comes to the same. */
  lemma {:induction false} MarkAllAbsorbsMark(ns: seq<Notification>, id: string)
    ensures MarkAllAsRead(MarkAsRead(ns, id)) == MarkAllAsRead(ns)
    decreases |ns|
  {
    if ns != [] {
      MarkAllAbsorbsMark(ns[1..], id);
      assert MarkAsRead(ns, id)[1..] == MarkAsRead(ns[1..], id);
    }
  }

  /** Removing an id leaves no entry with it, keeps every other entry,
      shortens the list by the entries removed and lowers the unread count
      by the unread ones among them. */
  lemma RemoveFacts(ns: seq<Notification>, id: string)
    ensures forall k :: 0 <= k < |RemoveNotification(ns, id)| ==> RemoveNotification(ns, id)[k].id != id
    ensures forall k :: 0 <= k < |ns| && ns[k].id != id ==> ns[k] in RemoveNotification(ns, id)
    ensures forall k :: 0 <= k < |RemoveNotification(ns, id)| ==> RemoveNotification(ns, id)[k] in ns
    ensures |RemoveNotification(ns, id)| == |ns| - Count(ns, HasId(id))
    ensures UnreadCount(RemoveNotification(ns, id)) == UnreadCount(ns) - Count(ns, UnreadWithId(id))
  {
    FilterMembers(ns, HasOtherId(id));
    RemoveCounts(ns, id);
  }

  lemma {:induction false} RemoveCounts(ns: seq<Notification>, id: string)
    ensures |RemoveNotification(ns, id)| == |ns| - Count(ns, HasId(id))
    ensures UnreadCount(RemoveNotification(ns, id)) == UnreadCount(ns) - Count(ns, UnreadWithId(id))
    decreases |ns|
  {
    if ns != [] {
      RemoveCounts(ns[1..], id);
      var head: seq<Notification> := if ns[0].id != id then [ns[0]] else [];
      assert RemoveNotification(ns, id) == head + RemoveNotification(ns[1..], id);
      CountConcat(head, RemoveNotification(ns[1..], id), Unread);
    }
  }

  /** Removing an id no entry has leaves the list as it was. */
  lemma RemoveAbsent(ns: seq<Notification>, id: string)
    requires forall k :: 0 <= k < |ns| ==> ns[k].id != id
    ensures RemoveNotification(ns, id) == ns
  {
    FilterAll(ns, HasOtherId(id));
  }

  /** Removing is idempotent. */
  lemma RemoveIdempotent(ns: seq<Notification>, id: string)
    ensures RemoveNotification(RemoveNotification(ns, id), id) == RemoveNotification(ns, id)
  {
    RemoveFacts(ns, id);
    RemoveAbsent(RemoveNotification(ns, id), id);
  }

  /** Marking an id read and then removing it is the same as removing it. */
  lemma {:induction false} RemoveAfterMark(ns: seq<Notification>, id: string)
    ensures RemoveNotification(MarkAsRead(ns, id), id) == RemoveNotification(ns, id)
    decreases |ns|
  {
    if ns != [] {
      RemoveAfterMark(ns[1..], id);
      var m := MarkAsRead(ns, id);
      assert m[1..] == MarkAsRead(ns[1..], id);
      assert m[0] == MarkOne(ns[0], id);
    }
  }

  /** The demo list shows three unread. */
  lemma MockUnread(now: Types.Millis)
    ensures UnreadCount(MockNotifications(now)) == 3
  {
    var ns := MockNotifications(now);
    assert Count(ns[4..], Unread) == 0;
    assert Count(ns[3..], Unread) == 0 by { assert ns[3..][1..] == ns[4..]; }
    assert Count(ns[2..], Unread) == 1 by { assert ns[2..][1..] == ns[3..]; }
    assert Count(ns[1..], Unread) == 2 by { assert ns[1..][1..] == ns[2..]; }
  }

  // ---------------------------------------------------------------------
  // The badge and the time-ago label
  // ---------------------------------------------------------------------

  /** The badge over the bell: hidden with nothing unread, "9+" above
      nine, the count otherwise. */
  function Badge(unread: nat): (r: Option<string>)
    ensures r.None? <==> unread == 0
    ensures r.Some? ==> |r.value| <= 2
    ensures unread > 9 ==> r == Some("9+")
    ensures 0 < unread <= 9 ==> r.Some? && ParseInt(r.value) == Some(unread)
  {
    if unread == 0 then None
    else if unread > 9 then Some("9+")
    else
      ParseIntNatToString(unread);
      Some(NatToString(unread))
  }

  /** `Math.floor((now - timestamp) / 60000)`. */
  function MinutesSince(now: Types.Millis, timestamp: Types.Millis): (r: int)
    ensures r * MinuteMs <= now - timestamp < (r + 1) * MinuteMs
  {
    (now - timestamp) / MinuteMs
  }

  /** The four kinds of label `formatTimeAgo` writes. */
  datatype Ago = JustNow | MinutesAgo(n: nat) | HoursAgo(n: nat) | DaysAgo(n: nat)

  /** The unit `formatTimeAgo` picks for an age in whole minutes. */
  function AgoOf(minutes: int): Ago
  {
    if minutes < 1 then JustNow
    else if minutes < 60 then MinutesAgo(minutes)
    else if minutes < 1440 then HoursAgo(minutes / 60)
    else DaysAgo(minutes / 1440)
  }

  function Label(a: Ago): string
  {
    match a
    case JustNow => "Just now"
    case MinutesAgo(n) => NatToString(n) + "m ago"
    case HoursAgo(n) => NatToString(n) + "h ago"
    case DaysAgo(n) => NatToString(n) + "d ago"
  }

  /** `formatTimeAgo(timestamp)` at the time `now`. */
  function FormatTimeAgo(now: Types.Millis, timestamp: Types.Millis): string
  {
    Label(AgoOf(MinutesSince(now, timestamp)))
  }

  /** Each label states the age truthfully, to the unit it uses: under a
      minute (or in the future) is "Just now", then whole minutes below an
      hour, whole hours below a day, and whole days. */
  lemma AgoOfBounds(minutes: int)
    ensures AgoOf(minutes).JustNow? <==> minutes < 1
    ensures AgoOf(minutes).MinutesAgo? ==> 1 <= AgoOf(minutes).n < 60 && AgoOf(minutes).n == minutes
    ensures AgoOf(minutes).HoursAgo? ==>
              1 <= AgoOf(minutes).n < 24 && AgoOf(minutes).n * 60 <= minutes < AgoOf(minutes).n * 60 + 60
    ensures AgoOf(minutes).DaysAgo? ==>
              1 <= AgoOf(minutes).n && AgoOf(minutes).n * 1440 <= minutes < AgoOf(minutes).n * 1440 + 1440
    ensures 60 <= minutes < 1440 <==> AgoOf(minutes).HoursAgo?
  {
  }

  /** The number in a label is read back by `parseInt`, and the letter
      after it tells the unit, so no two different ages of the same kind
      share a label. */
  lemma LabelReadsBack(a: Ago)
    requires !a.JustNow?
    ensures ParseInt(Label(a)) == Some(a.n)
    ensures Label(a)[|Label(a)| - 5] == (if a.MinutesAgo? then 'm' else if a.HoursAgo? then 'h' else 'd')
  {
    match a {
      case MinutesAgo(n) => NumeralThenUnit(n, "m ago");
      case HoursAgo(n) => NumeralThenUnit(n, "h ago");
      case DaysAgo(n) => NumeralThenUnit(n, "d ago");
    }
  }

  lemma NumeralThenUnit(n: nat, unit: string)
    requires |unit| == 5 && !IsDecimalDigit(unit[0]) && unit[0] != 'x' && unit[0] != 'X'
    ensures ParseInt(NatToString(n) + unit) == Some(n)
    ensures (NatToString(n) + unit)[|NatToString(n) + unit| - 5] == unit[0]
  {
    ParseIntNatThen(n, unit);
  }

  /** Different ages give different labels. */
  lemma LabelInjective(a: Ago, b: Ago)
    requires Label(a) == Label(b)
    ensures a == b
  {
    if !a.JustNow? {
      LabelReadsBack(a);
      assert IsDecimalDigit(Label(a)[0]);
    }
    if !b.JustNow? {
      LabelReadsBack(b);
      assert IsDecimalDigit(Label(b)[0]);
    }
  }

  // ---------------------------------------------------------------------
  // The component
  // ---------------------------------------------------------------------

  class NotificationCenter {
    var notifications: seq<Notification>
    var isOpen: bool

    /** Closed, with an empty list until the demo list loads. */
    constructor()
      ensures notifications == [] && !isOpen
    {
      notifications := [];
      isOpen := false;
    }

    /** The effect run on mount. */
    method LoadMock(now: Types.Millis)
      modifies this
      ensures notifications == MockNotifications(now) && isOpen == old(isOpen)
    {
      notifications := MockNotifications(now);
    }

    /** The "Mark all read" button is shown only with something unread. */
    predicate MarkAllShown()
      reads this
    {
      UnreadCount(notifications) > 0
    }

    /** Clicking an entry. */
    method MarkRead(id: string)
      modifies this
      ensures notifications == MarkAsRead(old(notifications), id) && isOpen == old(isOpen)
      ensures UnreadCount(notifications) == UnreadCount(old(notifications)) - Count(old(notifications), UnreadWithId(id))
    {
      MarkAsReadUnread(notifications, id);
      notifications := MarkAsRead(notifications, id);
    }

    /** "Mark all read"; the button then disappears. */
    method MarkAllRead()
      modifies this
      ensures notifications == MarkAllAsRead(old(notifications)) && isOpen == old(isOpen)
      ensures !MarkAllShown()
    {
      MarkAllAsReadFacts(notifications);
      notifications := MarkAllAsRead(notifications);
    }

    /** The close button of an entry. */
    method Remove(id: string)
      modifies this
      ensures notifications == RemoveNotification(old(notifications), id) && isOpen == old(isOpen)
      ensures forall k :: 0 <= k < |notifications| ==> notifications[k].id != id
    {
      RemoveFacts(notifications, id);
      notifications := RemoveNotification(notifications, id);
    }

    /** The popover's open state. */
    method SetOpen(open: bool)
      modifies this
      ensures isOpen == open && notifications == old(notifications)
    {
      isOpen := open;
    }
  }
}
