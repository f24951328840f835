/** The administrator's notification centre: the notification feed with its
    unread count and its four tabs, the priority badge of each entry, and
    the eleven notification preferences the page keeps as switches. */
module AdminNotifications {
  import opened Text
  import Seqs

  /** A notification as the page lists it (its icon and colour are left
      out). */
  datatype Notification = Notification(
    id: nat,
    kind: string,
    title: string,
    message: string,
    time: string,
    priority: string,
    read: bool)

  /** The page's six mock notifications; the first two are unread. */
  function MockNotifications(): seq<Notification> {
    [ Notification(1, "booking", "New Booking Received",
                   "Room 205 (Deluxe) booked by Sarah Johnson for Jan 20-22", "5 minutes ago", "high", false),
      Notification(2, "checkin", "Guest Check-in", "John Doe has checked into Room 101", "15 minutes ago",
                   "medium", false),
      Notification(3, "alert", "Maintenance Alert", "Room 308 - Air conditioning unit requires service",
                   "1 hour ago", "high", true),
      Notification(4, "payment", "Payment Received", "$597 payment confirmed for booking BK001", "2 hours ago",
                   "medium", true),
      Notification(5, "checkout", "Guest Check-out", "Room 205 checkout completed by Sarah Wilson",
                   "3 hours ago", "low", true),
      Notification(6, "booking", "Booking Cancellation", "Booking BK003 cancelled by guest - refund processed",
                   "4 hours ago", "medium", true) ]
  }

  function IsUnread(n: Notification): bool {
    !n.read
  }

  function IsRead(n: Notification): bool {
    n.read
  }

  /** `unreadCount`: how many notifications are still unread. */
  function UnreadCount(ns: seq<Notification>): (n: nat)
    ensures n == |Seqs.Positions(ns, IsUnread)|
    ensures n <= |ns|
  {
    Seqs.FilterCount(ns, IsUnread);
    |Seqs.Filter(ns, IsUnread)|
  }

  /** The unread and the read notifications together are all of them. */
  lemma UnreadAndReadMakeAll(ns: seq<Notification>)
    ensures UnreadCount(ns) + |Seqs.Filter(ns, IsRead)| == |ns|
    ensures UnreadCount(ns) == |ns| <==> forall k :: 0 <= k < |ns| ==> !ns[k].read
  {
    Seqs.FilterPartition(ns, IsUnread, IsRead);
    Seqs.FilterMembership(ns, IsRead);
    if forall k :: 0 <= k < |ns| ==> !ns[k].read {
      Seqs.FilterKeepsAll(ns, IsUnread);
    } else {
      var k :| 0 <= k < |ns| && ns[k].read;
      assert ns[k] in Seqs.Filter(ns, IsRead);
    }
  }

  /** The header line: "<n> unread notification", with an "s" unless n is 1. */
  function UnreadLabel(count: nat): (header: string)
    ensures |header| > |DecimalString(count)| && header[..|DecimalString(count)|] == DecimalString(count)
    ensures |header| == |DecimalString(count)| + 20 + (if count != 1 then 1 else 0)
    ensures header[|DecimalString(count)|..|DecimalString(count)| + 20] == " unread notification"
    ensures header[|header| - 1] == 's' <==> count != 1
  {
    DecimalString(count) + " unread notification" + (if count != 1 then "s" else "")
  }

  /** The header reads back the unread count it was built from. */
  lemma UnreadLabelReadsBack(count: nat)
    ensures DecimalValue(UnreadLabel(count)[..|DecimalString(count)|]) == count
  {
    DecimalRoundTrip(count);
  }

  /** The four tabs; "today" lists the same feed as "all". */
  datatype Tab = AllTab | UnreadTab | HighTab | TodayTab

  const High: string := "high"

  function IsHigh(n: Notification): bool {
    n.priority == High
  }

  function Everything(n: Notification): bool {
    true
  }

  /** The test a tab puts to each notification. */
  function Shown(tab: Tab): Notification -> bool {
    match tab
    case UnreadTab => IsUnread
    case HighTab => IsHigh
    case _ => Everything
  }

  /** What a tab lists: the whole feed, the unread entries, or the entries of
      high priority, each in feed order and each as often as the feed holds
      it. */
  function TabList(ns: seq<Notification>, tab: Tab): (r: seq<Notification>)
    ensures Seqs.IsSubsequence(r, ns)
    ensures forall x :: x in r <==> x in ns && (tab == UnreadTab ==> !x.read) && (tab == HighTab ==> x.priority == High)
    ensures |r| == |Seqs.Positions(ns, Shown(tab))|
  {
    match tab
    case UnreadTab =>
      Seqs.FilterMembership(ns, IsUnread);
      Seqs.FilterIsSubsequence(ns, IsUnread);
      Seqs.FilterCount(ns, IsUnread);
      Seqs.Filter(ns, IsUnread)
    case HighTab =>
      Seqs.FilterMembership(ns, IsHigh);
      Seqs.FilterIsSubsequence(ns, IsHigh);
      Seqs.FilterCount(ns, IsHigh);
      Seqs.Filter(ns, IsHigh)
    case _ =>
      Seqs.FilterKeepsAll(ns, Everything);
      Seqs.FilterIsSubsequence(ns, Everything);
      Seqs.FilterCount(ns, Everything);
      ns
  }

  /** "Today" shows nothing that "all" does not: the two tabs are the same
      list. */
  lemma TodayIsAll(ns: seq<Notification>)
    ensures TabList(ns, TodayTab) == TabList(ns, AllTab) == ns
  {
  }

  /** A card offers "Mark as Read" exactly when its notification is unread. */
  predicate MarkAsReadShown(n: Notification) {
    !n.read
  }

  function ShowsButton(n: Notification): bool {
    MarkAsReadShown(n)
  }

  /** The unread tab draws the button on every card without a test; that
      agrees with the test the other tabs make, and the tab has as many
      cards as the header's count, which is also the number of buttons in
      the "all" tab. */
  lemma UnreadTabAgreesWithCount(ns: seq<Notification>)
    ensures forall x :: x in TabList(ns, UnreadTab) ==> MarkAsReadShown(x)
    ensures |TabList(ns, UnreadTab)| == UnreadCount(ns)
    ensures |Seqs.Filter(TabList(ns, AllTab), ShowsButton)| == UnreadCount(ns)
  {
    Seqs.FilterCongruent(ns, ShowsButton, IsUnread);
  }

  /** The mock feed has two unread notifications. */
  lemma MockUnread()
    ensures UnreadCount(MockNotifications()) == 2
    ensures UnreadLabel(UnreadCount(MockNotifications())) == "2 unread notifications"
  {
    var m := MockNotifications();
    MockPrefixes();
    assert Seqs.Filter(m[..1], IsUnread) == [m[0]];
    assert Seqs.Filter(m[..2], IsUnread) == [m[0], m[1]];
    assert Seqs.Filter(m[..3], IsUnread) == [m[0], m[1]];
    assert Seqs.Filter(m[..4], IsUnread) == [m[0], m[1]];
    assert Seqs.Filter(m[..5], IsUnread) == [m[0], m[1]];
    assert DecimalString(2) == "2";
  }

  /** The mock feed's high-priority tab lists notifications 1 and 3. */
  lemma MockHighTab()
    ensures |TabList(MockNotifications(), HighTab)| == 2
    ensures TabList(MockNotifications(), HighTab)[0].id == 1 && TabList(MockNotifications(), HighTab)[1].id == 3
  {
    var m := MockNotifications();
    MockPrefixes();
    assert Seqs.Filter(m[..1], IsHigh) == [m[0]];
    assert Seqs.Filter(m[..2], IsHigh) == [m[0]];
    assert Seqs.Filter(m[..3], IsHigh) == [m[0], m[2]];
    assert Seqs.Filter(m[..4], IsHigh) == [m[0], m[2]];
    assert Seqs.Filter(m[..5], IsHigh) == [m[0], m[2]];
  }

  lemma MockPrefixes()
    ensures var m := MockNotifications();
      && m[..6] == m && m[..6][..5] == m[..5] && m[..5][..4] == m[..4] && m[..4][..3] == m[..3]
      && m[..3][..2] == m[..2] && m[..2][..1] == m[..1] && m[..1][..0] == []
  {
  }

  /** A priority badge: its text, whether it is the red "destructive" badge,
      and whether it carries the yellow highlight. */
  datatype Badge = Badge(text: string, destructive: bool, yellow: bool)

  const KnownPriorities: seq<string> := ["high", "medium", "low"]

  /** `getPriorityBadge`. */
  function PriorityBadge(priority: string): (b: Badge)
    ensures priority == "high" ==> b == Badge("High", true, false)
    ensures priority == "medium" ==> b == Badge("Medium", false, true)
    ensures priority == "low" ==> b == Badge("Low", false, false)
    ensures b.destructive <==> priority == High
    ensures b.yellow <==> priority == "medium"
    ensures b.text == "Normal" <==> priority !in KnownPriorities
    ensures priority in KnownPriorities ==> |b.text| > 0 && IsUpper(b.text[0]) && Lower(b.text) == priority
  {
    match priority
    case "high" =>
      assert Lower("High") == "high";
      Badge("High", true, false)
    case "medium" =>
      assert Lower("Medium") == "medium";
      Badge("Medium", false, true)
    case "low" =>
      assert Lower("Low") == "low";
      Badge("Low", false, false)
    case _ => Badge("Normal", false, false)
  }

  /** Every card in the high-priority tab wears the red badge, and no card
      outside it does. */
  lemma HighTabBadges(ns: seq<Notification>, n: Notification)
    requires n in ns
    ensures PriorityBadge(n.priority).destructive <==> n in TabList(ns, HighTab)
  {
  }

  /** The eleven preferences, in the order the page declares them. */
  const SettingKeys: seq<string> := [
    "newBookings", "cancellations", "checkIns", "checkOuts", "maintenanceAlerts", "lowInventory",
    "dailyReports", "weeklyReports", "emailNotifications", "smsNotifications", "pushNotifications"]

  /** The three preferences that start switched off. */
  const InitiallyOff: seq<string> := ["checkOuts", "weeklyReports", "smsNotifications"]

  /** The preferences the page starts with: all eleven, on except three. */
  function InitialSettings(): (m: map<string, bool>)
    ensures forall k :: k in m <==> k in SettingKeys
    ensures forall k :: k in m ==> (m[k] <==> k !in InitiallyOff)
  {
    map[
      "newBookings" := true, "cancellations" := true, "checkIns" := true, "checkOuts" := false,
      "maintenanceAlerts" := true, "lowInventory" := true, "dailyReports" := true, "weeklyReports" := false,
      "emailNotifications" := true, "smsNotifications" := false, "pushNotifications" := true]
  }

  /** `handleSettingChange`'s update, `{...prev, [setting]: value}`. */
  function ChangeSetting(m: map<string, bool>, setting: string, value: bool): (r: map<string, bool>)
    ensures r.Keys == m.Keys + {setting}
    ensures r[setting] == value
    ensures forall k :: k in m && k != setting ==> r[k] == m[k]
  {
    m[setting := value]
  }

  /** Setting the same value twice is the same as setting it once. */
  lemma ChangeSettingIdempotent(m: map<string, bool>, setting: string, value: bool)
    ensures ChangeSetting(ChangeSetting(m, setting, value), setting, value) == ChangeSetting(m, setting, value)
  {
  }

  /** Switches for different preferences may be flipped in either order. */
  lemma ChangeSettingsCommute(m: map<string, bool>, s: string, v: bool, t: string, w: bool)
    requires s != t
    ensures ChangeSetting(ChangeSetting(m, s, v), t, w) == ChangeSetting(ChangeSetting(m, t, w), s, v)
  {
  }

  /** Flipping a switch and flipping it back restores the preferences. */
  lemma ToggleTwiceRestores(m: map<string, bool>, setting: string)
    requires setting in m
    ensures ChangeSetting(ChangeSetting(m, setting, !m[setting]), setting, m[setting]) == m
  {
  }

  /** A switch of the page names one of the eleven preferences, so flipping
      it adds no key. */
  lemma ChangeSettingKeepsKeys(m: map<string, bool>, setting: string, value: bool)
    requires forall k :: k in m <==> k in SettingKeys
    requires setting in SettingKeys
    ensures forall k :: k in ChangeSetting(m, setting, value) <==> k in SettingKeys
  {
  }

  /** The page's state: the fixed feed and the preferences it updates. */
  class NotificationsPage {
    const notifications: seq<Notification>
    var settings: map<string, bool>

    constructor ()
      ensures notifications == MockNotifications() && settings == InitialSettings()
    {
      notifications := MockNotifications();
      settings := InitialSettings();
    }

    /** `handleSettingChange`: the one preference takes the new value and a
        "Settings Updated" notice is raised. */
    method SettingChange(setting: string, value: bool) returns (notice: string)
      modifies this
      ensures settings == ChangeSetting(old(settings), setting, value)
      ensures notice == "Settings Updated"
    {
      settings := settings[setting := value];
      notice := "Settings Updated";
    }

    /** `handleMarkAsRead`: a notice only. That the feed is not changed is
        carried by the constant feed and the missing `modifies` clause; the
        second postcondition spells out what follows for the card: it stays
        in the unread tab. */
    method MarkAsRead(id: nat) returns (notice: string)
      ensures notice == "Notification Marked as Read"
      ensures forall n :: n in notifications && n.id == id && !n.read ==> n in TabList(notifications, UnreadTab)
    {
      notice := "Notification Marked as Read";
    }

    /** `handleMarkAllAsRead`: a notice only. As for `MarkAsRead`, nothing
        changes because nothing may; the second postcondition spells out what
        follows for the header: the unread tab keeps as many cards as the
        unread count. */
    method MarkAllAsRead() returns (notice: string)
      ensures notice == "All Notifications Read"
      ensures |TabList(notifications, UnreadTab)| == UnreadCount(notifications)
    {
      notice := "All Notifications Read";
      UnreadTabAgreesWithCount(notifications);
    }
  }
}
