/** The notification drawer: the list it holds, marking one or all records
    read once the remote call succeeds, the unread count, and the pieces of
    each row (icon by type, job navigation, same-day clock text). */
module Notifications {
  import opened Common

  datatype Notification = Notification(
    id: int,
    title: string,
    message: string,
    timestamp: int,
    read: bool,
    kind: string,
    jobId: Option<int>)

  // ---------------------------------------------------------------------
  // List transforms

  /** `prev.map(item => item.id === id ? { ...item, read: true } : item)`. */
  function MarkRead(list: seq<Notification>, id: int): (r: seq<Notification>)
    ensures |r| == |list|
    ensures forall i :: 0 <= i < |list| ==>
              r[i].(read := list[i].read) == list[i] && (r[i].read <==> list[i].read || list[i].id == id)
  {
    seq(|list|, i requires 0 <= i < |list| =>
      if list[i].id == id then list[i].(read := true) else list[i])
  }

  /** `prev.map(item => ({ ...item, read: true }))`. */
  function MarkAllRead(list: seq<Notification>): (r: seq<Notification>)
    ensures |r| == |list|
    ensures forall i :: 0 <= i < |list| ==> r[i].read && r[i].(read := list[i].read) == list[i]
  {
    seq(|list|, i requires 0 <= i < |list| => list[i].(read := true))
  }

  predicate IsRead(n: Notification) {
    n.read
  }

  /** `notifications.filter(n => !n.read)`: exactly the unread records, each
      as often as the list holds it, in list order. */
  function Unread(list: seq<Notification>): (r: seq<Notification>)
    ensures forall n :: n in r <==> n in list && !n.read
    ensures forall n :: multiset(r)[n] == if n.read then 0 else multiset(list)[n]
  {
    RejectMultiset(list, IsRead);
    RejectIn(list, IsRead);
    Reject(list, IsRead)
  }

  /** `unreadCount`: never more than the list holds, and zero exactly when
      every record is read. */
  function UnreadCount(list: seq<Notification>): (count: nat)
    ensures count <= |list|
    ensures count == 0 <==> forall i :: 0 <= i < |list| ==> list[i].read
  {
    var r := Unread(list);
    assert r != [] ==> r[0] in list;
    |r|
  }

  /** After marking all read nothing is unread. */
  lemma MarkAllReadClearsCount(list: seq<Notification>)
    ensures UnreadCount(MarkAllRead(list)) == 0
  {
  }

  /** Marking an id that no record carries changes nothing. */
  lemma MarkReadAbsentId(list: seq<Notification>, id: int)
    requires forall i :: 0 <= i < |list| ==> list[i].id != id
    ensures MarkRead(list, id) == list
  {
  }

  /** Marking is idempotent. */
  lemma MarkReadIdempotent(list: seq<Notification>, id: int)
    ensures MarkRead(MarkRead(list, id), id) == MarkRead(list, id)
  {
  }

  predicate UniqueIds(list: seq<Notification>) {
    forall i, j :: 0 <= i < j < |list| ==> list[i].id != list[j].id
  }

  /** Marking an unread record whose id is unique lowers the count by one;
      marking a read one leaves it. */
  lemma {:induction false} MarkReadCount(list: seq<Notification>, id: int, k: nat)
    requires UniqueIds(list) && k < |list| && list[k].id == id
    ensures UnreadCount(MarkRead(list, id)) == UnreadCount(list) - (if list[k].read then 0 else 1)
  {
    var r := MarkRead(list, id);
    assert r[1..] == MarkRead(list[1..], id);
    if k == 0 {
      MarkReadAbsentId(list[1..], id);
    } else {
      MarkReadCount(list[1..], id, k - 1);
    }
  }

  // ---------------------------------------------------------------------
  // Row pieces

  datatype IconChoice = IconChoice(name: string, color: string)

  /** The row icon: primary-blue bell unless the type is job, system or alert. */
  function NotificationIcon(kind: string): (c: IconChoice)
    ensures kind !in ["job", "system", "alert"] <==> c == IconChoice("notifications-outline", "#3b82f6")
    ensures kind == "job" ==> c == IconChoice("briefcase-outline", "#3b82f6")
    ensures kind == "system" ==> c == IconChoice("information-circle-outline", "#6366f1")
    ensures kind == "alert" ==> c == IconChoice("warning-outline", "#f59e0b")
  {
    if kind == "job" then IconChoice("briefcase-outline", "#3b82f6")
    else if kind == "system" then IconChoice("information-circle-outline", "#6366f1")
    else if kind == "alert" then IconChoice("warning-outline", "#f59e0b")
    else IconChoice("notifications-outline", "#3b82f6")
  }

  /** Where pressing a notification leads: only a job notification with a
      truthy (non-zero) job id navigates. */
  function NavigationTarget(n: Notification): (r: Option<string>)
    ensures r.Some? <==> n.kind == "job" && n.jobId.Some? && n.jobId.value != 0
    ensures r.Some? ==> r.value == "/(tabs)/job/" + IntToString(n.jobId.value)
  {
    if n.kind == "job" && n.jobId.Some? && n.jobId.value != 0 then
      Some("/(tabs)/job/" + IntToString(n.jobId.value))
    else None
  }

  /** `hours % 12 || 12`. */
  function DisplayHour(hours: nat): (h: nat)
    requires hours < 24
    ensures 1 <= h <= 12 && h % 12 == hours % 12
  {
    if hours % 12 == 0 then 12 else hours % 12
  }

  function Meridiem(hours: nat): string {
    if hours >= 12 then "PM" else "AM"
  }

  /** The minutes with a leading zero below ten. */
  function TwoDigits(minutes: nat): (r: string)
    requires minutes < 60
    ensures |r| == 2 && IsDigit(r[0]) && IsDigit(r[1])
    ensures DigitsValue(r) == minutes
  {
    NatToStringValue(minutes);
    if minutes < 10 then
      var r := "0" + NatToString(minutes);
      assert r[..1] == "0" && r[1] == NatToString(minutes)[0];
      r
    else NatToString(minutes)
  }

  /** The same-day branch of `formatTime`, from the local hour and minute:
      "Today at ", the 12-hour clock hour, ':', the minutes as two digits,
      and "PM" exactly from noon on (else "AM"). */
  function TodayText(hours: nat, minutes: nat): (t: string)
    requires hours < 24 && minutes < 60
    ensures |t| >= 16 && t[..9] == "Today at "
    ensures t[9..|t| - 6] == NatToString(DisplayHour(hours))
    ensures t[|t| - 6] == ':' && t[|t| - 3] == ' '
    ensures var mm := t[|t| - 5..|t| - 3];
            |mm| == 2 && IsDigit(mm[0]) && IsDigit(mm[1]) && DigitsValue(mm) == minutes
    ensures t[|t| - 2..] == "PM" <==> hours >= 12
    ensures t[|t| - 2..] == "PM" || t[|t| - 2..] == "AM"
  {
    NatToStringValue(DisplayHour(hours));
    var hour := NatToString(DisplayHour(hours));
    var mm := TwoDigits(minutes);
    var t := "Today at " + hour + ":" + mm + " " + Meridiem(hours);
    assert t[|t| - 2..] == Meridiem(hours);
    assert t[|t| - 5..|t| - 3] == mm;
    assert t[9..|t| - 6] == hour;
    t
  }

  /** The 12-hour clock loses nothing: the shown hour and AM/PM give back the
      hour of the day. */
  lemma ClockRoundTrip(hours: nat)
    requires hours < 24
    ensures DisplayHour(hours) % 12 + (if Meridiem(hours) == "PM" then 12 else 0) == hours
  {
  }

  // ---------------------------------------------------------------------
  // Drawer screen

  /** "N unread notification(s)", shown only when some are unread. */
  function UnreadBanner(count: nat): (b: Option<string>)
    ensures b.Some? <==> count > 0
    ensures b.Some? ==> b.value == NatToString(count) + " unread " + (if count == 1 then "notification" else "notifications")
  {
    if count > 0 then
      Some(NatToString(count) + " unread " + (if count == 1 then "notification" else "notifications"))
    else None
  }

  datatype DrawerBody = Spinner | List(items: seq<Notification>) | EmptyNotifications

  datatype DrawerScreen = DrawerScreen(markAllShown: bool, banner: Option<string>, body: DrawerBody)

  /** What the drawer renders: nothing when hidden; the "Mark all read" link
      and the banner exactly when something is unread; a spinner while
      loading, else the list or the empty state. */
  function DrawerView(visible: bool, loading: bool, list: seq<Notification>): (v: Option<DrawerScreen>)
    ensures v.Some? <==> visible
    ensures v.Some? ==> (v.value.markAllShown <==> UnreadCount(list) > 0)
    ensures v.Some? ==> v.value.banner == UnreadBanner(UnreadCount(list))
    ensures v.Some? ==> (v.value.body.Spinner? <==> loading)
    ensures v.Some? && !loading ==> (v.value.body == List(list) <==> list != [])
  {
    if !visible then None
    else
      Some(DrawerScreen(
        UnreadCount(list) > 0,
        UnreadBanner(UnreadCount(list)),
        if loading then Spinner else if |list| > 0 then List(list) else EmptyNotifications))
  }

  /** The drawer's state: the list and the loading flag. */
  class NotificationDrawer {
    var notifications: seq<Notification>
    var loading: bool

    constructor ()
      ensures notifications == [] && loading
    {
      notifications := [];
      loading := true;
    }

    /** `loadNotifications`. The fetch helper swallows its own error and
        yields [], so a failed fetch empties the list. */
    method Load(fetched: Outcome<seq<Notification>>)
      modifies this
      ensures notifications == (if fetched.Ok? then fetched.value else [])
      ensures !loading
    {
      loading := true;
      var data := if fetched.Ok? then fetched.value else [];
      notifications := data;
      loading := false;
    }

    /** `handleNotificationPress`: local state changes only after the remote
        mark-read resolves; the result is where to navigate, if anywhere. */
    method Press(n: Notification, marked: Outcome<()>) returns (navigate: Option<string>)
      modifies this
      ensures marked.Ok? ==> notifications == MarkRead(old(notifications), n.id)
      ensures marked.Ok? ==> navigate == NavigationTarget(n)
      ensures marked.Fail? ==> notifications == old(notifications) && navigate.None?
      ensures loading == old(loading)
    {
      navigate := None;
      if marked.Fail? {
        return;
      }
      notifications := MarkRead(notifications, n.id);
      navigate := NavigationTarget(n);
    }

    /** `markAllAsRead`: all or nothing. */
    method MarkAll(marked: Outcome<()>)
      modifies this
      ensures marked.Ok? ==> notifications == MarkAllRead(old(notifications)) && UnreadCount(notifications) == 0
      ensures marked.Fail? ==> notifications == old(notifications)
      ensures loading == old(loading)
    {
      if marked.Ok? {
        notifications := MarkAllRead(notifications);
        MarkAllReadClearsCount(old(notifications));
      }
    }
  }
}
