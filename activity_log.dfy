/** The customer appointment's activity log: three lookups keyed by the
    lower-cased action tag (icon, colour, badge text), and the log shown most
    recent first. The sort works on a copy, as `[...activityLog].sort(...)`
    does, and JavaScript's sort is stable, so entries with the same timestamp
    keep their input order. */
module ActivityLog {
  import opened Common
  import opened AppointmentData
  import Badge

  /** The eight action tags the lookups know (lower case). */
  const KnownActions: seq<string> := ["created", "rescheduled", "cancelled", "completed",
    "note_added", "technician_assigned", "payment_received", "status_changed"]

  const DefaultIcon := "information-circle"
  const BlueGrey := "#607D8B"

  // ---------------------------------------------------------------------
  // Lookups

  /** The four status codes with a colour of their own (lower case). */
  const ColoredStatuses: seq<string> := ["scheduled", "in_progress", "completed", "cancelled"]

  /** `getActionIcon`: the fallback 'information-circle' exactly for the tags
      outside the eight known ones. */
  function ActionIcon(action: string): (icon: string)
    ensures icon == DefaultIcon <==> ToLower(action) !in KnownActions
  {
    match ToLower(action)
    case "created" => "add-circle"
    case "rescheduled" => "calendar"
    case "cancelled" => "close-circle"
    case "completed" => "checkmark-circle"
    case "note_added" => "document-text"
    case "technician_assigned" => "person-add"
    case "payment_received" => "card"
    case "status_changed" => "sync-circle"
    case _ => DefaultIcon
  }

  /** The colour of a `status_changed` entry, by its status code
      (lower-cased): blue-grey exactly for a code outside the four. */
  function StatusColor(code: string): (color: string)
    ensures color == BlueGrey <==> ToLower(code) !in ColoredStatuses
  {
    match ToLower(code)
    case "scheduled" => "#2196F3"
    case "in_progress" => "#FF9800"
    case "completed" => "#8BC34A"
    case "cancelled" => "#F44336"
    case _ => BlueGrey
  }

  /** `getActionColor(action, statusCode)`: a `status_changed` entry with a
      (non-empty) status code takes the status colour; the result is
      blue-grey exactly for an unknown tag, or for `status_changed` without a
      status code or with one outside the four. */
  function ActionColor(action: string, statusCode: Option<string>): (color: string)
    ensures ToLower(action) == "status_changed" && Truthy(statusCode) ==> color == StatusColor(statusCode.value)
    ensures color == BlueGrey <==>
              ToLower(action) !in KnownActions ||
              (ToLower(action) == "status_changed" &&
               (!Truthy(statusCode) || ToLower(statusCode.value) !in ColoredStatuses))
  {
    if ToLower(action) == "status_changed" && Truthy(statusCode) then StatusColor(statusCode.value)
    else
      match ToLower(action)
      case "created" => "#4CAF50"
      case "rescheduled" => "#2196F3"
      case "cancelled" => "#F44336"
      case "completed" => "#8BC34A"
      case "note_added" => "#9C27B0"
      case "technician_assigned" => "#FF9800"
      case "payment_received" => "#00BCD4"
      case "status_changed" => BlueGrey
      case _ => BlueGrey
  }

  /** `getActionBadgeDetails`: each known action has its fixed badge and
      anything else is 'Updated'; `status_changed` with a status object names
      the status. Every variant handed out is one the badge's tables know, so
      its style never falls back. */
  function BadgeDetails(entry: ActivityLogEntry): (b: Badge.BadgeDetails)
    ensures b.variant in Badge.Variants
    ensures ToLower(entry.action) !in KnownActions ==> b == Badge.BadgeDetails("default", "Updated")
    ensures ToLower(entry.action) == "status_changed" && entry.status.Some? ==>
              b == Badge.BadgeDetails("default", "Status changed to " + ToLower(entry.status.value.name))
    ensures ToLower(entry.action) == "status_changed" && entry.status.None? ==>
              b == Badge.BadgeDetails("default", "Status Changed")
  {
    if ToLower(entry.action) == "status_changed" && entry.status.Some? then
      Badge.BadgeDetails("default", "Status changed to " + ToLower(entry.status.value.name))
    else
      match ToLower(entry.action)
      case "created" => Badge.BadgeDetails("info", "Created")
      case "rescheduled" => Badge.BadgeDetails("warning", "Rescheduled")
      case "cancelled" => Badge.BadgeDetails("canceled", "Cancelled")
      case "completed" => Badge.BadgeDetails("completed", "Completed")
      case "note_added" => Badge.BadgeDetails("blue", "Note Added")
      case "technician_assigned" => Badge.BadgeDetails("indigo", "Tech Assigned")
      case "payment_received" => Badge.BadgeDetails("emerald", "Payment Received")
      case "status_changed" => Badge.BadgeDetails("default", "Status Changed")
      case _ => Badge.BadgeDetails("default", "Updated")
  }

  /** The lookups see the action only through `toLowerCase()`: two tags that
      differ only in ASCII case get the same icon, colour and badge. */
  lemma LookupsIgnoreCase(action: string, statusCode: Option<string>, entry: ActivityLogEntry)
    requires ToLower(entry.action) == ToLower(action)
    ensures ActionIcon(action) == ActionIcon(ToLower(action))
    ensures ActionColor(action, statusCode) == ActionColor(ToLower(action), statusCode)
    ensures BadgeDetails(entry) == BadgeDetails(entry.(action := ToLower(action)))
  {
    ToLowerIdempotent(action);
  }

  /** Only `status_changed` has a badge that depends on the entry's data;
      for every other tag the status, comment and author play no part. */
  lemma BadgeOnlyReadsAction(entry: ActivityLogEntry)
    ensures ToLower(entry.action) != "status_changed" ==>
              BadgeDetails(entry) == BadgeDetails(entry.(status := None, comment := None, occurredBy := None))
  {
  }

  // ---------------------------------------------------------------------
  // Most-recent-first order

  predicate SortedDesc(s: seq<ActivityLogEntry>) {
    forall i, j :: 0 <= i < j < |s| ==> s[i].occurredAt >= s[j].occurredAt
  }

  /** Places `e` before the first entry that is not later than it. */
  function Insert(e: ActivityLogEntry, s: seq<ActivityLogEntry>): (r: seq<ActivityLogEntry>)
    requires SortedDesc(s)
    ensures SortedDesc(r)
    ensures multiset(r) == multiset(s) + multiset{e}
    ensures |r| == |s| + 1
    ensures r != [] && (r[0] == e || (s != [] && r[0] == s[0]))
  {
    if s == [] || s[0].occurredAt <= e.occurredAt then
      [e] + s
    else
      var rest := Insert(e, s[1..]);
      assert s == [s[0]] + s[1..];
      [s[0]] + rest
  }

  /** `[...log].sort((a, b) => b.occurredAt - a.occurredAt)`: a sorted
      permutation of the log. */
  function SortLog(log: seq<ActivityLogEntry>): (r: seq<ActivityLogEntry>)
    ensures SortedDesc(r)
    ensures multiset(r) == multiset(log)
    ensures |r| == |log|
  {
    if log == [] then []
    else
      assert log == [log[0]] + log[1..];
      Insert(log[0], SortLog(log[1..]))
  }

  /** The entries with timestamp `t`, in order. */
  function AtTime(s: seq<ActivityLogEntry>, t: int): seq<ActivityLogEntry> {
    if s == [] then []
    else (if s[0].occurredAt == t then [s[0]] else []) + AtTime(s[1..], t)
  }

  lemma {:induction false} InsertAtTime(e: ActivityLogEntry, s: seq<ActivityLogEntry>, t: int)
    requires SortedDesc(s)
    ensures AtTime(Insert(e, s), t) == (if e.occurredAt == t then [e] else []) + AtTime(s, t)
  {
    if s == [] || s[0].occurredAt <= e.occurredAt {
      assert ([e] + s)[1..] == s;
    } else {
      assert SortedDesc(s[1..]);
      InsertAtTime(e, s[1..], t);
      var r := Insert(e, s[1..]);
      assert Insert(e, s) == [s[0]] + r;
      assert ([s[0]] + r)[1..] == r;
      assert AtTime(Insert(e, s), t) == (if s[0].occurredAt == t then [s[0]] else []) + AtTime(r, t);
      assert e.occurredAt == t ==> s[0].occurredAt != t;
    }
  }

  /** The sort is stable: among entries with equal timestamps the input order
      survives. */
  lemma {:induction false} SortLogStable(log: seq<ActivityLogEntry>)
    ensures forall t :: AtTime(SortLog(log), t) == AtTime(log, t)
  {
    if log != [] {
      SortLogStable(log[1..]);
      forall t ensures AtTime(SortLog(log), t) == AtTime(log, t) {
        InsertAtTime(log[0], SortLog(log[1..]), t);
      }
    }
  }

  /** A log that is already most recent first comes back unchanged. */
  lemma {:induction false} SortLogOfSorted(log: seq<ActivityLogEntry>)
    requires SortedDesc(log)
    ensures SortLog(log) == log
  {
    if log != [] {
      SortLogOfSorted(log[1..]);
      assert SortLog(log[1..]) == log[1..];
      assert log[1..] == [] || log[1..][0].occurredAt <= log[0].occurredAt;
    }
  }

  // ---------------------------------------------------------------------
  // Rendering

  datatype LogRow = LogRow(
    entry: ActivityLogEntry,
    text: string,
    icon: string,
    color: string,
    byName: string,
    role: Option<string>,
    comment: Option<string>)

  datatype LogView = Nothing | EmptyState | Rows(rows: seq<LogRow>)

  /** One row of the card: badge text, icon, colour, "by <name>" with the
      "System" fallback, the role when truthy and the comment when truthy. */
  function RowFor(e: ActivityLogEntry): (row: LogRow)
    ensures row.entry == e
    ensures row.text == BadgeDetails(e).text && row.icon == ActionIcon(e.action)
    ensures row.color == ActionColor(e.action, if e.status.Some? then Some(e.status.value.code) else None)
    ensures row.byName == "System" <==> e.occurredBy.None? || e.occurredBy.value.name in ["", "System"]
    ensures e.occurredBy.Some? && e.occurredBy.value.name != "" ==> row.byName == e.occurredBy.value.name
    ensures row.role.Some? <==> e.occurredBy.Some? && Truthy(e.occurredBy.value.role)
    ensures row.role.Some? ==> row.role == e.occurredBy.value.role
    ensures row.comment.Some? <==> Truthy(e.comment)
    ensures row.comment.Some? ==> row.comment == e.comment
  {
    LogRow(
      e,
      BadgeDetails(e).text,
      ActionIcon(e.action),
      ActionColor(e.action, if e.status.Some? then Some(e.status.value.code) else None),
      OrElse(if e.occurredBy.Some? then e.occurredBy.value.name else "", "System"),
      if e.occurredBy.Some? && Truthy(e.occurredBy.value.role) then e.occurredBy.value.role else None,
      if Truthy(e.comment) then e.comment else None)
  }

  function Entries(rows: seq<LogRow>): (r: seq<ActivityLogEntry>)
    ensures |r| == |rows| && forall i :: 0 <= i < |rows| ==> r[i] == rows[i].entry
  {
    if rows == [] then [] else [rows[0].entry] + Entries(rows[1..])
  }

  /** One row per entry, in the entries' order. */
  function RowsFor(entries: seq<ActivityLogEntry>): (rows: seq<LogRow>)
    ensures Entries(rows) == entries
    ensures forall i :: 0 <= i < |rows| ==> rows[i] == RowFor(rows[i].entry)
  {
    var rows := seq(|entries|, i requires 0 <= i < |entries| => RowFor(entries[i]));
    assert Entries(rows) == entries;
    rows
  }

  /** `appointment?.history || sampleActivityLog`; the sample list is the
      caller's parameter. */
  function LogSource(a: Appointment, sample: seq<ActivityLogEntry>): seq<ActivityLogEntry> {
    if a.history.Some? then a.history.value else sample
  }

  /** `ActivityLogSection`: nothing without an appointment, the empty state
      for an empty log, otherwise one row per entry, most recent first, with
      entries of equal timestamp in their input order. */
  function RenderLog(appointment: Option<Appointment>, sample: seq<ActivityLogEntry>): (v: LogView)
    ensures v.Nothing? <==> appointment.None?
    ensures v.EmptyState? <==> appointment.Some? && LogSource(appointment.value, sample) == []
    ensures v.Rows? ==> SortedDesc(Entries(v.rows))
    ensures v.Rows? ==> multiset(Entries(v.rows)) == multiset(LogSource(appointment.value, sample))
    ensures v.Rows? ==> Entries(v.rows) == SortLog(LogSource(appointment.value, sample))
    ensures v.Rows? ==> forall t :: AtTime(Entries(v.rows), t) == AtTime(LogSource(appointment.value, sample), t)
    ensures v.Rows? ==> forall i :: 0 <= i < |v.rows| ==> v.rows[i] == RowFor(v.rows[i].entry)
  {
    if appointment.None? then Nothing
    else
      var log := LogSource(appointment.value, sample);
      if log == [] then EmptyState
      else
        SortLogStable(log);
        Rows(RowsFor(SortLog(log)))
  }
}
