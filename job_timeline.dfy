/** The technician-side job history: two case-sensitive lookups on the raw
    action string, and one row per history entry in input order, whose
    connectors depend only on its position. Badge text and variant come from
    the caller's helper, a function parameter here. */
module JobTimeline {
  import opened Common
  import Badge

  datatype HistoryEntry = HistoryEntry(id: int, action: string, occurredAt: int,
                                       occurredBy: Option<string>, comment: Option<string>)

  const TimelineActions: seq<string> := ["created", "scheduled", "started", "completed", "comment", "status_updated"]

  /** `getActionIcon`: no case folding; 'time-outline' for every tag outside
      the six (as for `status_updated`). */
  function TimelineIcon(action: string): (icon: string)
    ensures action !in TimelineActions ==> icon == "time-outline"
  {
    match action
    case "created" => "build-outline"
    case "scheduled" => "calendar-outline"
    case "started" => "play-outline"
    case "completed" => "checkmark-circle"
    case "comment" => "person-outline"
    case "status_updated" => "time-outline"
    case _ => "time-outline"
  }

  /** `getActionColor`: no case folding; the neutral slate exactly for the
      tags outside the six. */
  function TimelineColor(action: string): (color: string)
    ensures color == "#94a3b8" <==> action !in TimelineActions
  {
    match action
    case "created" => "#818cf8"
    case "scheduled" => "#f59e0b"
    case "started" => "#3b82f6"
    case "completed" => "#22c55e"
    case "comment" => "#64748b"
    case "status_updated" => "#8b5cf6"
    case _ => "#94a3b8"
  }

  /** The switch is on the raw string: any tag that starts with an upper-case
      letter (such as 'Created') is unknown, with the neutral colour and the
      default icon, although its lower-case spelling may be known. */
  lemma TimelineIsCaseSensitive(action: string)
    requires |action| > 0 && 'A' <= action[0] <= 'Z'
    ensures action !in TimelineActions
    ensures TimelineColor(action) == "#94a3b8" && TimelineIcon(action) == "time-outline"
  {
    forall k | 0 <= k < |TimelineActions| ensures TimelineActions[k] != action {
      assert TimelineActions[k][0] != action[0];
    }
  }

  datatype TimelineRow = TimelineRow(
    entry: HistoryEntry,
    badge: Badge.BadgeDetails,
    icon: string,
    color: string,
    upperConnector: bool,
    lowerConnector: bool,
    bottomMargin: bool,
    byName: string)

  /** `jobHistory.map((history, index) => ...)`. */
  function TimelineRows(history: seq<HistoryEntry>, badge: HistoryEntry -> Badge.BadgeDetails): (rows: seq<TimelineRow>)
    ensures |rows| == |history|
    ensures forall i :: 0 <= i < |rows| ==>
              rows[i].entry == history[i] && rows[i].badge == badge(history[i]) &&
              rows[i].icon == TimelineIcon(history[i].action) && rows[i].color == TimelineColor(history[i].action)
    ensures forall i :: 0 <= i < |rows| ==>
              (rows[i].upperConnector <==> i != 0) &&
              (rows[i].lowerConnector <==> i != |rows| - 1) &&
              (rows[i].bottomMargin <==> rows[i].lowerConnector)
    ensures forall i :: 0 <= i < |rows| ==>
              (rows[i].byName == "System" <==>
                 history[i].occurredBy.None? || history[i].occurredBy.value in ["", "System"]) &&
              (Truthy(history[i].occurredBy) ==> rows[i].byName == history[i].occurredBy.value)
  {
    seq(|history|, i requires 0 <= i < |history| =>
      TimelineRow(
        history[i],
        badge(history[i]),
        TimelineIcon(history[i].action),
        TimelineColor(history[i].action),
        i != 0,
        i != |history| - 1,
        i != |history| - 1,
        OrElse(if history[i].occurredBy.Some? then history[i].occurredBy.value else "", "System")))
  }

  function RowEntries(rows: seq<TimelineRow>): (r: seq<HistoryEntry>)
    ensures |r| == |rows|
  {
    if rows == [] then [] else [rows[0].entry] + RowEntries(rows[1..])
  }

  lemma {:induction false} RowEntriesAt(rows: seq<TimelineRow>, i: nat)
    requires i < |rows|
    ensures RowEntries(rows)[i] == rows[i].entry
  {
    if i > 0 {
      RowEntriesAt(rows[1..], i - 1);
    }
  }

  /** No sorting: reading the entries back off the rows gives the input. */
  lemma TimelineKeepsOrder(history: seq<HistoryEntry>, badge: HistoryEntry -> Badge.BadgeDetails)
    ensures RowEntries(TimelineRows(history, badge)) == history
  {
    var rows := TimelineRows(history, badge);
    forall i | 0 <= i < |history| ensures RowEntries(rows)[i] == history[i] {
      RowEntriesAt(rows, i);
    }
  }

  function CountUpper(rows: seq<TimelineRow>): nat {
    if rows == [] then 0 else (if rows[0].upperConnector then 1 else 0) + CountUpper(rows[1..])
  }

  function CountLower(rows: seq<TimelineRow>): nat {
    if rows == [] then 0 else (if rows[0].lowerConnector then 1 else 0) + CountLower(rows[1..])
  }

  lemma {:induction false} CountsFromFlags(rows: seq<TimelineRow>, first: nat)
    requires forall i :: 0 <= i < |rows| ==> (rows[i].upperConnector <==> i + first != 0)
    requires forall i :: 0 <= i < |rows| ==> (rows[i].lowerConnector <==> i != |rows| - 1)
    ensures rows != [] ==> CountUpper(rows) == |rows| - (if first == 0 then 1 else 0)
    ensures rows != [] ==> CountLower(rows) == |rows| - 1
  {
    if rows != [] {
      var tail := rows[1..];
      forall i | 0 <= i < |tail| ensures (tail[i].upperConnector <==> i + (first + 1) != 0) {
        assert tail[i] == rows[i + 1];
      }
      forall i | 0 <= i < |tail| ensures (tail[i].lowerConnector <==> i != |tail| - 1) {
        assert tail[i] == rows[i + 1];
      }
      CountsFromFlags(tail, first + 1);
    }
  }

  /** A non-empty timeline has exactly one row without an upper connector (the
      first) and exactly one without a lower connector (the last). */
  lemma ConnectorCounts(history: seq<HistoryEntry>, badge: HistoryEntry -> Badge.BadgeDetails)
    requires history != []
    ensures CountUpper(TimelineRows(history, badge)) == |history| - 1
    ensures CountLower(TimelineRows(history, badge)) == |history| - 1
  {
    CountsFromFlags(TimelineRows(history, badge), 0);
  }
}
