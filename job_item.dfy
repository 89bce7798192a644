/** The job card: a total status-to-display table, the past-due test, and
    the due-time text written with integer milliseconds. `now` is a parameter. */
module JobItem {
  import opened Common
  import Badge

  datatype Job = Job(id: int, title: string, customer: string, address: string,
                     scheduled: int, status: string)

  datatype StatusInfo = StatusInfo(icon: string, text: string, variant: string)

  const JobStatuses: seq<string> := ["pending", "in_progress", "completed"]

  /** `getStatusInfo`: total, with the 'Unknown' triple exactly for a code
      outside the three job statuses; each job status is its own badge
      variant, and every variant is one the badge knows. */
  function GetStatusInfo(status: string): (info: StatusInfo)
    ensures status !in JobStatuses <==> info == StatusInfo("help-outline", "Unknown", "default")
    ensures info.variant in Badge.Variants
    ensures status in JobStatuses ==> info.variant == status
  {
    match status
    case "pending" => StatusInfo("time", "Pending", "pending")
    case "in_progress" => StatusInfo("play-outline", "In Progress", "in_progress")
    case "completed" => StatusInfo("checkmark-circle", "Completed", "completed")
    case _ => StatusInfo("help-outline", "Unknown", "default")
  }

  /** `jobDate < new Date() && job.status !== 'completed'`. */
  function IsPastDue(job: Job, now: int): (pastDue: bool)
    ensures pastDue ==> TimeText(job, now).isUrgent
  {
    job.scheduled < now && job.status != "completed"
  }

  const HourMs := 3600000

  /** `Math.round(diffMs / (1000 * 60 * 60))`: the nearest whole hour, halves
      rounded up. */
  function RoundHours(diffMs: int): (h: int)
    ensures h * HourMs - HourMs / 2 <= diffMs < h * HourMs + HourMs / 2
  {
    (diffMs + HourMs / 2) / HourMs
  }

  datatype TimeInfo = TimeInfo(text: string, isUrgent: bool)

  /** `getTimeText`: a completed job reads 'Completed' and is never urgent,
      at any time, and no open job reads 'Completed'. */
  function TimeText(job: Job, now: int): (info: TimeInfo)
    ensures job.status == "completed" ==> info == TimeInfo("Completed", false)
    ensures info.text == "Completed" <==> job.status == "completed"
  {
    if job.status == "completed" then TimeInfo("Completed", false)
    else
      var diffMs := job.scheduled - now;
      var diffHrs := RoundHours(diffMs);
      if diffMs < 0 then
        var hoursPast: nat := if diffHrs < 0 then -diffHrs else diffHrs;
        TimeInfo(if hoursPast < 24 then NatToString(hoursPast) + "h overdue"
                 else NatToString(hoursPast / 24) + "d overdue",
                 true)
      else if diffHrs < 24 then
        TimeInfo(if diffHrs < 1 then "Due now" else "In " + NatToString(diffHrs) + "h", diffHrs < 3)
      else
        var days := diffHrs / 24;
        var text := "In " + NatToString(days) + " day" + (if days > 1 then "s" else "");
        assert text[0] == 'I';
        TimeInfo(text, false)
  }

  /** The warning is raised exactly for an open job due less than two and a
      half hours from now (which includes every overdue job): that is where
      the rounded hour count drops below 3. */
  lemma UrgentIff(job: Job, now: int)
    ensures TimeText(job, now).isUrgent <==>
              job.status != "completed" && job.scheduled - now < 3 * HourMs - HourMs / 2
  {
    var diffMs := job.scheduled - now;
    var h := RoundHours(diffMs);
    if job.status != "completed" && diffMs >= 0 {
      assert h < 3 <==> diffMs < 3 * HourMs - HourMs / 2;
    }
  }

  /** The texts of the three branches. */
  lemma TimeTextBranches(job: Job, now: int)
    requires job.status != "completed"
    ensures var d := job.scheduled - now; var h := RoundHours(d);
            (d < 0 && -h < 24 ==> TimeText(job, now).text == NatToString(-h) + "h overdue") &&
            (d < 0 && -h >= 24 ==> TimeText(job, now).text == NatToString(-h / 24) + "d overdue") &&
            (d >= 0 && h < 1 ==> TimeText(job, now).text == "Due now") &&
            (d >= 0 && 1 <= h < 24 ==> TimeText(job, now).text == "In " + NatToString(h) + "h") &&
            (d >= 0 && h >= 24 ==> !TimeText(job, now).isUrgent)
  {
    var d := job.scheduled - now;
    var h := RoundHours(d);
    if d < 0 {
      assert h <= 0;
    }
  }

  /** 'Due now' is shown for the first half hour before the scheduled time. */
  lemma DueNowIff(job: Job, now: int)
    requires job.status != "completed"
    ensures TimeText(job, now).text == "Due now" <==> 0 <= job.scheduled - now < HourMs / 2
  {
    var d := job.scheduled - now;
    var h := RoundHours(d);
    if d < 0 {
      var t := TimeText(job, now).text;
      assert t[|t| - 1] == 'e' && "Due now"[6] == 'w';
    } else if h >= 24 {
      var t := TimeText(job, now).text;
      assert t[0] == 'I' && "Due now"[0] == 'D';
    } else if h >= 1 {
      var t := TimeText(job, now).text;
      assert t[0] == 'I' && "Due now"[0] == 'D';
    }
  }

  /** Beyond a day the text counts whole days and says "days" exactly when
      there are more than one. */
  lemma DaysPlural(job: Job, now: int)
    requires job.status != "completed" && job.scheduled - now >= 0 && RoundHours(job.scheduled - now) >= 24
    ensures var days := RoundHours(job.scheduled - now) / 24;
            days >= 1 &&
            TimeText(job, now).text == "In " + NatToString(days) + (if days > 1 then " days" else " day")
  {
  }

  /** The card's red " • <text>" suffix, shown only when urgent. */
  function Warning(job: Job, now: int): (w: Option<string>)
    ensures w.Some? <==> TimeText(job, now).isUrgent
    ensures w.Some? ==> w.value == " • " + TimeText(job, now).text
  {
    var info := TimeText(job, now);
    if info.isUrgent then Some(" • " + info.text) else None
  }
}
