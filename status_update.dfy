/** The technician's status control: a three-step progression
    pending → in_progress → completed, the button that requests the next step,
    and which step circle and connectors are highlighted. */
module StatusUpdate {
  import opened Common
  import JobItem

  /** The status the button requests: none once the job is completed;
      otherwise a job status exactly one step further along the track. */
  function NextStatus(status: string): (next: Option<string>)
    ensures next.Some? <==> status != "completed"
    ensures next.Some? ==> next.value in JobItem.JobStatuses
    ensures next.Some? && status in JobItem.JobStatuses ==>
              StepIndex(next.value) == StepIndex(status) + 1
  {
    if status == "completed" then None
    else if status == "pending" then Some("in_progress")
    else Some("completed")
  }

  /** The button's text, shown exactly when there is a next status to
      request; 'Start Job' exactly when that request is 'in_progress'. */
  function ButtonLabel(status: string): (caption: Option<string>)
    ensures caption.Some? <==> NextStatus(status).Some?
    ensures caption == Some("Start Job") <==> NextStatus(status) == Some("in_progress")
    ensures caption.Some? ==> caption.value in ["Start Job", "Complete Job"]
  {
    if status == "completed" then None
    else if status == "pending" then Some("Start Job")
    else Some("Complete Job")
  }

  /** The completion message takes the button's place: exactly one of the
      two is shown. */
  function ShowsCompletedMessage(status: string): (shown: bool)
    ensures shown <==> ButtonLabel(status).None?
  {
    status == "completed"
  }

  datatype Steps = Steps(pending: bool, inProgress: bool, completed: bool,
                         firstConnector: bool, secondConnector: bool)

  /** The step circles and connectors: exactly one circle is lit for each job
      status (none for any other string), and the connectors light up behind
      the current step. */
  function StepView(status: string): (steps: Steps)
    ensures Highlighted(steps) == (if status in JobItem.JobStatuses then 1 else 0)
    ensures status in JobItem.JobStatuses ==>
              (steps.firstConnector <==> StepIndex(status) >= 1) &&
              (steps.secondConnector <==> StepIndex(status) >= 2)
  {
    Steps(status == "pending", status == "in_progress", status == "completed",
          status == "in_progress" || status == "completed", status == "completed")
  }

  /** Position of a job status on the three-step track. */
  function StepIndex(status: string): nat
    requires status in JobItem.JobStatuses
  {
    if status == "pending" then 0 else if status == "in_progress" then 1 else 2
  }

  /** The number of lit step circles. */
  function Highlighted(s: Steps): nat {
    (if s.pending then 1 else 0) + (if s.inProgress then 1 else 0) + (if s.completed then 1 else 0)
  }
}
