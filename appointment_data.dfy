/** The customer appointment record as the detail screen receives it from
    `GET /customer/appointments/{id}`, and the activity-log entries it carries.
    Only the fields the appointment sections read are kept. Timestamps are
    integers (milliseconds since the epoch). */
module AppointmentData {
  import opened Common

  datatype StatusRef = StatusRef(code: string, name: string)

  datatype Actor = Actor(id: int, name: string, role: Option<string>)

  /** One entry of `appointment.history`. `occurredAt` is what
      `new Date(occurred_at).getTime()` yields. */
  datatype ActivityLogEntry = ActivityLogEntry(
    id: int,
    action: string,
    comment: Option<string>,
    occurredAt: int,
    status: Option<StatusRef>,
    occurredBy: Option<Actor>)

  datatype Service = Service(name: string, price: string)

  datatype Note = Note(id: int, content: string, addedBy: Option<string>, addedAt: string)

  datatype Staff = Staff(name: Option<string>, role: Option<string>)

  datatype Technician = Technician(id: int, staff: Staff, assignedAt: string)

  datatype Appointment = Appointment(
    id: int,
    service: Option<Service>,
    status: StatusRef,
    scheduledDate: string,
    scheduledTime: string,
    notes: Option<seq<Note>>,
    technicians: Option<seq<Technician>>,
    history: Option<seq<ActivityLogEntry>>)

  /** The statuses after which an appointment admits no further customer action. */
  predicate IsClosed(code: string) {
    code == "completed" || code == "cancelled"
  }
}
