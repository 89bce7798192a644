/** The appointment's price card: the service line, the total, and the
    payment message that depends on the appointment's status code. */
module PriceDetails {
  import opened Common
  import opened AppointmentData

  const DeferredPayment := "Payment will be collected after the service is completed."

  datatype PriceView = PriceView(
    serviceName: string,
    linePrice: string,
    total: string,
    deferredNote: Option<string>,
    paidOn: Option<string>)

  predicate AwaitsService(code: string) {
    code == "pending" || code == "confirmed"
  }

  /** `PriceDetailsSection`. */
  function PriceCard(appointment: Option<Appointment>): (v: Option<PriceView>)
    ensures v.None? <==> appointment.None? || appointment.value.service.None?
    ensures v.Some? ==>
              var a := appointment.value;
              v.value.serviceName == a.service.value.name &&
              v.value.linePrice == a.service.value.price && v.value.total == a.service.value.price
    ensures v.Some? ==> (v.value.deferredNote.Some? <==> AwaitsService(appointment.value.status.code))
    ensures v.Some? ==> (v.value.paidOn.Some? <==> appointment.value.status.code == "completed")
    ensures v.Some? && v.value.paidOn.Some? ==> v.value.paidOn.value == "Paid on " + appointment.value.scheduledDate
  {
    if appointment.None? || appointment.value.service.None? then None
    else
      var a := appointment.value;
      var code := a.status.code;
      Some(PriceView(
        a.service.value.name,
        a.service.value.price,
        a.service.value.price,
        if AwaitsService(code) then Some(DeferredPayment) else None,
        if code == "completed" then Some("Paid on " + a.scheduledDate) else None))
  }

  /** The deferred-payment note and the paid message never appear together,
      and a closed-by-cancellation appointment shows neither. */
  lemma PaymentMessagesExclusive(appointment: Option<Appointment>)
    ensures var v := PriceCard(appointment);
            v.Some? ==> !(v.value.deferredNote.Some? && v.value.paidOn.Some?)
    ensures var v := PriceCard(appointment);
            v.Some? && appointment.value.status.code == "cancelled" ==> v.value.deferredNote.None? && v.value.paidOn.None?
  {
  }
}
