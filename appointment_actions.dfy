/** The appointment's Cancel and Reschedule buttons with their two sheets:
    the visibility guard, the validators that collect every missing field,
    and the submit handlers that post only a valid form, reset it on success
    and keep it on failure. Picked dates and times are integers
    (milliseconds since the epoch). */
module AppointmentActions {
  import opened Common
  import opened AppointmentData

  /** The buttons render only for an appointment that is neither completed
      nor cancelled: they are hidden for a missing appointment and for the
      two closed statuses, and for nothing else. */
  function ActionsVisible(appointment: Option<Appointment>): (visible: bool)
    ensures !visible <==> appointment.None? || appointment.value.status.code in ["completed", "cancelled"]
  {
    appointment.Some? && !IsClosed(appointment.value.status.code)
  }

  // ---------------------------------------------------------------------
  // Validation

  datatype RescheduleErrors = RescheduleErrors(date: Option<string>, time: Option<string>, reason: Option<string>)

  const NoRescheduleErrors := RescheduleErrors(None, None, None)

  const DateRequired := "Date is required."
  const TimeRequired := "Time is required."
  const RescheduleReasonRequired := "Reason for rescheduling is required."
  const CancelReasonRequired := "Reason for cancellation is required."

  /** The errors `validateRescheduleForm` collects: each field is checked on
      its own, so every missing field is reported at once. */
  function RescheduleErrorsFor(date: Option<int>, time: Option<int>, reason: string): (e: RescheduleErrors)
    ensures e.date == (if date.None? then Some(DateRequired) else None)
    ensures e.time == (if time.None? then Some(TimeRequired) else None)
    ensures e.reason.Some? <==> IsBlank(reason)
    ensures e.reason.Some? ==> e.reason.value == RescheduleReasonRequired
  {
    RescheduleErrors(
      if date.None? then Some(DateRequired) else None,
      if time.None? then Some(TimeRequired) else None,
      if TrimsToEmpty(reason) then Some(RescheduleReasonRequired) else None)
  }

  /** The reschedule form is valid exactly when a date and a time are picked
      and the reason has a non-whitespace character. */
  lemma RescheduleValidIff(date: Option<int>, time: Option<int>, reason: string)
    ensures RescheduleErrorsFor(date, time, reason) == NoRescheduleErrors <==>
              date.Some? && time.Some? && !IsBlank(reason)
  {
  }

  /** The error `validateCancelForm` sets, if any. */
  function CancelErrorFor(reason: string): (e: Option<string>)
    ensures e.Some? <==> IsBlank(reason)
    ensures e.Some? ==> e.value == CancelReasonRequired
  {
    if TrimsToEmpty(reason) then Some(CancelReasonRequired) else None
  }

  // ---------------------------------------------------------------------
  // The screen's state

  datatype RescheduleForm = RescheduleForm(date: Option<int>, time: Option<int>, reason: string, errors: RescheduleErrors)

  const EmptyRescheduleForm := RescheduleForm(None, None, "", NoRescheduleErrors)

  datatype CancelForm = CancelForm(reason: string, error: Option<string>)

  const EmptyCancelForm := CancelForm("", None)

  const CancelFailed := Alert("Error", "Could not cancel the appointment. Please try again.")

  class ActionButtons {
    /** The component's prop. */
    const appointment: Option<Appointment>
    var form: RescheduleForm
    var showDatePicker: bool
    var showTimePicker: bool
    var isSubmitting: bool
    var cancel: CancelForm
    var isSubmittingCancel: bool
    var rescheduleSheetOpen: bool
    var cancelSheetOpen: bool

    constructor (appointment: Option<Appointment>)
      ensures this.appointment == appointment
      ensures form == EmptyRescheduleForm && cancel == EmptyCancelForm
      ensures !showDatePicker && !showTimePicker && !isSubmitting && !isSubmittingCancel
      ensures !rescheduleSheetOpen && !cancelSheetOpen
    {
      this.appointment := appointment;
      form := EmptyRescheduleForm;
      showDatePicker := false;
      showTimePicker := false;
      isSubmitting := false;
      cancel := EmptyCancelForm;
      isSubmittingCancel := false;
      rescheduleSheetOpen := false;
      cancelSheetOpen := false;
    }

    /** `handlePresentRescheduleSheet`: resets the whole reschedule form. */
    method PresentRescheduleSheet()
      modifies this
      ensures appointment.Some? ==> form == EmptyRescheduleForm && rescheduleSheetOpen
      ensures appointment.None? ==> form == old(form) && rescheduleSheetOpen == old(rescheduleSheetOpen)
      ensures cancel == old(cancel) && isSubmitting == old(isSubmitting) && isSubmittingCancel == old(isSubmittingCancel)
      ensures cancelSheetOpen == old(cancelSheetOpen)
      ensures showDatePicker == old(showDatePicker) && showTimePicker == old(showTimePicker)
    {
      if appointment.None? {
        return;
      }
      form := EmptyRescheduleForm;
      rescheduleSheetOpen := true;
    }

    /** `handlePresentCancelSheet`: resets the reason, its error and the
        submitting flag. */
    method PresentCancelSheet()
      modifies this
      ensures appointment.Some? ==> cancel == EmptyCancelForm && !isSubmittingCancel && cancelSheetOpen
      ensures appointment.None? ==>
                cancel == old(cancel) && isSubmittingCancel == old(isSubmittingCancel) &&
                cancelSheetOpen == old(cancelSheetOpen)
      ensures form == old(form) && isSubmitting == old(isSubmitting) && rescheduleSheetOpen == old(rescheduleSheetOpen)
      ensures showDatePicker == old(showDatePicker) && showTimePicker == old(showTimePicker)
    {
      if appointment.None? {
        return;
      }
      cancel := EmptyCancelForm;
      isSubmittingCancel := false;
      cancelSheetOpen := true;
    }

    method OpenDatePicker()
      modifies this
      ensures showDatePicker
      ensures form == old(form) && cancel == old(cancel) && showTimePicker == old(showTimePicker)
      ensures isSubmitting == old(isSubmitting) && isSubmittingCancel == old(isSubmittingCancel)
      ensures rescheduleSheetOpen == old(rescheduleSheetOpen) && cancelSheetOpen == old(cancelSheetOpen)
    {
      showDatePicker := true;
    }

    method OpenTimePicker()
      modifies this
      ensures showTimePicker
      ensures form == old(form) && cancel == old(cancel) && showDatePicker == old(showDatePicker)
      ensures isSubmitting == old(isSubmitting) && isSubmittingCancel == old(isSubmittingCancel)
      ensures rescheduleSheetOpen == old(rescheduleSheetOpen) && cancelSheetOpen == old(cancelSheetOpen)
    {
      showTimePicker := true;
    }

    /** `onDateChange`: a 'set' event with a date stores it and clears only
        the date error. The picker stays open only on iOS for an event that
        neither set a date nor dismissed it. */
    method OnDateChange(eventType: string, date: Option<int>, ios: bool)
      modifies this
      ensures eventType == "set" && date.Some? ==>
                form == old(form).(date := date, errors := old(form).errors.(date := None))
      ensures !(eventType == "set" && date.Some?) ==> form == old(form)
      ensures showDatePicker <==> ios && !(eventType == "set" && date.Some?) && eventType != "dismissed"
      ensures cancel == old(cancel) && showTimePicker == old(showTimePicker)
      ensures isSubmitting == old(isSubmitting) && isSubmittingCancel == old(isSubmittingCancel)
      ensures rescheduleSheetOpen == old(rescheduleSheetOpen) && cancelSheetOpen == old(cancelSheetOpen)
    {
      showDatePicker := ios;
      if !ios {
        showDatePicker := false;
      }
      if eventType == "set" && date.Some? {
        form := form.(date := date);
        form := form.(errors := form.errors.(date := None));
        if ios {
          showDatePicker := false;
        }
      } else if eventType == "dismissed" && ios {
        showDatePicker := false;
      }
    }

    /** `onTimeChange`, the same for the time. */
    method OnTimeChange(eventType: string, time: Option<int>, ios: bool)
      modifies this
      ensures eventType == "set" && time.Some? ==>
                form == old(form).(time := time, errors := old(form).errors.(time := None))
      ensures !(eventType == "set" && time.Some?) ==> form == old(form)
      ensures showTimePicker <==> ios && !(eventType == "set" && time.Some?) && eventType != "dismissed"
      ensures cancel == old(cancel) && showDatePicker == old(showDatePicker)
      ensures isSubmitting == old(isSubmitting) && isSubmittingCancel == old(isSubmittingCancel)
      ensures rescheduleSheetOpen == old(rescheduleSheetOpen) && cancelSheetOpen == old(cancelSheetOpen)
    {
      showTimePicker := ios;
      if !ios {
        showTimePicker := false;
      }
      if eventType == "set" && time.Some? {
        form := form.(time := time);
        form := form.(errors := form.errors.(time := None));
        if ios {
          showTimePicker := false;
        }
      } else if eventType == "dismissed" && ios {
        showTimePicker := false;
      }
    }

    /** Typing a reschedule reason clears only the reason error. */
    method TypeReason(text: string)
      modifies this
      ensures form == old(form).(reason := text, errors := old(form).errors.(reason := None))
      ensures cancel == old(cancel) && showDatePicker == old(showDatePicker) && showTimePicker == old(showTimePicker)
      ensures isSubmitting == old(isSubmitting) && isSubmittingCancel == old(isSubmittingCancel)
      ensures rescheduleSheetOpen == old(rescheduleSheetOpen) && cancelSheetOpen == old(cancelSheetOpen)
    {
      form := form.(reason := text);
      form := form.(errors := form.errors.(reason := None));
    }

    /** Typing a cancellation reason clears its error. */
    method TypeCancelReason(text: string)
      modifies this
      ensures cancel == CancelForm(text, None)
      ensures form == old(form) && showDatePicker == old(showDatePicker) && showTimePicker == old(showTimePicker)
      ensures isSubmitting == old(isSubmitting) && isSubmittingCancel == old(isSubmittingCancel)
      ensures rescheduleSheetOpen == old(rescheduleSheetOpen) && cancelSheetOpen == old(cancelSheetOpen)
    {
      cancel := cancel.(reason := text);
      cancel := cancel.(error := None);
    }

    /** `validateRescheduleForm`: builds the errors field by field, stores
        them, and reports whether there are none. */
    method ValidateRescheduleForm() returns (valid: bool)
      modifies this
      ensures form == old(form).(errors := RescheduleErrorsFor(old(form).date, old(form).time, old(form).reason))
      ensures valid <==> old(form).date.Some? && old(form).time.Some? && !IsBlank(old(form).reason)
      ensures cancel == old(cancel) && showDatePicker == old(showDatePicker) && showTimePicker == old(showTimePicker)
      ensures isSubmitting == old(isSubmitting) && isSubmittingCancel == old(isSubmittingCancel)
      ensures rescheduleSheetOpen == old(rescheduleSheetOpen) && cancelSheetOpen == old(cancelSheetOpen)
    {
      RescheduleValidIff(form.date, form.time, form.reason);
      var newErrors := NoRescheduleErrors;
      if form.date.None? {
        newErrors := newErrors.(date := Some(DateRequired));
      }
      if form.time.None? {
        newErrors := newErrors.(time := Some(TimeRequired));
      }
      if TrimsToEmpty(form.reason) {
        newErrors := newErrors.(reason := Some(RescheduleReasonRequired));
      }
      form := form.(errors := newErrors);
      valid := newErrors == NoRescheduleErrors;
    }

    /** `handleRescheduleSubmit`. Without an appointment nothing happens.
        Otherwise the form is validated first and posted only when valid;
        success clears the form, closes the sheet and refreshes; failure
        keeps the fields. `isSubmitting` ends false on every path. */
    method SubmitReschedule(posted: Outcome<()>) returns (requested: bool, refreshed: bool)
      modifies this
      ensures appointment.None? ==>
                !requested && !refreshed && form == old(form) && isSubmitting == old(isSubmitting) &&
                rescheduleSheetOpen == old(rescheduleSheetOpen)
      ensures appointment.Some? ==>
                !isSubmitting &&
                (requested <==> old(form).date.Some? && old(form).time.Some? && !IsBlank(old(form).reason))
      ensures appointment.Some? && !requested ==>
                form == old(form).(errors := RescheduleErrorsFor(old(form).date, old(form).time, old(form).reason)) &&
                !refreshed && rescheduleSheetOpen == old(rescheduleSheetOpen)
      ensures requested && posted.Ok? ==> form == EmptyRescheduleForm && !rescheduleSheetOpen && refreshed
      ensures requested && posted.Fail? ==>
                form == old(form).(errors := NoRescheduleErrors) && !refreshed && rescheduleSheetOpen == old(rescheduleSheetOpen)
      ensures cancel == old(cancel) && isSubmittingCancel == old(isSubmittingCancel) && cancelSheetOpen == old(cancelSheetOpen)
      ensures showDatePicker == old(showDatePicker) && showTimePicker == old(showTimePicker)
    {
      requested := false;
      refreshed := false;
      if appointment.None? {
        return;
      }
      isSubmitting := true;
      var valid := ValidateRescheduleForm();
      if valid {
        requested := true;
        refreshed := ApplyRescheduleResult(posted);
      }
      isSubmitting := false;
    }

    /** The awaited part of `handleRescheduleSubmit`: on success the form is
        cleared, the sheet dismissed and the appointment refreshed. */
    method ApplyRescheduleResult(posted: Outcome<()>) returns (refreshed: bool)
      modifies this
      ensures posted.Ok? ==> form == EmptyRescheduleForm && !rescheduleSheetOpen && refreshed
      ensures posted.Fail? ==> form == old(form) && rescheduleSheetOpen == old(rescheduleSheetOpen) && !refreshed
      ensures cancel == old(cancel) && isSubmittingCancel == old(isSubmittingCancel) && cancelSheetOpen == old(cancelSheetOpen)
      ensures showDatePicker == old(showDatePicker) && showTimePicker == old(showTimePicker)
      ensures isSubmitting == old(isSubmitting)
    {
      refreshed := false;
      if posted.Ok? {
        form := EmptyRescheduleForm;
        rescheduleSheetOpen := false;
        refreshed := true;
      }
    }

    /** `handleCancelSubmit`: the same shape for the cancellation, with an
        error alert on failure. */
    method SubmitCancel(posted: Outcome<()>) returns (requested: bool, refreshed: bool, alert: Option<Alert>)
      modifies this
      ensures appointment.None? ==>
                !requested && !refreshed && alert.None? && cancel == old(cancel) &&
                isSubmittingCancel == old(isSubmittingCancel) && cancelSheetOpen == old(cancelSheetOpen)
      ensures appointment.Some? ==> !isSubmittingCancel && (requested <==> !IsBlank(old(cancel).reason))
      ensures appointment.Some? && !requested ==>
                cancel == old(cancel).(error := CancelErrorFor(old(cancel).reason)) &&
                !refreshed && alert.None? && cancelSheetOpen == old(cancelSheetOpen)
      ensures requested && posted.Ok? ==> cancel == EmptyCancelForm && !cancelSheetOpen && refreshed && alert.None?
      ensures requested && posted.Fail? ==>
                cancel == old(cancel).(error := None) && !refreshed && alert == Some(CancelFailed) &&
                cancelSheetOpen == old(cancelSheetOpen)
      ensures form == old(form) && isSubmitting == old(isSubmitting) && rescheduleSheetOpen == old(rescheduleSheetOpen)
      ensures showDatePicker == old(showDatePicker) && showTimePicker == old(showTimePicker)
    {
      requested := false;
      refreshed := false;
      alert := None;
      if appointment.None? {
        return;
      }
      isSubmittingCancel := true;
      // validateCancelForm
      var newError := CancelErrorFor(cancel.reason);
      cancel := cancel.(error := newError);
      if newError.None? {
        requested := true;
        refreshed, alert := ApplyCancelResult(posted);
      }
      isSubmittingCancel := false;
    }

    /** The awaited part of `handleCancelSubmit`: success clears the reason,
        dismisses the sheet and refreshes; failure raises the error alert. */
    method ApplyCancelResult(posted: Outcome<()>) returns (refreshed: bool, alert: Option<Alert>)
      modifies this
      ensures posted.Ok? ==> cancel == EmptyCancelForm && !cancelSheetOpen && refreshed && alert.None?
      ensures posted.Fail? ==>
                cancel == old(cancel) && cancelSheetOpen == old(cancelSheetOpen) && !refreshed && alert == Some(CancelFailed)
      ensures form == old(form) && isSubmitting == old(isSubmitting) && rescheduleSheetOpen == old(rescheduleSheetOpen)
      ensures showDatePicker == old(showDatePicker) && showTimePicker == old(showTimePicker)
      ensures isSubmittingCancel == old(isSubmittingCancel)
    {
      refreshed := false;
      alert := None;
      if posted.Ok? {
        cancel := EmptyCancelForm;
        cancelSheetOpen := false;
        refreshed := true;
      } else {
        alert := Some(CancelFailed);
      }
    }
  }
}
