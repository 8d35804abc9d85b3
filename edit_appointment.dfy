/**
 * Rescheduling an appointment (screens/EditAppointmentScreen.tsx): one
 * picker edits either the calendar date or the time of day of the
 * appointment's date, and a status picker may change its status.
 */
module EditAppointment {
  import opened Common
  import opened Appointments

  datatype PickerMode = DateMode | TimeMode

  /** `onDateChange`'s merge: the picked value replaces one half of the date; nothing picked changes nothing. */
  function MergePicked(current: DateTime, picked: Option<DateTime>, mode: PickerMode): (r: DateTime)
    ensures picked.None? ==> r == current
    ensures picked.Some? && mode == DateMode ==>
      r.year == picked.value.year && r.month == picked.value.month && r.day == picked.value.day
      && r.hour == current.hour && r.minute == current.minute
    ensures picked.Some? && mode == TimeMode ==>
      r.hour == picked.value.hour && r.minute == picked.value.minute
      && r.year == current.year && r.month == current.month && r.day == current.day
  {
    match picked
    case None => current
    case Some(p) => if mode == DateMode then WithCalendarDate(current, p) else WithTimeOfDay(current, p)
  }

  /** The body of the `PATCH /appointment/:id` request; `status` is `null` when the picker was never used. */
  datatype AppointmentPatch = AppointmentPatch(id: string, date: DateTime, status: Option<string>)

  const UpdatedAlert := Alert("Sucesso", "Agendamento atualizado com sucesso!")
  const UpdateFailedAlert := Alert("Erro", "Falha ao atualizar o agendamento.")

  class EditAppointmentScreen {
    const appointment: Appointment
    var date: DateTime
    var mode: PickerMode
    var showPicker: bool
    var status: Option<string>
    var updating: bool

    constructor (initial: Appointment)
      ensures appointment == initial && date == initial.date
      ensures mode == DateMode && !showPicker && status.None? && !updating
    {
      appointment := initial;
      date := initial.date;
      mode, showPicker, status, updating := DateMode, false, None, false;
    }

    /** `showDateTimePicker(currentMode)`. */
    method ShowDateTimePicker(currentMode: PickerMode)
      modifies this`mode, this`showPicker
      ensures mode == currentMode && showPicker
    {
      mode := currentMode;
      showPicker := true;
    }

    /** `onDateChange`: merge the picked value, then close the picker on Android only. */
    method OnDateChange(picked: Option<DateTime>, isAndroid: bool)
      modifies this`date, this`showPicker
      ensures date == MergePicked(old(date), picked, mode)
      ensures showPicker == (if isAndroid then false else old(showPicker))
    {
      if picked.Some? {
        var current := date;
        if mode == DateMode {
          current := current.(year := picked.value.year, month := picked.value.month, day := picked.value.day);
        } else {
          current := current.(hour := picked.value.hour, minute := picked.value.minute);
        }
        date := current;
      }
      if isAndroid {
        showPicker := false;
      }
    }

    /** The status picker's `onValueChange`. */
    method SetStatus(value: string)
      modifies this`status
      ensures status == Some(value)
    {
      status := Some(value);
    }

    /** The status the picker shows: the chosen one, else the appointment's own. */
    function PickerValue(): (v: string)
      reads this
      ensures status.Some? ==> v == status.value
      ensures status.None? ==> v == appointment.status
    {
      if status.None? then appointment.status else status.value
    }

    /** `handleSave`: sends the date and the status state as they are, and goes back when that succeeds. */
    method HandleSave(patchOk: bool) returns (sent: AppointmentPatch, alert: Alert, navigate: Option<Route>)
      modifies this`updating
      ensures sent == AppointmentPatch(appointment.id, date, status)
      ensures alert == (if patchOk then UpdatedAlert else UpdateFailedAlert)
      ensures navigate == (if patchOk then Some(GoBack) else None)
      ensures !updating
    {
      updating := true;
      sent := AppointmentPatch(appointment.id, date, status);
      if patchOk {
        alert, navigate := UpdatedAlert, Some(GoBack);
      } else {
        alert, navigate := UpdateFailedAlert, None;
      }
      updating := false;
    }
  }

  /**
   * Picking the date and then the time (or the other way round) yields the
   * picked date at the picked time, whatever the value was before.
   */
  lemma DateThenTime(current: DateTime, pickedDate: DateTime, pickedTime: DateTime)
    ensures var both := DateTime(pickedDate.year, pickedDate.month, pickedDate.day, pickedTime.hour, pickedTime.minute);
      && MergePicked(MergePicked(current, Some(pickedDate), DateMode), Some(pickedTime), TimeMode) == both
      && MergePicked(MergePicked(current, Some(pickedTime), TimeMode), Some(pickedDate), DateMode) == both
  {
  }
}
