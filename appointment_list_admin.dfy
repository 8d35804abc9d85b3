/**
 * The administrator's appointment card (components/AppointmentListAdmin.tsx):
 * the action buttons offered for each status.
 */
module AppointmentListAdmin {
  import opened Appointments

  /** A button and what it hands to its callback: the id, or (for Edit) the whole appointment. */
  datatype Action = Confirm(id: string) | Edit(appointment: Appointment) | Cancel(id: string) | Delete(id: string)

  /** `renderActions`: the buttons, left to right; an unknown status offers none. */
  function RenderActions(a: Appointment): (r: seq<Action>)
    ensures Edit(a) in r <==> ValidStatus(a.status)
    ensures Confirm(a.id) in r <==> a.status == Pending
    ensures Cancel(a.id) in r <==> a.status == Pending || a.status == Confirmed
    ensures Delete(a.id) in r <==> a.status == Canceled
    ensures forall act :: act in r ==>
      (act.Edit? && act.appointment == a) || (!act.Edit? && act.id == a.id)
    ensures |r| == if a.status == Pending then 3 else if ValidStatus(a.status) then 2 else 0
  {
    if a.status == Pending then [Confirm(a.id), Edit(a), Cancel(a.id)]
    else if a.status == Confirmed then [Edit(a), Cancel(a.id)]
    else if a.status == Canceled then [Edit(a), Delete(a.id)]
    else []
  }

  /** The action table, in button order. */
  lemma ActionTable(a: Appointment)
    ensures a.status == Pending ==> RenderActions(a) == [Confirm(a.id), Edit(a), Cancel(a.id)]
    ensures a.status == Confirmed ==> RenderActions(a) == [Edit(a), Cancel(a.id)]
    ensures a.status == Canceled ==> RenderActions(a) == [Edit(a), Delete(a.id)]
  {
  }

  /**
   * Once a pending appointment is confirmed, its card offers Edit and Cancel
   * only: Confirm is gone and Delete is not yet offered.
   */
  lemma ConfirmingNarrowsActions(a: Appointment)
    requires a.status == Pending
    ensures var c := a.(status := Confirmed);
      RenderActions(c) == [Edit(c), Cancel(a.id)] && Confirm(a.id) !in RenderActions(c)
  {
  }
}
