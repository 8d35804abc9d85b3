/**
 * The appointment record as the API returns it, its three statuses, the
 * calendar value the pickers edit, and the status badge both appointment
 * cards show.
 */
module Appointments {

  const Pending := "pending"
  const Confirmed := "confirmed"
  const Canceled := "canceled"

  /** The statuses the API documents; the client receives a plain string. */
  predicate ValidStatus(status: string)
  {
    status == Pending || status == Confirmed || status == Canceled
  }

  /**
   * A local date and time, in place of a JavaScript `Date`; `month` counts
   * from 0 as `getMonth()` does.
   */
  datatype DateTime = DateTime(year: int, month: int, day: int, hour: int, minute: int)

  /** `d` with the calendar date of `picked` (`setFullYear(y, m, d)`); the time of day is kept. */
  function WithCalendarDate(d: DateTime, picked: DateTime): (r: DateTime)
    ensures r.year == picked.year && r.month == picked.month && r.day == picked.day
    ensures r.hour == d.hour && r.minute == d.minute
  {
    d.(year := picked.year, month := picked.month, day := picked.day)
  }

  /** `d` with the time of day of `picked` (`setHours(h)` and `setMinutes(m)`); the calendar date is kept. */
  function WithTimeOfDay(d: DateTime, picked: DateTime): (r: DateTime)
    ensures r.hour == picked.hour && r.minute == picked.minute
    ensures r.year == d.year && r.month == d.month && r.day == d.day
  {
    d.(hour := picked.hour, minute := picked.minute)
  }

  datatype Client = Client(name: string, phone: string, email: string)

  datatype Category = Category(id: string, name: string)

  datatype TreatmentInfo = TreatmentInfo(
    name: string,
    description: string,
    price: string,
    duration: int,
    categories: seq<Category>)

  datatype Appointment = Appointment(
    id: string,
    date: DateTime,
    status: string,
    client: Client,
    treatment: TreatmentInfo)

  datatype Badge = ConfirmedBadge | PendingBadge | CanceledBadge

  /**
   * The badges a card shows: one conditional element per status, so a valid
   * status shows exactly its own badge and any other string shows none.
   */
  function StatusBadges(status: string): (r: seq<Badge>)
    ensures |r| == if ValidStatus(status) then 1 else 0
    ensures status == Confirmed ==> r == [ConfirmedBadge]
    ensures status == Pending ==> r == [PendingBadge]
    ensures status == Canceled ==> r == [CanceledBadge]
  {
    (if status == Confirmed then [ConfirmedBadge] else [])
    + (if status == Pending then [PendingBadge] else [])
    + (if status == Canceled then [CanceledBadge] else [])
  }
}
