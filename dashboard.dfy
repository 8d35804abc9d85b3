/**
 * The dashboard (screens/DashboardScreen.tsx): the appointment list split
 * into three tabs by status, the greeting, the card chosen by role, and the
 * handlers that fetch appointments and change their status.
 */
module Dashboard {
  import opened Common
  import opened Storage
  import opened Session
  import opened Appointments

  const FetchFailedAlert := Alert("Erro", "Falha ao carregar agendamentos")
  const UserInfoFailedAlert := Alert("Erro", "Falha ao carregar informações")
  const ConfirmFailedAlert := Alert("Erro", "Falha ao confirmar agendamento")
  const CancelFailedAlert := Alert("Erro", "Falha ao cancelar agendamento")
  const DeleteFailedAlert := Alert("Erro", "Falha ao excluir agendamento")

  /** The list one tab shows: `appointments.filter((item) => item.status === status)`. */
  function WithStatus(appointments: seq<Appointment>, status: string): (r: seq<Appointment>)
    ensures forall a :: a in r <==> a in appointments && a.status == status
    ensures IsSubsequence(r, appointments)
    ensures forall a :: multiset(r)[a] == if a.status == status then multiset(appointments)[a] else 0
  {
    Filter(appointments, (a: Appointment) => a.status == status)
  }

  /**
   * When every status is valid, the confirmed, pending and canceled tabs
   * together are as long as the full list: no appointment is lost or shown twice.
   */
  lemma {:induction false} TabsPartition(appointments: seq<Appointment>)
    requires forall a :: a in appointments ==> ValidStatus(a.status)
    ensures |WithStatus(appointments, Confirmed)| + |WithStatus(appointments, Pending)|
      + |WithStatus(appointments, Canceled)| == |appointments|
  {
    TabsPartitionMultiset(appointments);
    assert |multiset(appointments)| == |appointments|;
  }

  /**
   * Each appointment occurs in the three tabs together as often as in the
   * list: its status selects exactly one tab, which keeps every copy.
   */
  lemma TabsPartitionMultiset(appointments: seq<Appointment>)
    requires forall a :: a in appointments ==> ValidStatus(a.status)
    ensures multiset(WithStatus(appointments, Confirmed)) + multiset(WithStatus(appointments, Pending))
      + multiset(WithStatus(appointments, Canceled)) == multiset(appointments)
  {
    var tabs := multiset(WithStatus(appointments, Confirmed)) + multiset(WithStatus(appointments, Pending))
      + multiset(WithStatus(appointments, Canceled));
    forall a
      ensures tabs[a] == multiset(appointments)[a]
    {
      if a !in appointments {
        assert multiset(appointments)[a] == 0;
      }
    }
    assert tabs == multiset(appointments);
  }

  /** An appointment with a valid status lies in exactly one tab. */
  lemma InExactlyOneTab(appointments: seq<Appointment>, a: Appointment)
    requires a in appointments && ValidStatus(a.status)
    ensures (if a in WithStatus(appointments, Confirmed) then 1 else 0)
      + (if a in WithStatus(appointments, Pending) then 1 else 0)
      + (if a in WithStatus(appointments, Canceled) then 1 else 0) == 1
  {
  }

  /** The dashboard's own copy of the greeting rule; it agrees with `selectGreetings`. */
  function InlineGreeting(hour: int): (g: string)
    ensures g == SelectGreetings(hour)
  {
    if hour >= 0 && hour < 12 then "Bom dia"
    else if hour >= 12 && hour < 18 then "Boa tarde"
    else "Boa noite"
  }

  /** The card `renderAppointment` draws for one appointment. */
  datatype Card = AdminCard(appointment: Appointment) | UserCard(appointment: Appointment)

  function RenderAppointment(role: Option<string>, a: Appointment): (c: Card)
    ensures c.appointment == a
    ensures c.AdminCard? <==> role == Some("admin")
  {
    if role == Some("admin") then AdminCard(a) else UserCard(a)
  }

  /** A request a status handler sends. */
  datatype AppointmentRequest = PatchStatus(id: string, status: string) | DeleteAppointment(id: string)

  class DashboardScreen {
    var appointments: seq<Appointment>
    var loading: bool
    var error: bool
    var userRole: Option<string>
    var userName: Option<string>
    var userAvatar: Option<string>
    var greeting: string

    constructor ()
      ensures appointments == [] && !loading && !error && userRole.None?
      ensures userName == Some("Usuário") && userAvatar == Some("https://www.gravatar.com/avatar/")
      ensures greeting == "Olá,"
    {
      appointments, loading, error := [], false, false;
      userRole, userName, userAvatar := None, Some("Usuário"), Some("https://www.gravatar.com/avatar/");
      greeting := "Olá,";
    }

    /**
     * `fetchAppointments`: `response` is the list the API returned, or `None`
     * when the request failed.
     */
    method FetchAppointments(response: Option<seq<Appointment>>) returns (alert: Option<Alert>)
      modifies this`appointments, this`loading, this`error
      ensures appointments == (if response.Some? then response.value else old(appointments))
      ensures error <==> response.None?
      ensures !loading
      ensures alert == (if response.None? then Some(FetchFailedAlert) else None)
    {
      loading := true;
      error := false;
      alert := None;
      if response.Some? {
        appointments := response.value;
      } else {
        error := true;
        alert := Some(FetchFailedAlert);
      }
      loading := false;
    }

    /**
     * `getUserInfo`: the greeting for `hour`, then the user's role, name and
     * avatar from the stored token. When `userInfo()` throws or yields `null`
     * (reading `.role` of `null` throws), an alert is shown and the user
     * fields keep their values.
     */
    method GetUserInfo(store: Store, decode: Decoder, hour: int) returns (alert: Option<Alert>)
      modifies this`greeting, this`userRole, this`userName, this`userAvatar
      ensures greeting == SelectGreetings(hour)
      ensures UserInfo(store.items, decode).Returned? && UserInfo(store.items, decode).value.Some? ==>
        var claims := UserInfo(store.items, decode).value.value;
        userRole == claims.role && userName == claims.name && userAvatar == claims.avatarUrl && alert.None?
      ensures !(UserInfo(store.items, decode).Returned? && UserInfo(store.items, decode).value.Some?) ==>
        userRole == old(userRole) && userName == old(userName) && userAvatar == old(userAvatar)
        && alert == Some(UserInfoFailedAlert)
    {
      greeting := InlineGreeting(hour);
      var user := UserInfo(store.items, decode);
      if user.Returned? && user.value.Some? {
        var claims := user.value.value;
        userRole, userName, userAvatar := claims.role, claims.name, claims.avatarUrl;
        alert := None;
      } else {
        alert := Some(UserInfoFailedAlert);
      }
    }

    /**
     * `confirmAppointment` and `cancelAppointment`: send the new status, and
     * only when that succeeds fetch the list again (`refetch` is that fetch's
     * outcome).
     */
    method ChangeStatus(id: string, newStatus: string, patchOk: bool, refetch: Option<seq<Appointment>>)
      returns (sent: AppointmentRequest, alert: Option<Alert>)
      requires newStatus == Confirmed || newStatus == Canceled
      modifies this`appointments, this`loading, this`error
      ensures sent == PatchStatus(id, newStatus)
      ensures patchOk ==>
        && appointments == (if refetch.Some? then refetch.value else old(appointments))
        && (error <==> refetch.None?) && !loading
        && alert == (if refetch.None? then Some(FetchFailedAlert) else None)
      ensures !patchOk ==>
        && appointments == old(appointments) && error == old(error) && loading == old(loading)
        && alert == Some(if newStatus == Confirmed then ConfirmFailedAlert else CancelFailedAlert)
    {
      sent := PatchStatus(id, newStatus);
      if patchOk {
        alert := FetchAppointments(refetch);
      } else {
        alert := Some(if newStatus == Confirmed then ConfirmFailedAlert else CancelFailedAlert);
      }
    }

    /** `deleteAppointment`: send the deletion, and fetch the list again only when it succeeds. */
    method Delete(id: string, deleteOk: bool, refetch: Option<seq<Appointment>>)
      returns (sent: AppointmentRequest, alert: Option<Alert>)
      modifies this`appointments, this`loading, this`error
      ensures sent == DeleteAppointment(id)
      ensures deleteOk ==>
        && appointments == (if refetch.Some? then refetch.value else old(appointments))
        && (error <==> refetch.None?) && !loading
        && alert == (if refetch.None? then Some(FetchFailedAlert) else None)
      ensures !deleteOk ==>
        && appointments == old(appointments) && error == old(error) && loading == old(loading)
        && alert == Some(DeleteFailedAlert)
    {
      sent := DeleteAppointment(id);
      if deleteOk {
        alert := FetchAppointments(refetch);
      } else {
        alert := Some(DeleteFailedAlert);
      }
    }
  }
}
