/** The patient's list of appointments (frontend/src/components/AppointmentsList.tsx):
    loading it, colouring each status, and cancelling a scheduled appointment. */
module AppointmentsList {
  import opened Shared
  import Api
  import AuthContext
  import Fetch

  /** getStatusColor (AppointmentsList.tsx:101-112): the badge colour, whatever the case of the status. */
  function StatusColor(status: string): (c: string)
    ensures c == "bg-green-500" <==> LowerCase(status) == "scheduled"
    ensures c == "bg-blue-500" <==> LowerCase(status) == "completed"
    ensures c == "bg-red-500" <==> LowerCase(status) == "cancelled"
    ensures c == "bg-gray-500" <==> LowerCase(status) !in {"scheduled", "completed", "cancelled"}
  {
    var s := LowerCase(status);
    if s == "scheduled" then "bg-green-500"
    else if s == "completed" then "bg-blue-500"
    else if s == "cancelled" then "bg-red-500"
    else "bg-gray-500"
  }

  /** The cancel button is offered (AppointmentsList.tsx:150). */
  predicate CancelShown(status: string) {
    LowerCase(status) == "scheduled"
  }

  /** Lower-casing twice is lower-casing once. */
  lemma LowerCaseIdempotent(s: string)
    ensures LowerCase(LowerCase(s)) == LowerCase(s)
  {
  }

  /** The colour and the button depend on the status only up to letter case. */
  lemma StatusIgnoresCase(status: string)
    ensures StatusColor(LowerCase(status)) == StatusColor(status)
    ensures CancelShown(LowerCase(status)) == CancelShown(status)
  {
  }

  /** The cancel button is offered exactly on the appointments shown in green. */
  lemma CancelShownExactlyWhenGreen(status: string)
    ensures CancelShown(status) <==> StatusColor(status) == "bg-green-500"
  {
  }

  /** The request body `{ status: 'cancelled' }` (AppointmentsList.tsx:78). */
  const CancelBody: Api.Body := map["status" := "cancelled"]

  /** A cancellation the server accepts changes the status to "cancelled" and nothing else,
      after which the row turns red and its cancel button goes away. */
  lemma CancelRequestOnlyCancels(a: Api.Appointment)
    ensures Api.Apply(a, Api.ChangesOf(CancelBody)) == a.(status := "cancelled")
    ensures StatusColor("cancelled") == "bg-red-500" && !CancelShown("cancelled")
  {
  }

  /** One row of the list. */
  datatype Row = Row(id: Api.Id, status: string, badgeClass: string, cancellable: bool)

  datatype Screen = LoadingMessage | NoAppointments | Rows(rows: seq<Row>)

  function RowOf(v: Api.AppointmentView): Row {
    Row(v.appointment.id, v.appointment.status, StatusColor(v.appointment.status), CancelShown(v.appointment.status))
  }

  /** What the component shows (AppointmentsList.tsx:114-120 and the list after them). */
  function ScreenOf(isLoading: bool, appointments: seq<Api.AppointmentView>): (s: Screen)
    ensures s == LoadingMessage <==> isLoading
    ensures s == NoAppointments <==> !isLoading && appointments == []
    ensures s.Rows? ==> |s.rows| == |appointments| > 0
    ensures s.Rows? ==> forall k :: 0 <= k < |s.rows| ==>
      s.rows[k].id == appointments[k].appointment.id && s.rows[k].status == appointments[k].appointment.status
  {
    if isLoading then LoadingMessage
    else if |appointments| == 0 then NoAppointments
    else Rows(seq(|appointments|, k requires 0 <= k < |appointments| => RowOf(appointments[k])))
  }

  /** GET /api/appointments with the given token. */
  type Lister = string -> Fetch.Outcome<seq<Api.AppointmentView>>

  /** PUT /api/appointments/<id> with the given token, body and id; only `ok` is read. */
  datatype CancelRequest = CancelRequest(token: string, appointmentId: Api.Id, body: Api.Body)
  type Canceller = CancelRequest -> Fetch.Outcome<()>

  const LoadFailed := Toast("Error", "Failed to load appointments", true)
  const Cancelled := Toast("Success", "Appointment cancelled successfully", false)

  /** The component's state. */
  class AppointmentsListState {
    var appointments: seq<Api.AppointmentView>
    var isLoading: bool

    constructor ()
      ensures appointments == [] && isLoading
    {
      appointments := [];
      isLoading := true;
    }

    /** fetchAppointments (AppointmentsList.tsx:35-61): the list is replaced only by a
        successful answer; any failure shows one toast and keeps the list. Loading ends either way. */
    method FetchAppointments(storage: AuthContext.Storage, list: Lister)
      returns (requested: Option<string>, toast: Option<Toast>)
      modifies this
      ensures !isLoading
      ensures requested == Fetch.StoredToken(storage)
      ensures requested.Some? && list(requested.value).Response? && list(requested.value).ok ==>
        appointments == list(requested.value).data && toast == None
      ensures !(requested.Some? && list(requested.value).Response? && list(requested.value).ok) ==>
        appointments == old(appointments) && toast == Some(LoadFailed)
    {
      requested := Fetch.StoredToken(storage);
      if requested.Some? {
        var outcome := list(requested.value);
        if outcome.Response? && outcome.ok {
          appointments := outcome.data;
          toast := None;
        } else {
          toast := Some(LoadFailed);
        }
      } else {
        toast := Some(LoadFailed);
      }
      isLoading := false;
    }

    /** handleCancelAppointment (AppointmentsList.tsx:67-99): sends the cancellation and,
        once it is accepted, reloads the list; `reload` is what that reload showed. */
    method HandleCancel(appointmentId: Api.Id, storage: AuthContext.Storage, cancel: Canceller, list: Lister)
      returns (sent: Option<CancelRequest>, toast: Toast, reload: Option<Option<Toast>>)
      modifies this
      ensures Fetch.StoredToken(storage).None? ==>
        sent == None && toast == Toast("Error", "Authentication required", true) && reload == None
      ensures Fetch.StoredToken(storage).Some? ==>
        sent == Some(CancelRequest(Fetch.StoredToken(storage).value, appointmentId, CancelBody))
      ensures reload.Some? <==> sent.Some? && cancel(sent.value).Response? && cancel(sent.value).ok
      ensures reload.Some? ==> toast == Cancelled
      ensures reload.None? ==> appointments == old(appointments) && isLoading == old(isLoading)
      ensures sent.Some? && cancel(sent.value).Response? && !cancel(sent.value).ok ==>
        toast == Toast("Error", "Failed to cancel appointment", true)
      ensures sent.Some? && cancel(sent.value).NetworkError? ==>
        toast == Toast("Error", cancel(sent.value).message, true)
      ensures reload.Some? ==> !isLoading
      ensures reload.Some? ==>
        (reload.value == None <==> list(sent.value.token).Response? && list(sent.value.token).ok)
      ensures reload.Some? && list(sent.value.token).Response? && list(sent.value.token).ok ==>
        appointments == list(sent.value.token).data
      ensures reload.Some? && reload.value.Some? ==>
        reload.value == Some(LoadFailed) && appointments == old(appointments)
    {
      var token := Fetch.StoredToken(storage);
      if token.None? {
        return None, Toast("Error", "Authentication required", true), None;
      }
      sent := Some(CancelRequest(token.value, appointmentId, CancelBody));
      var outcome := cancel(sent.value);
      if outcome.NetworkError? {
        return sent, Toast("Error", outcome.message, true), None;
      }
      if !outcome.ok {
        return sent, Toast("Error", "Failed to cancel appointment", true), None;
      }
      toast := Cancelled;
      var _, refreshed := FetchAppointments(storage, list);
      reload := Some(refreshed);
    }
  }
}
