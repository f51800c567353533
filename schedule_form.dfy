/** The appointment request form (frontend/src/components/ScheduleAppointmentForm.tsx):
    the doctors list it loads, its four inputs, and the POST it sends on submit. */
module ScheduleForm {
  import opened Shared
  import Api
  import AuthContext
  import Fetch

  datatype FormData = FormData(doctorId: string, date: string, time: string, reason: string)

  /** The inputs, by the name the form stores them under. */
  datatype Field = DoctorIdField | DateField | TimeField | ReasonField

  /** The form's first and reset contents (ScheduleAppointmentForm.tsx:22-27, 96-101). */
  const EmptyForm := FormData("", "", "", "")

  function FieldValue(f: FormData, field: Field): string {
    match field
    case DoctorIdField => f.doctorId
    case DateField => f.date
    case TimeField => f.time
    case ReasonField => f.reason
  }

  /** handleInputChange and handleSelectChange's update (ScheduleAppointmentForm.tsx:59-66). */
  function WithField(f: FormData, field: Field, value: string): (r: FormData)
    ensures FieldValue(r, field) == value
    ensures forall other :: other != field ==> FieldValue(r, other) == FieldValue(f, other)
  {
    match field
    case DoctorIdField => f.(doctorId := value)
    case DateField => f.(date := value)
    case TimeField => f.(time := value)
    case ReasonField => f.(reason := value)
  }

  /** `JSON.stringify(formData)` as the server's request body (ScheduleAppointmentForm.tsx:82). */
  function BodyOf(f: FormData): (b: Api.Body)
    ensures b.Keys == {"doctor_id", "date", "time", "reason"}
    ensures Api.HasFields(b, Api.AppointmentFields)
    ensures b["doctor_id"] == f.doctorId && b["date"] == f.date && b["time"] == f.time && b["reason"] == f.reason
  {
    map["doctor_id" := f.doctorId, "date" := f.date, "time" := f.time, "reason" := f.reason]
  }

  /** The booking the server stores for this form is the form's contents, even with empty
      inputs: the server checks that the fields are present, not that they are filled. */
  lemma FormBooksWhatItShows(f: FormData, uid: Api.Id, id: Api.Id)
    ensures var a := Api.NewAppointment(uid, BodyOf(f), id);
      && a.doctorId == f.doctorId && a.date == f.date && a.time == f.time && a.reason == f.reason
      && a.patientId == uid && a.status == "scheduled"
  {
  }

  /** POST /api/appointments with `Authorization: Bearer token`. */
  datatype Request = Request(token: string, body: Api.Body)

  /** The server's answer to the POST: its `error` field is all the form reads. */
  type Submitter = Request -> Fetch.Outcome<Option<string>>

  /** GET /api/users?role=doctor with the given token. */
  type DoctorSource = string -> Fetch.Outcome<seq<Api.Profile>>

  const AuthenticationRequired := "Authentication required"
  const LoadDoctorsFailed := Toast("Error", "Failed to load doctors list", true)
  const Scheduled := Toast("Success", "Appointment scheduled successfully", false)

  /** `errorData.error || 'Failed to schedule appointment'` (ScheduleAppointmentForm.tsx:87). */
  function RejectionMessage(error: Option<string>): (m: string)
    ensures m != ""
    ensures error.Some? && error.value != "" ==> m == error.value
    ensures !(error.Some? && error.value != "") ==> m == "Failed to schedule appointment"
  {
    if error.Some? && error.value != "" then error.value else "Failed to schedule appointment"
  }

  /** The toast a failed submission shows (ScheduleAppointmentForm.tsx:105-110). */
  function ErrorToast(message: string): Toast {
    Toast("Error", message, true)
  }

  /** The form's state. */
  class ScheduleAppointmentForm {
    var doctors: seq<Api.Profile>
    var isLoading: bool
    var formData: FormData

    constructor ()
      ensures doctors == [] && !isLoading && formData == EmptyForm
    {
      doctors := [];
      isLoading := false;
      formData := EmptyForm;
    }

    /** The mount effect fetchDoctors (ScheduleAppointmentForm.tsx:29-57): the doctor list is
        replaced only by a successful answer; any failure shows one toast and keeps it. */
    method FetchDoctors(storage: AuthContext.Storage, source: DoctorSource)
      returns (requested: Option<string>, toast: Option<Toast>)
      modifies this
      ensures formData == old(formData) && isLoading == old(isLoading)
      ensures requested == Fetch.StoredToken(storage)
      ensures requested.Some? && source(requested.value).Response? && source(requested.value).ok ==>
        doctors == source(requested.value).data && toast == None
      ensures !(requested.Some? && source(requested.value).Response? && source(requested.value).ok) ==>
        doctors == old(doctors) && toast == Some(LoadDoctorsFailed)
    {
      requested := Fetch.StoredToken(storage);
      if requested.None? {
        return requested, Some(LoadDoctorsFailed);
      }
      var outcome := source(requested.value);
      if outcome.Response? && outcome.ok {
        doctors := outcome.data;
        toast := None;
      } else {
        toast := Some(LoadDoctorsFailed);
      }
    }

    /** handleInputChange / handleSelectChange (ScheduleAppointmentForm.tsx:59-66). */
    method HandleChange(field: Field, value: string)
      modifies this
      ensures formData == WithField(old(formData), field, value)
      ensures doctors == old(doctors) && isLoading == old(isLoading)
    {
      formData := WithField(formData, field, value);
    }

    /** handleSubmit (ScheduleAppointmentForm.tsx:68-114): without a stored token nothing is
        sent; otherwise the form's contents are posted. Only a successful answer clears the
        form and notifies the page (`scheduled`); every failure shows its message. Loading
        ends either way. */
    method HandleSubmit(storage: AuthContext.Storage, submit: Submitter)
      returns (sent: Option<Request>, toast: Toast, scheduled: bool)
      modifies this
      ensures !isLoading && doctors == old(doctors)
      ensures Fetch.StoredToken(storage).None? ==>
        sent == None && toast == ErrorToast(AuthenticationRequired)
      ensures Fetch.StoredToken(storage).Some? ==>
        sent == Some(Request(Fetch.StoredToken(storage).value, BodyOf(old(formData))))
      ensures scheduled <==> sent.Some? && submit(sent.value).Response? && submit(sent.value).ok
      ensures scheduled ==> formData == EmptyForm && toast == Scheduled
      ensures !scheduled ==> formData == old(formData) && toast.destructive
      ensures sent.Some? && submit(sent.value).Response? && !submit(sent.value).ok ==>
        toast == ErrorToast(RejectionMessage(submit(sent.value).data))
      ensures sent.Some? && submit(sent.value).NetworkError? ==>
        toast == ErrorToast(submit(sent.value).message)
    {
      isLoading := true;
      var token := Fetch.StoredToken(storage);
      if token.None? {
        isLoading := false;
        return None, ErrorToast(AuthenticationRequired), false;
      }
      sent := Some(Request(token.value, BodyOf(formData)));
      var outcome := submit(sent.value);
      match outcome {
        case NetworkError(message) =>
          toast, scheduled := ErrorToast(message), false;
        case Response(ok, error) =>
          if !ok {
            toast, scheduled := ErrorToast(RejectionMessage(error)), false;
          } else {
            toast, scheduled := Scheduled, true;
            formData := EmptyForm;
          }
      }
      isLoading := false;
    }
  }
}
