/** The appointment page (frontend/src/pages/ScheduleAppointment.tsx): patients only, with a
    tab for the request form and a tab for their list. */
module SchedulePage {
  import opened Shared
  import AuthContext
  import ScheduleForm

  datatype Tab = ScheduleTab | ListTab

  /** The guard (ScheduleAppointment.tsx:14): only a signed-in patient gets the tabs. */
  function AccessAllowed(user: Option<AuthContext.User>): (ok: bool)
    ensures ok <==> user.Some? && user.value.role == Patient
  {
    user.Some? && user.value.role == Patient
  }

  /** The client lets in exactly the users whose role the server accepts for a booking. */
  lemma AccessMatchesServerRole(u: AuthContext.User)
    ensures AccessAllowed(Some(u)) <==> RoleName(u.role) == "patient"
  {
  }

  datatype View = AccessDenied | Tabs(active: Tab)

  /** What the page shows (ScheduleAppointment.tsx:14-55). */
  function ViewOf(user: Option<AuthContext.User>, activeTab: Tab): (v: View)
    ensures v == AccessDenied <==> !AccessAllowed(user)
    ensures v.Tabs? ==> v.active == activeTab
  {
    if AccessAllowed(user) then Tabs(activeTab) else AccessDenied
  }

  /** The page's state. */
  class SchedulePageState {
    var activeTab: Tab

    constructor ()
      ensures activeTab == ScheduleTab
    {
      activeTab := ScheduleTab;
    }

    /** A click on a tab (ScheduleAppointment.tsx:40). */
    method SetActiveTab(t: Tab)
      modifies this
      ensures activeTab == t
    {
      activeTab := t;
    }

    /** A submission of the form on the schedule tab: a booking the server accepted switches
        to the list tab (ScheduleAppointment.tsx:46); any other outcome leaves the tab as it was. */
    method SubmitForm(form: ScheduleForm.ScheduleAppointmentForm, storage: AuthContext.Storage, submit: ScheduleForm.Submitter)
      returns (scheduled: bool)
      modifies this, form
      ensures activeTab == if scheduled then ListTab else old(activeTab)
      ensures scheduled ==> form.formData == ScheduleForm.EmptyForm
      ensures !scheduled ==> form.formData == old(form.formData)
      ensures !form.isLoading
    {
      var _, _, done := form.HandleSubmit(storage, submit);
      scheduled := done;
      if scheduled {
        activeTab := ListTab;
      }
    }
  }
}
