/** The dashboard page (frontend/src/pages/Dashboard.tsx): where it sends visitors who may
    not see it yet, its greeting, and the one role panel it shows. */
module Dashboard {
  import opened Shared
  import AuthContext

  datatype Effect = Navigate(to: Path) | Welcome(toast: Toast)

  /** The welcome toast for a user called `name` (Dashboard.tsx:28-31). */
  function WelcomeToast(name: string): Toast {
    Toast("Welcome, " + name + "!", "You've successfully logged into your dashboard.", false)
  }

  /** The page's effect (Dashboard.tsx:17-33): signed-out visitors go to login, signed-in
      visitors who have not completed onboarding go to onboarding, everyone else is welcomed. */
  function EffectOf(s: AuthContext.Session): (e: Effect)
    ensures e == Navigate(ToLogin) <==> !AuthContext.IsAuthenticated(s)
    ensures e == Navigate(ToOnboarding) <==> AuthContext.IsAuthenticated(s) && !s.onboardingComplete
    ensures e.Welcome? <==> AuthContext.IsAuthenticated(s) && s.onboardingComplete
    ensures e.Welcome? ==> e.toast == WelcomeToast(s.user.value.name)
  {
    if !AuthContext.IsAuthenticated(s) then Navigate(ToLogin)
    else if !s.onboardingComplete then Navigate(ToOnboarding)
    else Welcome(WelcomeToast(s.user.value.name))
  }

  /** A first sign-up is sent to onboarding, and once onboarding is complete the same user is
      welcomed by the name given at sign-up. */
  lemma SignupReachesDashboardThroughOnboarding(
    s: AuthContext.Session, u: AuthContext.User, stringify: AuthContext.Serializer)
    requires !s.onboardingComplete
    ensures EffectOf(AuthContext.SignedIn(s, u, stringify)) == Navigate(ToOnboarding)
    ensures EffectOf(AuthContext.Onboarded(AuthContext.SignedIn(s, u, stringify))) == Welcome(WelcomeToast(u.name))
  {
  }

  /** After signing out the dashboard always sends the visitor back to login. */
  lemma SignedOutGoesToLogin(s: AuthContext.Session)
    ensures EffectOf(AuthContext.SignedOut(s)) == Navigate(ToLogin)
  {
  }

  /** getGreeting (Dashboard.tsx:41-46), for the hour of the local clock. */
  function Greeting(hour: int): (g: string)
    ensures g == "Good Morning" <==> hour < 12
    ensures g == "Good Afternoon" <==> 12 <= hour < 18
    ensures g == "Good Evening" <==> hour >= 18
  {
    if hour < 12 then "Good Morning" else if hour < 18 then "Good Afternoon" else "Good Evening"
  }

  /** getRoleColor (Dashboard.tsx:37-39): the role badge's classes. */
  function RoleColor(role: Role): (c: string)
    ensures StartsWith(c, "bg-role-")
  {
    "bg-role-" + RoleName(role) + " text-white"
  }

  /** Each role has its own badge colour. */
  lemma {:induction false} RoleColorInjective(a: Role, b: Role)
    requires RoleColor(a) == RoleColor(b)
    ensures a == b
  {
    assert RoleColor(a)[8] == RoleName(a)[0];
    assert RoleColor(b)[8] == RoleName(b)[0];
  }

  datatype Panel = AdminPanel | DoctorPanel | NursePanel | PatientPanel

  function PanelRole(p: Panel): Role {
    match p
    case AdminPanel => Admin
    case DoctorPanel => Doctor
    case NursePanel => Nurse
    case PatientPanel => Patient
  }

  /** The panels rendered, in page order (Dashboard.tsx:78, 207, 309, 419). */
  function PanelsShown(role: Role): (ps: seq<Panel>)
    ensures forall p :: p in ps <==> PanelRole(p) == role
    ensures |ps| == 1
  {
    (if role == Admin then [AdminPanel] else [])
    + (if role == Doctor then [DoctorPanel] else [])
    + (if role == Nurse then [NursePanel] else [])
    + (if role == Patient then [PatientPanel] else [])
  }
}
