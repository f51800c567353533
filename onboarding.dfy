/** The onboarding page (frontend/src/pages/Onboarding.tsx): four steps walked with
    Next and Previous, four preference switches, and completion on the last step. */
module OnboardingPage {
  import opened Shared
  import AuthContext
  import OnboardingStep

  const TotalSteps := 4

  datatype Setting = Notifications | EmailUpdates | DarkMode | Accessibility

  datatype Settings = Settings(notifications: bool, emailUpdates: bool, darkMode: bool, accessibility: bool)

  /** The switches' first positions (Onboarding.tsx:17-22). */
  const InitialSettings := Settings(true, true, false, false)

  function Get(s: Settings, k: Setting): bool {
    match k
    case Notifications => s.notifications
    case EmailUpdates => s.emailUpdates
    case DarkMode => s.darkMode
    case Accessibility => s.accessibility
  }

  /** handleToggle's update (Onboarding.tsx:47-52): one switch flips, the others keep their position. */
  function Toggle(s: Settings, k: Setting): (r: Settings)
    ensures Get(r, k) == !Get(s, k)
    ensures forall j :: j != k ==> Get(r, j) == Get(s, j)
  {
    match k
    case Notifications => s.(notifications := !s.notifications)
    case EmailUpdates => s.(emailUpdates := !s.emailUpdates)
    case DarkMode => s.(darkMode := !s.darkMode)
    case Accessibility => s.(accessibility := !s.accessibility)
  }

  /** Flipping a switch twice puts it back. */
  lemma ToggleTwice(s: Settings, k: Setting)
    ensures Toggle(Toggle(s, k), k) == s
  {
  }

  /** The order in which two switches are flipped does not matter. */
  lemma TogglesCommute(s: Settings, a: Setting, b: Setting)
    ensures Toggle(Toggle(s, a), b) == Toggle(Toggle(s, b), a)
  {
  }

  datatype Move = Next | Previous

  /** The step after one button press (Onboarding.tsx:32-45): Next stops at the last step,
      where it completes onboarding instead; Previous stops at the first. */
  function Step(step: int, m: Move): int {
    match m
    case Next => if step < TotalSteps then step + 1 else step
    case Previous => if step > 1 then step - 1 else step
  }

  /** The step after a sequence of presses. */
  function Walk(step: int, moves: seq<Move>): int
    decreases |moves|
  {
    if |moves| == 0 then step else Walk(Step(step, moves[0]), moves[1..])
  }

  /** Whatever buttons are pressed, the page stays on one of its four steps. */
  lemma {:induction false} WalkStaysInRange(step: int, moves: seq<Move>)
    requires 1 <= step <= TotalSteps
    ensures 1 <= Walk(step, moves) <= TotalSteps
    decreases |moves|
  {
    if |moves| > 0 {
      WalkStaysInRange(Step(step, moves[0]), moves[1..]);
    }
  }

  /** `n` presses of Next advance `n` steps, but never past the last one. */
  lemma {:induction false} NextPresses(step: int, n: nat)
    requires 1 <= step <= TotalSteps
    ensures Walk(step, seq(n, _ => Next)) == if step + n <= TotalSteps then step + n else TotalSteps
    decreases n
  {
    if n > 0 {
      var moves := seq(n, _ => Next);
      assert moves[0] == Next;
      assert moves[1..] == seq(n - 1, _ => Next);
      NextPresses(Step(step, Next), n - 1);
    }
  }

  /** The page's effect (Onboarding.tsx:26-30) and render guard (line 54): without a user it
      sends the visitor to the login page and shows nothing. */
  function Redirect(user: Option<AuthContext.User>): (p: Option<Path>)
    ensures p.Some? <==> user.None?
    ensures p.Some? ==> p.value == ToLogin
  {
    if user.None? then Some(ToLogin) else None
  }

  /** The card shown on a step: step n of 4, first only on step 1, last only on step 4
      (Onboarding.tsx:63-73, 139-149, 197-207, 349-359). */
  function CardOn(step: int, role: Role): (c: Option<OnboardingStep.Card>)
    ensures c.Some? <==> 1 <= step <= TotalSteps
  {
    if 1 <= step <= TotalSteps then
      Some(OnboardingStep.CardFor(step, TotalSteps, role, step == 1, step == TotalSteps))
    else None
  }

  /** Previous is hidden exactly on the first step, and the primary button reads
      "Get Started" exactly on the last. */
  lemma CardButtons(step: int, role: Role)
    requires 1 <= step <= TotalSteps
    ensures CardOn(step, role).value.previousDisabled <==> step == 1
    ensures CardOn(step, role).value.primaryLabel == "Get Started" <==> step == TotalSteps
  {
  }

  /** The page's state. */
  class Onboarding {
    var currentStep: int
    var settings: Settings

    ghost predicate Valid()
      reads this
    {
      1 <= currentStep <= TotalSteps
    }

    constructor ()
      ensures Valid()
      ensures currentStep == 1 && settings == InitialSettings
    {
      currentStep := 1;
      settings := InitialSettings;
    }

    /** handleNext (Onboarding.tsx:32-39). */
    method HandleNext(auth: AuthContext.AuthProvider) returns (nav: Option<Path>)
      requires Valid()
      modifies this, auth
      ensures Valid()
      ensures currentStep == Step(old(currentStep), Next) && settings == old(settings)
      ensures old(currentStep) < TotalSteps ==> nav == None && auth.State() == old(auth.State())
      ensures old(currentStep) == TotalSteps ==>
        nav == Some(ToDashboard) && auth.State() == AuthContext.Onboarded(old(auth.State()))
    {
      if currentStep < TotalSteps {
        currentStep := currentStep + 1;
        nav := None;
      } else {
        auth.CompleteOnboarding();
        nav := Some(ToDashboard);
      }
    }

    /** handlePrevious (Onboarding.tsx:41-45). */
    method HandlePrevious()
      requires Valid()
      modifies this
      ensures Valid()
      ensures currentStep == Step(old(currentStep), Previous) && settings == old(settings)
    {
      if currentStep > 1 {
        currentStep := currentStep - 1;
      }
    }

    /** handleToggle (Onboarding.tsx:47-52). */
    method HandleToggle(k: Setting)
      modifies this
      ensures settings == Toggle(old(settings), k) && currentStep == old(currentStep)
    {
      settings := Toggle(settings, k);
    }
  }
}
