/** The card that frames one onboarding step (frontend/src/components/OnboardingStep.tsx):
    a progress bar, the "Step n of m" header, a role badge and the two navigation buttons. */
module OnboardingStep {
  import opened Shared

  /** The decimal digit of a number below ten. */
  function Digit(d: nat): (c: char)
    requires d < 10
    ensures IsDigit(c)
  {
    "0123456789"[d]
  }

  /** The value of a decimal digit. */
  function DigitValue(c: char): (d: nat)
    requires IsDigit(c)
    ensures d < 10 && Digit(d) == c
  {
    (c as int - '0' as int) as nat
  }

  /** How JavaScript renders a whole number in text. */
  function Decimal(n: nat): (s: string)
    ensures |s| > 0
    ensures forall k :: 0 <= k < |s| ==> IsDigit(s[k])
    ensures |s| > 1 ==> s[0] != '0'
    decreases n
  {
    if n < 10 then [Digit(n)] else Decimal(n / 10) + [Digit(n % 10)]
  }

  /** The number a string of decimal digits denotes. */
  function Value(s: string): nat
    requires forall k :: 0 <= k < |s| ==> IsDigit(s[k])
  {
    if |s| == 0 then 0 else 10 * Value(s[..|s| - 1]) + DigitValue(s[|s| - 1])
  }

  /** Reading back the rendered step number gives the step number. */
  lemma {:induction false} DecimalRoundTrip(n: nat)
    ensures Value(Decimal(n)) == n
    decreases n
  {
    var s := Decimal(n);
    if n >= 10 {
      DecimalRoundTrip(n / 10);
      assert s[..|s| - 1] == Decimal(n / 10);
    }
  }

  /** "Step {step} of {totalSteps}" (OnboardingStep.tsx:58). */
  function Header(step: nat, totalSteps: nat): (h: string)
    ensures StartsWith(h, "Step ")
  {
    "Step " + Decimal(step) + " of " + Decimal(totalSteps)
  }

  /** Text without `c` followed by `c`: `split(c)[0]` gives the text back. */
  lemma {:induction false} BeforeSeparator(x: string, p: string, c: char)
    requires forall k :: 0 <= k < |x| ==> x[k] != c
    requires |p| > 0 && p[0] == c
    ensures Before(x + p, c) == x
  {
    if |x| > 0 {
      assert (x + p)[1..] == x[1..] + p;
      BeforeSeparator(x[1..], p, c);
    } else {
      assert x + p == p;
    }
  }

  /** The header names its step and its total: two different pairs never share a header. */
  lemma {:induction false} HeaderDeterminesSteps(step: nat, totalSteps: nat, step': nat, totalSteps': nat)
    requires Header(step, totalSteps) == Header(step', totalSteps')
    ensures step == step' && totalSteps == totalSteps'
  {
    var x, y := Decimal(step), Decimal(step');
    var p, p' := " of " + Decimal(totalSteps), " of " + Decimal(totalSteps');
    var t, t' := x + p, y + p';
    assert Header(step, totalSteps)[5..] == t;
    assert Header(step', totalSteps')[5..] == t';
    BeforeSeparator(x, p, ' ');
    BeforeSeparator(y, p', ' ');
    assert p == t[|x|..] && p' == t'[|y|..];
    assert Decimal(totalSteps) == p[4..] && Decimal(totalSteps') == p'[4..];
    DecimalRoundTrip(step);
    DecimalRoundTrip(step');
    DecimalRoundTrip(totalSteps);
    DecimalRoundTrip(totalSteps');
  }

  /** getRoleColor (OnboardingStep.tsx:34-42): the gradient of the progress bar and of the primary button. */
  function Gradient(role: Role): (g: string)
    ensures StartsWith(g, "from-role-")
  {
    "from-role-" + RoleName(role) + "/70 to-role-" + RoleName(role)
  }

  /** The badge's classes (OnboardingStep.tsx:61). */
  function BadgeClass(role: Role): string {
    "bg-role-" + RoleName(role) + "/10 text-role-" + RoleName(role)
  }

  /** `s.charAt(0).toUpperCase() + s.slice(1)`, on ASCII letters. */
  function Capitalize(s: string): (r: string)
    ensures |r| == |s|
    ensures |s| > 0 ==> r[0] == ToUpper(s[0]) && r[1..] == s[1..]
  {
    if |s| == 0 then "" else [ToUpper(s[0])] + s[1..]
  }

  /** The badge's text (OnboardingStep.tsx:63). */
  function RoleLabel(role: Role): string {
    Capitalize(RoleName(role)) + " View"
  }

  /** Different roles get cards that look different: another gradient and another badge text. */
  lemma {:induction false} CardDistinguishesRoles(a: Role, b: Role)
    requires a != b
    ensures Gradient(a) != Gradient(b)
    ensures RoleLabel(a) != RoleLabel(b)
  {
    assert Gradient(a)[10] == RoleName(a)[0];
    assert Gradient(b)[10] == RoleName(b)[0];
    assert RoleLabel(a)[0] == ToUpper(RoleName(a)[0]);
    assert RoleLabel(b)[0] == ToUpper(RoleName(b)[0]);
  }

  /** The badge reads the role's name with a capital letter, followed by " View". */
  lemma RoleLabels()
    ensures RoleLabel(Admin) == "Admin View"
    ensures RoleLabel(Doctor) == "Doctor View"
    ensures RoleLabel(Nurse) == "Nurse View"
    ensures RoleLabel(Patient) == "Patient View"
  {
  }

  /** The progress bar's width in percent (OnboardingStep.tsx:52), in exact arithmetic. */
  function ProgressPercent(step: nat, totalSteps: nat): (p: real)
    requires totalSteps > 0
    ensures 1 <= step <= totalSteps ==> 0.0 < p <= 100.0
    ensures p == 100.0 <==> step == totalSteps
  {
    (step as real / totalSteps as real) * 100.0
  }

  /** What the card shows. */
  datatype Card = Card(
    header: string,
    badgeClass: string,
    badgeText: string,
    gradient: string,
    previousDisabled: bool,
    previousClass: string,
    primaryLabel: string)

  /** The card for the given props (OnboardingStep.tsx:44-103). */
  function CardFor(step: nat, totalSteps: nat, role: Role, isFirstStep: bool, isLastStep: bool): (c: Card)
    ensures c.previousDisabled <==> isFirstStep
    ensures c.previousClass == "opacity-0" <==> isFirstStep
    ensures c.primaryLabel == "Get Started" <==> isLastStep
    ensures c.primaryLabel == "Next" <==> !isLastStep
  {
    Card(Header(step, totalSteps), BadgeClass(role), RoleLabel(role), Gradient(role),
      isFirstStep,
      if isFirstStep then "opacity-0" else "button-effect",
      if isLastStep then "Get Started" else "Next")
  }
}
