/** Vocabulary shared by the models of the hospital application's servers and client. */
module Shared {

  datatype Option<+T> = None | Some(value: T)

  /** The four account categories; `UserRole` in the client. */
  datatype Role = Admin | Doctor | Nurse | Patient

  /** The lower-case name a role has in requests, in storage and in CSS class names. */
  function RoleName(r: Role): string {
    match r
    case Admin => "admin"
    case Doctor => "doctor"
    case Nurse => "nurse"
    case Patient => "patient"
  }

  /** Client routes a view asks the router to display. */
  datatype Path = ToLogin | ToOnboarding | ToDashboard

  function Url(p: Path): string {
    match p
    case ToLogin => "/login"
    case ToOnboarding => "/onboarding"
    case ToDashboard => "/dashboard"
  }

  /** A notification the client shows; `destructive` is the error variant. */
  datatype Toast = Toast(title: string, description: string, destructive: bool)

  predicate IsDigit(c: char) { '0' <= c <= '9' }
  predicate IsUpper(c: char) { 'A' <= c <= 'Z' }
  predicate IsLower(c: char) { 'a' <= c <= 'z' }
  predicate IsLetter(c: char) { IsUpper(c) || IsLower(c) }

  /** Upper-casing of one character, on the ASCII letters. */
  function ToUpper(c: char): char {
    if IsLower(c) then (c as int - 32) as char else c
  }

  /** Lower-casing of one character, on the ASCII letters. */
  function ToLower(c: char): char {
    if IsUpper(c) then (c as int + 32) as char else c
  }

  /** `String.prototype.toLowerCase`, on the ASCII letters. */
  function LowerCase(s: string): string {
    seq(|s|, i requires 0 <= i < |s| => ToLower(s[i]))
  }

  predicate StartsWith(s: string, prefix: string) {
    |prefix| <= |s| && s[..|prefix|] == prefix
  }

  /** True iff some character of `s` satisfies `p`. */
  function Exists(s: string, p: char -> bool): (b: bool)
    ensures b <==> exists k :: 0 <= k < |s| && p(s[k])
  {
    if |s| == 0 then false
    else if p(s[0]) then true
    else
      var rest := Exists(s[1..], p);
      assert forall k :: 1 <= k < |s| ==> s[k] == s[1..][k - 1];
      rest
  }

  /** The text of `s` before the first `c`, all of `s` when it has none:
      `s.split(c)[0]`. */
  function Before(s: string, c: char): (r: string)
    ensures |r| <= |s| && r == s[..|r|]
    ensures forall k :: 0 <= k < |r| ==> r[k] != c
    ensures |r| < |s| ==> s[|r|] == c
  {
    if |s| == 0 || s[0] == c then "" else [s[0]] + Before(s[1..], c)
  }
}
