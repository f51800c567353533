/** The request validators of the Flask server (app.py): e-mail and password checks,
    and the extraction of the token from an `Authorization: Bearer` header. */
module Validators {
  import opened Shared

  predicate IsLocalChar(c: char) { IsLetter(c) || IsDigit(c) || c in "._%+-" }
  predicate IsDomainChar(c: char) { IsLetter(c) || IsDigit(c) || c in ".-" }

  /** One way of matching the whole of `s` against
      [a-zA-Z0-9._%+-]+ @ [a-zA-Z0-9.-]+ \. [a-zA-Z]{2,}
      with the `@` at index `at` and the escaped `.` at index `dot`. */
  predicate EmailSplit(s: string, at: int, dot: int) {
    && 0 < at && at + 1 < dot && dot + 2 < |s|
    && s[at] == '@' && s[dot] == '.'
    && (forall k :: 0 <= k < at ==> IsLocalChar(s[k]))
    && (forall k :: at < k < dot ==> IsDomainChar(s[k]))
    && (forall k :: dot < k < |s| ==> IsLetter(s[k]))
  }

  /** The e-mail pattern matches all of `s`: s is local@domain.tld. */
  ghost predicate MatchesEmailPattern(s: string) {
    exists at, dot :: EmailSplit(s, at, dot)
  }

  /** What `re.match` with the anchors ^ and $ accepts: Python's `$` also matches
      just before a final newline, so one trailing "\n" is let through. */
  ghost predicate EmailPatternAccepts(email: string) {
    || MatchesEmailPattern(email)
    || (|email| > 0 && email[|email| - 1] == '\n' && MatchesEmailPattern(email[..|email| - 1]))
  }

  /** Index of the first occurrence of `c` in `s`. */
  function IndexOf(s: string, c: char): (r: Option<nat>)
    ensures r.Some? ==> r.value < |s| && s[r.value] == c && forall k :: 0 <= k < r.value ==> s[k] != c
    ensures r.None? ==> forall k :: 0 <= k < |s| ==> s[k] != c
  {
    if |s| == 0 then None
    else if s[0] == c then Some(0)
    else match IndexOf(s[1..], c)
      case None => None
      case Some(k) => Some(k + 1)
  }

  /** Index of the last occurrence of `c` in `s`. */
  function LastIndexOf(s: string, c: char): (r: Option<nat>)
    ensures r.Some? ==> r.value < |s| && s[r.value] == c && forall k :: r.value < k < |s| ==> s[k] != c
    ensures r.None? ==> forall k :: 0 <= k < |s| ==> s[k] != c
  {
    if |s| == 0 then None
    else if s[|s| - 1] == c then Some(|s| - 1)
    else LastIndexOf(s[..|s| - 1], c)
  }

  /** The only way to split a matching string: at its first `@` and its last `.`. */
  lemma EmailSplitIsForced(s: string, at: int, dot: int)
    requires EmailSplit(s, at, dot)
    ensures IndexOf(s, '@') == Some(at) && LastIndexOf(s, '.') == Some(dot)
  {
  }

  /** Decides the anchored pattern by splitting at the first `@` and the last `.`. */
  function SplitAtFirstAtLastDot(s: string): bool {
    match (IndexOf(s, '@'), LastIndexOf(s, '.'))
    case (Some(at), Some(dot)) => EmailSplit(s, at, dot)
    case _ => false
  }

  /** The split at the first `@` and last `.` succeeds exactly when the pattern matches. */
  lemma EmailPatternDecided(s: string)
    ensures SplitAtFirstAtLastDot(s) <==> MatchesEmailPattern(s)
  {
  }

  /** validate_email (app.py:43-45). */
  function ValidateEmail(email: string): (ok: bool)
    ensures ok <==> EmailPatternAccepts(email)
  {
    EmailPatternDecided(email);
    EmailPatternDecided(if |email| > 0 then email[..|email| - 1] else email);
    || SplitAtFirstAtLastDot(email)
    || (|email| > 0 && email[|email| - 1] == '\n' && SplitAtFirstAtLastDot(email[..|email| - 1]))
  }

  /** validate_password (app.py:47-49): at least 8 characters, an ASCII digit and an ASCII letter. */
  function ValidatePassword(password: string): (ok: bool)
    ensures ok <==>
      && |password| >= 8
      && (exists i :: 0 <= i < |password| && IsDigit(password[i]))
      && (exists j :: 0 <= j < |password| && IsLetter(password[j]))
  {
    |password| >= 8 && Exists(password, IsDigit) && Exists(password, IsLetter)
  }

  const BearerPrefix := "Bearer "

  /** The token of `auth_header.split(' ')[1]`, once the header is known to start with the
      case-sensitive prefix "Bearer " (app.py:153-157): the text after that prefix up to the next space. */
  function BearerToken(header: Option<string>): (token: Option<string>)
    ensures token.Some? <==> header.Some? && StartsWith(header.value, BearerPrefix)
    ensures token.Some? ==>
      && |BearerPrefix| + |token.value| <= |header.value|
      && header.value[..|BearerPrefix| + |token.value|] == BearerPrefix + token.value
      && (forall k :: 0 <= k < |token.value| ==> token.value[k] != ' ')
      && (|BearerPrefix| + |token.value| < |header.value| ==> header.value[|BearerPrefix| + |token.value|] == ' ')
  {
    match header
    case None => None
    case Some(h) =>
      if StartsWith(h, BearerPrefix) then
        var t := Before(h[|BearerPrefix|..], ' ');
        assert h[..|BearerPrefix| + |t|] == h[..|BearerPrefix|] + h[|BearerPrefix|..][..|t|];
        Some(t)
      else None
  }
}
