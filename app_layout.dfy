/**
 * The layout around every `/app` page: which redirect its effect issues for the current
 * path, token and onboarding flag, and whether the page is wrapped in the application
 * shell. A token is truthy when present and non-empty.
 */
module AppLayout {
  import opened Wrappers
  import opened JsText

  datatype Redirect = NoRedirect | ToSignIn | ToOnboarding

  const APP_PREFIX := "/app"
  const AUTH_PREFIX := "/auth"
  const ONBOARDING_PATH := "/app/onboarding"

  /** The redirect effect. */
  function RedirectFor(path: string, token: Option<string>, completed: bool): Redirect {
    if !StartsWith(path, APP_PREFIX) then NoRedirect
    else if !TruthyText(token) && !StartsWith(path, AUTH_PREFIX) then ToSignIn
    else if TruthyText(token) && !completed && path != ONBOARDING_PATH && !StartsWith(path, AUTH_PREFIX) then ToOnboarding
    else NoRedirect
  }

  /** The render branch: the shell, or the bare page. */
  predicate RendersShell(path: string, token: Option<string>) {
    StartsWith(path, APP_PREFIX) && !StartsWith(path, AUTH_PREFIX) && TruthyText(token)
  }

  /** A path under `/app` is never under `/auth`, so the `/auth` tests never decide. */
  lemma AppIsNotAuth(path: string)
    requires StartsWith(path, APP_PREFIX)
    ensures !StartsWith(path, AUTH_PREFIX)
  {
    assert path[2] == APP_PREFIX[2] == 'p';
    assert AUTH_PREFIX[2] == 'u';
  }

  /** Outside `/app` nothing is redirected and the shell is not drawn. */
  lemma OutsideApp(path: string, token: Option<string>, completed: bool)
    requires !StartsWith(path, APP_PREFIX)
    ensures RedirectFor(path, token, completed) == NoRedirect && !RendersShell(path, token)
  {
  }

  /** Under `/app` the redirect is decided by the token and the onboarding flag alone:
      signed-out users go to sign-in, signed-in users who have not finished onboarding go
      to it unless already there, and everyone else stays. */
  lemma InsideApp(path: string, token: Option<string>, completed: bool)
    requires StartsWith(path, APP_PREFIX)
    ensures !TruthyText(token) ==> RedirectFor(path, token, completed) == ToSignIn
    ensures TruthyText(token) && !completed ==>
              (RedirectFor(path, token, completed) == ToOnboarding <==> path != ONBOARDING_PATH)
    ensures TruthyText(token) && completed ==> RedirectFor(path, token, completed) == NoRedirect
    ensures RendersShell(path, token) <==> TruthyText(token)
  {
    AppIsNotAuth(path);
  }

  /** The shell is drawn exactly on pages that are not sent to sign-in: a sign-in redirect
      never comes with the shell, and a drawn shell means at most the onboarding redirect. */
  lemma ShellAgreesWithRedirect(path: string, token: Option<string>, completed: bool)
    requires StartsWith(path, APP_PREFIX)
    ensures RendersShell(path, token) <==> RedirectFor(path, token, completed) != ToSignIn
  {
    AppIsNotAuth(path);
  }
}
