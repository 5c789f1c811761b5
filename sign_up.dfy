/**
 * The sign-up page: its form schema (a name of 1 to 50 characters, taken as typed, an
 * address, a password of at least six characters and a matching confirmation) and its
 * submit branch, which either sets the form's root error or moves on to verification.
 */
module SignUp {
  import opened Wrappers
  import opened Forms
  import opened MockApi

  datatype Values = Values(name: string, email: string, password: string, confirmPassword: string)

  const MISMATCH := Issue("confirmPassword", "Passwords do not match")
  const SIGN_UP_FALLBACK := "Unable to create your account. Please try again."

  function NameIssues(name: string): (r: seq<Issue>)
    ensures r == [] <==> 1 <= |name| <= 50
    ensures |r| <= 1 && forall i :: 0 <= i < |r| ==> r[i].path == "name"
  {
    if |name| < 1 then [Issue("name", "Please add a first name or nickname")]
    else if |name| > 50 then [Issue("name", "Name is a bit too long")]
    else []
  }

  /** `signUpSchema`: the field checks, then the cross-field refinement, which runs even when
      a field check failed because none of them aborts the parse. */
  function Issues(v: Values, isEmail: string -> bool): seq<Issue> {
    NameIssues(v.name) + EmailIssues(v.email, isEmail) + PasswordIssues(v.password)
    + (if v.password == v.confirmPassword then [] else [MISMATCH])
  }

  /** The form is accepted exactly when every rule holds. */
  lemma IssuesEmpty(v: Values, isEmail: string -> bool)
    ensures Issues(v, isEmail) == [] <==>
              1 <= |v.name| <= 50 && isEmail(v.email) && |v.password| >= 6 && v.password == v.confirmPassword
  {
  }

  /** A mismatch is reported once, on the confirmation field, whatever else fails. */
  lemma MismatchOnConfirmation(v: Values, isEmail: string -> bool)
    requires v.password != v.confirmPassword
    ensures FirstMessage(Issues(v, isEmail), "confirmPassword") == Some(MISMATCH.message)
    ensures FirstMessage(Issues(v, isEmail), "password") == (if |v.password| < 6 then Some("Password must be at least 6 characters") else None)
  {
    var ne := NameIssues(v.name) + EmailIssues(v.email, isEmail);
    var pre := ne + PasswordIssues(v.password);
    var issues := Issues(v, isEmail);
    assert issues == pre + [MISMATCH];
    forall i | 0 <= i < |issues|
      ensures issues[i].path != "confirmPassword" || i == |pre|
      ensures issues[i].path == "password" <==> i == |ne| && |v.password| < 6
    {
      IssuePath(v, isEmail, i);
    }
    FirstMessageAt(issues, "confirmPassword", |pre|);
    if |v.password| < 6 {
      FirstMessageAt(issues, "password", |ne|);
    }
  }

  /** The path of each issue: the name's and the address's come first, then the password's,
      then the mismatch. */
  lemma IssuePath(v: Values, isEmail: string -> bool, i: nat)
    requires v.password != v.confirmPassword && i < |Issues(v, isEmail)|
    ensures var ne := NameIssues(v.name) + EmailIssues(v.email, isEmail);
            var issues := Issues(v, isEmail);
            (issues[i].path != "confirmPassword" || i == |ne + PasswordIssues(v.password)|)
            && (issues[i].path == "password" <==> i == |ne| && |v.password| < 6)
  {
    var n, e, p := NameIssues(v.name), EmailIssues(v.email, isEmail), PasswordIssues(v.password);
    var issues := Issues(v, isEmail);
    assert issues == n + e + p + [MISMATCH];
    if i < |n| {
      assert issues[i] == n[i];
    } else if i < |n| + |e| {
      assert issues[i] == e[i - |n|];
    } else if i < |n| + |e| + |p| {
      assert issues[i] == p[i - |n| - |e|];
    } else {
      assert issues[i] == MISMATCH;
    }
  }

  /** The name is not trimmed: a single space is a valid name. */
  lemma SpaceIsAName()
    ensures NameIssues(" ") == []
  {
  }

  /** Where a submit leaves the page. */
  datatype Outcome = Rejected | RootError(message: string) | Navigate(path: string)

  /** `handleSubmit(onSubmit)`: an invalid form is not sent; a failed sign-up sets the root
      error; success goes to the verification page with the address encoded by `encode`. */
  function Submit(v: Values, isEmail: string -> bool, result: AuthResponse, encode: string -> string): (r: Outcome)
    ensures Issues(v, isEmail) != [] ==> r == Rejected
    ensures Issues(v, isEmail) == [] && !result.ok ==> r == RootError(TextOr(result.error, SIGN_UP_FALLBACK))
    ensures r.Navigate? <==> Issues(v, isEmail) == [] && result.ok
    ensures r.Navigate? ==> r.path == "/auth/verify?email=" + encode(v.email)
  {
    if Issues(v, isEmail) != [] then Rejected
    else if !result.ok then RootError(TextOr(result.error, SIGN_UP_FALLBACK))
    else Navigate("/auth/verify?email=" + encode(v.email))
  }

  /** The page against the mock backend: a valid form for an address already registered
      stays on the page with the backend's message. */
  method SubmitToBackend(backend: MockBackend, v: Values, isEmail: string -> bool, encode: string -> string,
                         now: nat, nowText: string) returns (r: Outcome)
    requires backend.Valid()
    modifies backend
    ensures backend.Valid()
    ensures Issues(v, isEmail) != [] ==> r == Rejected && backend.users == old(backend.users)
    ensures Issues(v, isEmail) == [] && FindUser(old(backend.users), v.email).Some? ==>
              r == RootError("Email already registered") && backend.users == old(backend.users)
    ensures Issues(v, isEmail) == [] && FindUser(old(backend.users), v.email).None? ==>
              r == Navigate("/auth/verify?email=" + encode(v.email)) && |backend.users| == |old(backend.users)| + 1
  {
    if Issues(v, isEmail) != [] {
      return Rejected;
    }
    var result := backend.SignUp(v.name, v.email, v.password, now, nowText);
    r := Submit(v, isEmail, result, encode);
  }
}
