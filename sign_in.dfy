/**
 * The sign-in page: its form schema, the mount effect reading the `email` and `message`
 * query values, and the submit branch that logs in only on a complete response.
 */
module SignIn {
  import opened Wrappers
  import opened JsText
  import opened AuthTypes
  import opened Forms
  import opened MockApi
  import opened Store

  datatype Values = Values(email: string, password: string)

  const SIGN_IN_FALLBACK := "Unable to sign in. Please try again."
  const HOME_PATH := "/app/home"

  /** `signInSchema`. */
  function Issues(v: Values, isEmail: string -> bool): seq<Issue> {
    EmailIssues(v.email, isEmail) + PasswordIssues(v.password)
  }

  /** The form is accepted exactly when the address passes and the password has at least
      six characters. */
  lemma IssuesEmpty(v: Values, isEmail: string -> bool)
    ensures Issues(v, isEmail) == [] <==> isEmail(v.email) && |v.password| >= 6
  {
  }

  /** What the mount effect leaves: the email field, the root error and whether the page
      moves to the home page. */
  datatype Mounted = Mounted(email: string, rootError: Option<string>, redirect: bool)

  /** The mount effect: a non-empty `email` query fills the field, a non-empty `message`
      query becomes the root error, and a held token sends the user home. */
  function Mount(field: string, rootError: Option<string>, emailQuery: Option<string>,
                 message: Option<string>, token: Option<string>): (r: Mounted)
    ensures r.email == (if TruthyText(emailQuery) then emailQuery.value else field)
    ensures r.rootError == (if TruthyText(message) then message else rootError)
    ensures r.redirect <==> TruthyText(token)
  {
    Mounted(if TruthyText(emailQuery) then emailQuery.value else field,
            if TruthyText(message) then message else rootError,
            TruthyText(token))
  }

  /** The response carries everything `login` needs. */
  predicate Complete(result: AuthResponse) {
    result.ok && TruthyText(result.token) && result.user.Some?
  }

  datatype Outcome = Rejected | RootError(message: string) | LoggedIn(token: string, user: User, path: string)

  /** `handleSubmit(onSubmit)`. */
  function Submit(v: Values, isEmail: string -> bool, result: AuthResponse): (r: Outcome)
    ensures Issues(v, isEmail) != [] ==> r == Rejected
    ensures r.LoggedIn? <==> Issues(v, isEmail) == [] && Complete(result)
    ensures r.LoggedIn? ==> r == LoggedIn(result.token.value, result.user.value, HOME_PATH)
    ensures Issues(v, isEmail) == [] && !Complete(result) ==> r == RootError(TextOr(result.error, SIGN_IN_FALLBACK))
  {
    if Issues(v, isEmail) != [] then Rejected
    else if !Complete(result) then RootError(TextOr(result.error, SIGN_IN_FALLBACK))
    else LoggedIn(result.token.value, result.user.value, HOME_PATH)
  }

  /** The submit, with `login` applied to the store: the store changes only on a complete
      response, and then holds exactly its token and user. */
  method SubmitToStore(store: AuthStore, v: Values, isEmail: string -> bool, result: AuthResponse) returns (r: Outcome)
    requires store.Valid()
    modifies store
    ensures store.Valid() && r == Submit(v, isEmail, result)
    ensures r.LoggedIn? ==> store.token == result.token && store.user == result.user
    ensures !r.LoggedIn? ==> store.token == old(store.token) && store.user == old(store.user)
  {
    r := Submit(v, isEmail, result);
    if r.LoggedIn? {
      store.Login(r.token, r.user);
    }
  }

  /** Against the mock backend, a valid form logs in exactly the registered addresses, and
      the password plays no part. */
  lemma AgainstBackend(backend: MockBackend, v: Values, password: string, isEmail: string -> bool, token: string)
    requires Issues(v, isEmail) == [] && |password| >= 6 && token != ""
    ensures Submit(v, isEmail, backend.SignIn(v.email, v.password, token)).LoggedIn?
            <==> exists i :: 0 <= i < |backend.users| && backend.users[i].email == v.email
    ensures Submit(v, isEmail, backend.SignIn(v.email, v.password, token))
            == Submit(v.(password := password), isEmail, backend.SignIn(v.email, password, token))
  {
  }
}
