/**
 * The email-verification page: its code schema, the digit filter on the input, the submit
 * branch which logs in and moves on to onboarding, and the redirect when no address is in
 * the query.
 */
module Verify {
  import opened Wrappers
  import opened JsText
  import opened AuthTypes
  import opened Forms
  import opened MockApi
  import opened Store

  const CODE_REQUIRED := "Verification code is required"
  const CODE_LENGTH := "Verification code must be exactly 6 digits"
  const ENTER_CODE := "Please enter a 6-digit verification code"
  const VERIFY_FALLBACK := "Invalid verification code. Please try again."
  const ONBOARDING_PATH := "/app/onboarding"
  const SIGN_UP_PATH := "/auth/sign-up"

  /** `verifySchema`: the length refinement runs after a failed `min(1)` too. */
  function Issues(code: string): (r: seq<Issue>)
    ensures r == [] <==> |code| == 6
    ensures forall i :: 0 <= i < |r| ==> r[i].path == "code"
  {
    (if |code| < 1 then [Issue("code", CODE_REQUIRED)] else [])
    + (if |code| != 6 then [Issue("code", CODE_LENGTH)] else [])
  }

  /** An empty code shows the "required" message; any other wrong length the exact-length
      one. */
  lemma ShownCodeError(code: string)
    ensures code == "" ==> FirstMessage(Issues(code), "code") == Some(CODE_REQUIRED)
    ensures code != "" && |code| != 6 ==> FirstMessage(Issues(code), "code") == Some(CODE_LENGTH)
    ensures |code| == 6 ==> FirstMessage(Issues(code), "code") == None
  {
  }

  /** `value.replace(/[^0-9]/g, '')`. */
  function Digits(s: string): (r: string)
    ensures |r| <= |s|
    ensures forall i :: 0 <= i < |r| ==> IsDigit(r[i])
    ensures (forall i :: 0 <= i < |s| ==> IsDigit(s[i])) ==> r == s
    decreases |s|
  {
    if s == [] then ""
    else if IsDigit(s[0]) then [s[0]] + Digits(s[1..])
    else Digits(s[1..])
  }

  /** The input's new value: its digits, at most six of them. */
  function CodeInput(s: string): (r: string)
    ensures |r| <= 6
    ensures forall i :: 0 <= i < |r| ==> IsDigit(r[i])
    ensures r <= Digits(s)
  {
    var d := Digits(s);
    if |d| <= 6 then d else d[..6]
  }

  /** Filtering a filtered value changes nothing, and any six digits typed survive as they
      are. */
  lemma CodeInputStable(s: string)
    ensures CodeInput(CodeInput(s)) == CodeInput(s)
    ensures |s| == 6 && (forall i :: 0 <= i < 6 ==> IsDigit(s[i])) ==> CodeInput(s) == s
  {
  }

  /** Every digit sequence keeps its order: the filter drops the other characters only. */
  lemma {:induction false} DigitsAppend(a: string, b: string)
    ensures Digits(a + b) == Digits(a) + Digits(b)
    decreases |a|
  {
    if a == [] {
      assert a + b == b;
    } else {
      assert (a + b)[1..] == a[1..] + b;
      DigitsAppend(a[1..], b);
    }
  }

  /** With no address in the query the page sends the user to sign-up and draws nothing. */
  function Mount(email: Option<string>): (r: Option<string>)
    ensures r.Some? <==> email.None? || email.value == ""
    ensures r.Some? ==> r.value == SIGN_UP_PATH
  {
    if email.None? || email.value == "" then Some(SIGN_UP_PATH) else None
  }

  datatype Outcome = Rejected | CodeError(message: string) | LoggedIn(token: string, user: User, path: string)

  predicate Complete(result: AuthResponse) {
    result.ok && result.token.Some? && result.token.value != "" && result.user.Some?
  }

  /** `handleSubmit(onSubmit)`: the resolver and then the handler check the length before
      the call; an incomplete response sets the code error. */
  function Submit(code: string, result: AuthResponse): (r: Outcome)
    ensures |code| != 6 ==> r == Rejected
    ensures r.LoggedIn? <==> |code| == 6 && Complete(result)
    ensures r.LoggedIn? ==> r == LoggedIn(result.token.value, result.user.value, ONBOARDING_PATH)
    ensures |code| == 6 && !Complete(result) ==> r == CodeError(TextOr(result.error, VERIFY_FALLBACK))
  {
    if Issues(code) != [] then Rejected
    else if code == "" || |code| != 6 then CodeError(ENTER_CODE)
    else if !Complete(result) then CodeError(TextOr(result.error, VERIFY_FALLBACK))
    else LoggedIn(result.token.value, result.user.value, ONBOARDING_PATH)
  }

  /** The submit with `login` applied to the store. */
  method SubmitToStore(store: AuthStore, code: string, result: AuthResponse) returns (r: Outcome)
    requires store.Valid()
    modifies store
    ensures store.Valid() && r == Submit(code, result)
    ensures r.LoggedIn? ==> store.token == result.token && store.user == result.user
    ensures !r.LoggedIn? ==> store.token == old(store.token) && store.user == old(store.user)
  {
    r := Submit(code, result);
    if r.LoggedIn? {
      store.Login(r.token, r.user);
    }
  }

  /** The demo code always verifies a registered address against the mock backend. */
  lemma DemoCodeVerifies(backend: MockBackend, email: string, token: string)
    requires FindUser(backend.users, email).Some? && token != ""
    ensures Submit(VERIFY_CODE, backend.VerifyEmail(email, VERIFY_CODE, token)).LoggedIn?
  {
  }
}
