/**
 * What the form resolver reports: each failed check is an issue on a field path, and a
 * field shows the first issue raised on it. The pages submit only when no check fails.
 */
module Forms {
  import opened Wrappers

  /** One failed check: the field it is reported on, and its message. */
  datatype Issue = Issue(path: string, message: string)

  /** The message a field shows: the first issue on its path. */
  function FirstMessage(issues: seq<Issue>, path: string): (r: Option<string>)
    ensures r.None? <==> forall i :: 0 <= i < |issues| ==> issues[i].path != path
    ensures r.Some? ==> exists i :: 0 <= i < |issues| && issues[i] == Issue(path, r.value)
                                     && forall j :: 0 <= j < i ==> issues[j].path != path
    decreases |issues|
  {
    if issues == [] then None
    else if issues[0].path == path then Some(issues[0].message)
    else
      var rest := FirstMessage(issues[1..], path);
      if rest.Some? then
        var k :| 0 <= k < |issues[1..]| && issues[1..][k] == Issue(path, rest.value)
                 && forall j :: 0 <= j < k ==> issues[1..][j].path != path;
        assert issues[k + 1] == Issue(path, rest.value);
        Some(rest.value)
      else rest
  }

  /** The first issue on a path is the message shown. */
  lemma FirstMessageAt(issues: seq<Issue>, path: string, i: nat)
    requires i < |issues| && issues[i].path == path
    requires forall j :: 0 <= j < i ==> issues[j].path != path
    ensures FirstMessage(issues, path) == Some(issues[i].message)
  {
    var r := FirstMessage(issues, path);
    assert r.Some?;
    var k :| 0 <= k < |issues| && issues[k] == Issue(path, r.value) && forall j :: 0 <= j < k ==> issues[j].path != path;
    assert k == i;
  }

  /** `z.string().min(6, …)` on a password. */
  function PasswordIssues(password: string): (r: seq<Issue>)
    ensures r == [] <==> |password| >= 6
    ensures r != [] ==> r == [Issue("password", "Password must be at least 6 characters")]
  {
    if |password| < 6 then [Issue("password", "Password must be at least 6 characters")] else []
  }

  /** `z.string().email(…)`; the address check is `isEmail`, whose pattern lives in the
      form library. */
  function EmailIssues(email: string, isEmail: string -> bool): (r: seq<Issue>)
    ensures r == [] <==> isEmail(email)
    ensures r != [] ==> r == [Issue("email", "Please enter a valid email")]
  {
    if isEmail(email) then [] else [Issue("email", "Please enter a valid email")]
  }

  /** `a || fallback` on an optional text. */
  function TextOr(a: Option<string>, fallback: string): (r: string)
    ensures a.Some? && a.value != "" ==> r == a.value
    ensures a.None? || a.value == "" ==> r == fallback
  {
    if a.Some? && a.value != "" then a.value else fallback
  }
}
