/**
 * The create-user endpoint: a chain of early returns on the request body and the result of
 * the profile insert. The body (`None` when it is not JSON), the server-client construction
 * and the insert's error code are inputs.
 */
module CreateUser {
  import opened Wrappers
  import opened JsText
  import opened JsValue

  /** What the insert reported: success, or an error with its code. */
  datatype InsertResult = Inserted | InsertFailed(code: Option<string>)

  /** A response: its status and its `message` or `error` text. */
  datatype Response = Response(status: int, text: string)

  const SOMETHING_WRONG := "Something went wrong"

  /** The `{ id, email }` row inserted, when the handler gets that far. */
  function InsertedRow(body: Option<Value>, clientFails: bool): Option<(Value, string)> {
    if body.None? || body.value.Null? then None
    else
      var userId := Get(body.value, "userId");
      var email := Get(body.value, "email");
      if !Truthy(userId) || !Truthy(email) then None
      else if !email.Str? || !Contains(email.s, "@") then None
      else if clientFails then None
      else Some((userId, email.s))
  }

  /** `POST(request)`. Destructuring a `null` body throws, which the outer handler turns into
      a 500. */
  function Post(body: Option<Value>, clientFails: bool, insert: InsertResult): (r: Response)
    ensures body.None? ==> r == Response(400, "Invalid JSON in request body")
    ensures r.status == 201 <==> InsertedRow(body, clientFails).Some? && insert == Inserted
    ensures InsertedRow(body, clientFails).Some? ==>
              r == (match insert
                    case Inserted => Response(201, "User profile created successfully")
                    case InsertFailed(code) =>
                      if code == Some("23505") then Response(200, "User profile already exists")
                      else Response(500, "Failed to create user profile"))
    ensures r.status in {200, 201, 400, 500}
  {
    if body.None? then Response(400, "Invalid JSON in request body")
    else if body.value.Null? then Response(500, SOMETHING_WRONG)
    else
      var userId := Get(body.value, "userId");
      var email := Get(body.value, "email");
      if !Truthy(userId) || !Truthy(email) then Response(400, "Missing required fields")
      else if !email.Str? || !Contains(email.s, "@") then Response(400, "Invalid email format")
      else if clientFails then Response(500, SOMETHING_WRONG)
      else
        match insert
        case InsertFailed(code) =>
          if code == Some("23505") then Response(200, "User profile already exists")
          else Response(500, "Failed to create user profile")
        case Inserted => Response(201, "User profile created successfully")
  }

  /** The field checks come in order: a missing field is reported before a malformed email,
      and neither reaches the insert. */
  lemma FieldChecks(fields: map<string, Value>, isError: bool, clientFails: bool, insert: InsertResult)
    ensures var body := Some(Obj(fields, isError));
            var userId := Get(body.value, "userId");
            var email := Get(body.value, "email");
            (!Truthy(userId) || !Truthy(email) ==>
               Post(body, clientFails, insert) == Response(400, "Missing required fields"))
            && (Truthy(userId) && Truthy(email) && (!email.Str? || !Contains(email.s, "@")) ==>
               Post(body, clientFails, insert) == Response(400, "Invalid email format"))
            && (Post(body, clientFails, insert).status == 400 ==> InsertedRow(body, clientFails).None?)
  {
  }

  /** A row reaching the insert carries a truthy id and an email holding an `@`. */
  lemma InsertedRowShape(body: Option<Value>, clientFails: bool)
    requires InsertedRow(body, clientFails).Some?
    ensures Truthy(InsertedRow(body, clientFails).value.0)
    ensures '@' in InsertedRow(body, clientFails).value.1
  {
    assert "@" == ['@'];
    ContainsCharIff(InsertedRow(body, clientFails).value.1, '@');
  }
}
