/**
 * The beta sign-up endpoint: a fixed-window rate limiter keyed by client address, the
 * address taken from the forwarding headers, the request schema, and the order in which
 * the handler picks its response.
 *
 * The limiter's map and request counter live for the life of the server process; here they
 * are the fields of one object. The clock, the request headers and body, the database
 * insert and the server-client construction are inputs.
 */
module BetaSignup {
  import opened Wrappers
  import opened JsText
  import opened JsValue

  const RATE_LIMIT: nat := 5
  const RATE_WINDOW: nat := 60 * 1000
  const CLEANUP_INTERVAL: nat := 100
  const MAX_ENTRIES: nat := 1000
  const MAX_BODY: nat := 1024

  /** One address's window: the requests counted in it and when it ends. */
  datatype RateRecord = RateRecord(count: nat, resetTime: int)

  /** `{ allowed, remaining }`. */
  datatype Verdict = Verdict(allowed: bool, remaining: int)

  /** The records whose window has not ended at `now` (`now > resetTime` is ended). */
  function Unexpired(entries: map<string, RateRecord>, now: int): (r: map<string, RateRecord>)
    ensures forall k :: k in r <==> k in entries && now <= entries[k].resetTime
    ensures forall k :: k in r ==> r[k] == entries[k]
  {
    map k | k in entries && now <= entries[k].resetTime :: entries[k]
  }

  /** The verdict and the new map for one request from `ip` at `now`. */
  function Admit(entries: map<string, RateRecord>, ip: string, now: int): (r: (Verdict, map<string, RateRecord>))
    ensures ip !in entries || now > entries[ip].resetTime ==>
              r == (Verdict(true, RATE_LIMIT - 1), entries[ip := RateRecord(1, now + RATE_WINDOW)])
    ensures ip in entries && now <= entries[ip].resetTime && entries[ip].count >= RATE_LIMIT ==>
              r == (Verdict(false, 0), entries)
    ensures ip in entries && now <= entries[ip].resetTime && entries[ip].count < RATE_LIMIT ==>
              r == (Verdict(true, RATE_LIMIT - (entries[ip].count + 1)),
                    entries[ip := entries[ip].(count := entries[ip].count + 1)])
  {
    if ip !in entries || now > entries[ip].resetTime then
      (Verdict(true, RATE_LIMIT - 1), entries[ip := RateRecord(1, now + RATE_WINDOW)])
    else if entries[ip].count >= RATE_LIMIT then
      (Verdict(false, 0), entries)
    else
      (Verdict(true, RATE_LIMIT - (entries[ip].count + 1)), entries[ip := entries[ip].(count := entries[ip].count + 1)])
  }

  /** Cleaning up first does not change the verdict, nor the record of the address asking. */
  lemma CleanupKeepsVerdict(entries: map<string, RateRecord>, ip: string, now: int)
    ensures Admit(Unexpired(entries, now), ip, now).0 == Admit(entries, ip, now).0
    ensures Admit(Unexpired(entries, now), ip, now).1[ip] == Admit(entries, ip, now).1[ip]
  {
  }

  /** Counts stay between 1 and the limit. */
  predicate WithinLimit(entries: map<string, RateRecord>) {
    forall k :: k in entries ==> 1 <= entries[k].count <= RATE_LIMIT
  }

  /** The number of requests allowed in a run of requests from one address. */
  function AllowedCount(entries: map<string, RateRecord>, ip: string, times: seq<int>): nat
    decreases |times|
  {
    if times == [] then 0
    else
      var (v, next) := Admit(entries, ip, times[0]);
      (if v.allowed then 1 else 0) + AllowedCount(next, ip, times[1..])
  }

  function Min(a: int, b: int): int {
    if a <= b then a else b
  }

  /** Inside one window, with `c` requests already counted, a run of requests gets exactly
      `min(n, 5 - c)` of them allowed. */
  lemma {:induction false} WindowBudget(entries: map<string, RateRecord>, ip: string, times: seq<int>)
    requires ip in entries && 1 <= entries[ip].count <= RATE_LIMIT
    requires forall i :: 0 <= i < |times| ==> times[i] <= entries[ip].resetTime
    ensures AllowedCount(entries, ip, times) == Min(|times|, RATE_LIMIT - entries[ip].count)
    decreases |times|
  {
    if times != [] {
      var (v, next) := Admit(entries, ip, times[0]);
      assert next[ip].resetTime == entries[ip].resetTime;
      assert forall i :: 0 <= i < |times[1..]| ==> times[1..][i] == times[i + 1];
      WindowBudget(next, ip, times[1..]);
    }
  }

  /** A request that opens a window, followed by any number inside that window: at most
      five are allowed in all. */
  lemma AtMostFivePerWindow(entries: map<string, RateRecord>, ip: string, start: int, times: seq<int>)
    requires ip !in entries || start > entries[ip].resetTime
    requires forall i :: 0 <= i < |times| ==> times[i] <= start + RATE_WINDOW
    ensures 1 + AllowedCount(Admit(entries, ip, start).1, ip, times) == Min(1 + |times|, RATE_LIMIT)
  {
    WindowBudget(Admit(entries, ip, start).1, ip, times);
  }

  /** The module-level `rateLimitMap` and `requestCount`. */
  class RateLimiter {
    var entries: map<string, RateRecord>
    var requestCount: nat

    predicate Valid()
      reads this
    {
      WithinLimit(entries)
    }

    constructor()
      ensures Valid() && entries == map[] && requestCount == 0
    {
      entries := map[];
      requestCount := 0;
    }

    /** `cleanupExpiredEntries(now)`: collect the ended windows, then delete them. */
    method CleanupExpiredEntries(now: int)
      modifies this
      ensures entries == Unexpired(old(entries), now) && requestCount == old(requestCount)
    {
      var keys := entries.Keys;
      var toDelete: set<string> := {};
      while keys != {}
        invariant keys <= entries.Keys && entries == old(entries) && requestCount == old(requestCount)
        invariant forall k :: k in toDelete <==> k in entries.Keys - keys && now > entries[k].resetTime
        decreases keys
      {
        var k :| k in keys;
        if now > entries[k].resetTime {
          toDelete := toDelete + {k};
        }
        keys := keys - {k};
      }
      var pending := toDelete;
      while pending != {}
        invariant pending <= toDelete && requestCount == old(requestCount)
        invariant forall k :: k in entries <==> k in old(entries) && (k !in toDelete || k in pending)
        invariant forall k :: k in entries ==> entries[k] == old(entries)[k]
        decreases pending
      {
        var k :| k in pending;
        entries := entries - {k};
        pending := pending - {k};
      }
      assert entries == Unexpired(old(entries), now);
    }

    /** `checkRateLimit(ip)` at time `now`. The record is read before the periodic cleanup,
        which runs on every hundredth request or when the map holds over 1000 entries. */
    method CheckRateLimit(ip: string, now: int) returns (v: Verdict)
      requires Valid()
      modifies this
      ensures Valid()
      ensures requestCount == old(requestCount) + 1
      ensures var cleaned := requestCount % CLEANUP_INTERVAL == 0 || |old(entries)| > MAX_ENTRIES;
              var base := if cleaned then Unexpired(old(entries), now) else old(entries);
              (v, entries) == Admit(base, ip, now)
    {
      var record := if ip in entries then Some(entries[ip]) else None;
      requestCount := requestCount + 1;
      if requestCount % CLEANUP_INTERVAL == 0 || |entries| > MAX_ENTRIES {
        CleanupExpiredEntries(now);
      }
      if record.None? || now > record.value.resetTime {
        entries := entries[ip := RateRecord(1, now + RATE_WINDOW)];
        return Verdict(true, RATE_LIMIT - 1);
      }
      if record.value.count >= RATE_LIMIT {
        return Verdict(false, 0);
      }
      entries := entries[ip := record.value.(count := record.value.count + 1)];
      v := Verdict(true, RATE_LIMIT - (record.value.count + 1));
    }
  }

  // ---------------------------------------------------------------- the client address

  /** `headers.get(name)`: `None` is `null`. */
  function Header(headers: map<string, string>, name: string): Option<string> {
    if name in headers then Some(headers[name]) else None
  }

  /** `value.split(',')[0]?.trim() || 'unknown'`. */
  function FirstEntry(value: string): string {
    var first := Trim(Split(value, ',')[0]);
    if first != "" then first else "unknown"
  }

  /** `getClientIP(headers)`. */
  function ClientIp(headers: map<string, string>): string {
    var vercel := Header(headers, "x-vercel-forwarded-for");
    var forwarded := Header(headers, "x-forwarded-for");
    var realIp := Header(headers, "x-real-ip");
    if vercel.Some? && vercel.value != "" then FirstEntry(vercel.value)
    else if forwarded.Some? && forwarded.value != "" then FirstEntry(forwarded.value)
    else if realIp.Some? && realIp.value != "" then realIp.value
    else "unknown"
  }

  /** The first non-empty forwarding header wins, in the order Vercel, `x-forwarded-for`,
      `x-real-ip`; a forwarding list contributes its first entry, trimmed; the result is
      never empty. */
  lemma ClientIpPriority(headers: map<string, string>)
    ensures ClientIp(headers) != ""
    ensures var v := Header(headers, "x-vercel-forwarded-for");
            v.Some? && v.value != "" ==>
              (Trim(Before(v.value, ',')) != "" ==> ClientIp(headers) == Trim(Before(v.value, ',')))
              && (Trim(Before(v.value, ',')) == "" ==> ClientIp(headers) == "unknown")
    ensures var v := Header(headers, "x-vercel-forwarded-for");
            var f := Header(headers, "x-forwarded-for");
            (v.None? || v.value == "") && f.Some? && f.value != "" ==>
              ClientIp(headers) == (if Trim(Before(f.value, ',')) != "" then Trim(Before(f.value, ',')) else "unknown")
    ensures var v := Header(headers, "x-vercel-forwarded-for");
            var f := Header(headers, "x-forwarded-for");
            (v.None? || v.value == "") && (f.None? || f.value == "") ==>
              var r := Header(headers, "x-real-ip");
              ClientIp(headers) == (if r.Some? && r.value != "" then r.value else "unknown")
  {
    var v := Header(headers, "x-vercel-forwarded-for");
    var f := Header(headers, "x-forwarded-for");
    if v.Some? {
      SplitFirstPiece(v.value, ',');
    }
    if f.Some? {
      SplitFirstPiece(f.value, ',');
    }
  }

  // ---------------------------------------------------------------- the request schema

  /** zod's name for a value's type. */
  function TypeName(v: Value): string {
    match v
    case Undefined => "undefined"
    case Null => "null"
    case Bool(_) => "boolean"
    case Num(_) => "number"
    case Str(_) => "string"
    case Arr(_) => "array"
    case Obj(_, _) => "object"
  }

  /** zod's message for a value of the wrong type. */
  function TypeMessage(expected: string, v: Value): string {
    if v.Undefined? then "Required" else "Expected " + expected + ", received " + TypeName(v)
  }

  /** The parsed body: the email trimmed and lower-cased. */
  datatype SignupRequest = SignupRequest(email: string, website: Option<string>, timestamp: Option<int>)

  /** The first issue of the `email` field: its length checks come before the address check,
      and all three run on the text as sent. */
  function EmailIssue(v: Value, isEmail: string -> bool): Option<string> {
    match v
    case Str(s) =>
      if |s| < 1 then Some("Email is required")
      else if |s| > 254 then Some("Email address is too long")
      else if !isEmail(s) then Some("Please enter a valid email address")
      else None
    case _ => Some(TypeMessage("string", v))
  }

  /** `signupSchema.parse(raw)`. `isEmail` is zod's address check. The fields are checked in
      the order email, website, timestamp, and the first issue is reported. */
  function ParseSignup(raw: Value, isEmail: string -> bool): (r: Result<SignupRequest, string>)
    ensures r.Success? ==> raw.Obj? && Get(raw, "email").Str?
                           && r.value.email == Lower(Trim(Get(raw, "email").s))
                           && 1 <= |Get(raw, "email").s| <= 254 && isEmail(Get(raw, "email").s)
    ensures r.Success? && r.value.timestamp.Some? ==> r.value.timestamp.value > 0
  {
    if !raw.Obj? then Failure(TypeMessage("object", raw))
    else
      var email := Get(raw, "email");
      var website := Get(raw, "website");
      var timestamp := Get(raw, "timestamp");
      match EmailIssue(email, isEmail)
      case Some(m) => Failure(m)
      case None =>
        if !(website.Undefined? || website.Str?) then Failure(TypeMessage("string", website))
        else if !(timestamp.Undefined? || timestamp.Num?) then Failure(TypeMessage("number", timestamp))
        else if timestamp.Num? && timestamp.n <= 0 then Failure("Number must be greater than 0")
        else
          Success(SignupRequest(
            Lower(Trim(email.s)),
            if website.Str? then Some(website.s) else None,
            if timestamp.Num? then Some(timestamp.n) else None))
  }

  // ---------------------------------------------------------------- `parseInt(s, 10)`

  function DigitRun(s: string): (n: nat)
    ensures n <= |s| && forall k :: 0 <= k < n ==> IsDigit(s[k])
    decreases |s|
  {
    if s != [] && IsDigit(s[0]) then 1 + DigitRun(s[1..]) else 0
  }

  /** `parseInt(s, 10)`: leading whitespace, an optional sign, then the longest run of digits;
      `None` (`NaN`) when there is no digit. */
  function ParseInt(s: string): Option<int> {
    var t := TrimStart(s);
    var negative := t != [] && t[0] == '-';
    var body := if t != [] && (t[0] == '-' || t[0] == '+') then t[1..] else t;
    var n := DigitRun(body);
    if n == 0 then None
    else
      var value: int := DecimalValue(body[..n]);
      Some(if negative then -value else value)
  }

  /** A numeral reads as its value, and trailing text after it is ignored. */
  lemma ParseIntNumeral(n: nat, rest: string)
    requires rest == [] || !IsDigit(rest[0])
    ensures ParseInt(NatToDecimal(n) + rest) == Some(n)
  {
    var d := NatToDecimal(n);
    var s := d + rest;
    assert !IsWhitespace(s[0]);
    assert TrimStart(s) == s;
    assert DigitRun(s) == |d| by {
      DigitRunPrefix(d, rest);
    }
    assert s[..|d|] == d;
    DecimalRoundTrip(n);
  }

  lemma {:induction false} DigitRunPrefix(d: string, rest: string)
    requires forall k :: 0 <= k < |d| ==> IsDigit(d[k])
    requires rest == [] || !IsDigit(rest[0])
    ensures DigitRun(d + rest) == |d|
    decreases |d|
  {
    if d != [] {
      assert (d + rest)[1..] == d[1..] + rest;
      DigitRunPrefix(d[1..], rest);
    } else {
      assert d + rest == rest;
    }
  }

  // ---------------------------------------------------------------- the handler

  /** What the insert reported: success, or an error with its code. */
  datatype InsertResult = Inserted | InsertFailed(code: Option<string>)

  /** A response: its status, its message or error text, and the `X-RateLimit-Remaining`
      header when one is sent. */
  datatype Response = Response(status: int, text: string, remainingHeader: Option<int>)

  const LISTED := "You're on the list! We'll notify you when we launch."
  const ALREADY_LISTED := "You're already on the list! We'll be in touch soon."

  /** The email to insert, when the handler gets that far. */
  function InsertedEmail(body: Option<Value>, isEmail: string -> bool, clientFails: bool): Option<string> {
    if body.None? then None
    else
      match ParseSignup(body.value, isEmail)
      case Failure(_) => None
      case Success(req) =>
        if req.website.Some? && req.website.value != "" then None
        else if req.timestamp.Some? && req.timestamp.value < 1000 then None
        else if clientFails then None
        else Some(req.email)
  }

  /** The response `POST` returns once the limiter has given its verdict. `body` is
      `request.json()`, `None` when it throws; `clientFails` is `createServerClient`
      throwing. */
  function Decide(v: Verdict, contentLength: Option<string>, body: Option<Value>, isEmail: string -> bool,
                  clientFails: bool, insert: InsertResult): Response {
    if !v.allowed then Response(429, "Too many requests. Please try again in a minute.", Some(0))
    else if contentLength.Some? && contentLength.value != "" && ParseInt(contentLength.value).Some?
            && ParseInt(contentLength.value).value > MAX_BODY then
      Response(413, "Request body too large", Some(v.remaining))
    else if body.None? then Response(400, "Invalid JSON in request body", Some(v.remaining))
    else
      match ParseSignup(body.value, isEmail)
      case Failure(m) => Response(400, m, Some(v.remaining))
      case Success(req) =>
        if req.website.Some? && req.website.value != "" then Response(201, LISTED, None)
        else if req.timestamp.Some? && req.timestamp.value < 1000 then Response(201, LISTED, None)
        else if clientFails then Response(500, "Server configuration error", None)
        else
          match insert
          case InsertFailed(code) =>
            if code == Some("23505") then Response(200, ALREADY_LISTED, Some(v.remaining))
            else Response(500, "Failed to save signup. Please try again.", None)
          case Inserted => Response(201, LISTED, Some(v.remaining))
  }

  /** The limiter is consulted first: a refused request gets 429 whatever it carries, and
      an allowed one never does, so a malformed request still uses up quota. */
  lemma LimiterFirst(v: Verdict, contentLength: Option<string>, body: Option<Value>, isEmail: string -> bool,
                     clientFails: bool, insert: InsertResult)
    ensures Decide(v, contentLength, body, isEmail, clientFails, insert).status == 429 <==> !v.allowed
  {
  }

  /** A body that is not JSON, or fails the schema, gets 400 and is never inserted. */
  lemma BadBodyRefused(v: Verdict, contentLength: Option<string>, body: Option<Value>, isEmail: string -> bool,
                       clientFails: bool, insert: InsertResult)
    requires v.allowed && Decide(v, contentLength, body, isEmail, clientFails, insert).status != 413
    requires body.None? || ParseSignup(body.value, isEmail).Failure?
    ensures Decide(v, contentLength, body, isEmail, clientFails, insert).status == 400
    ensures InsertedEmail(body, isEmail, clientFails).None?
  {
  }

  /** The honeypot field and a too-fast timestamp look like success but insert nothing. */
  lemma BotsLookListed(v: Verdict, contentLength: Option<string>, body: Option<Value>, isEmail: string -> bool,
                       clientFails: bool, insert: InsertResult)
    requires v.allowed && Decide(v, contentLength, body, isEmail, clientFails, insert).status != 413
    requires body.Some? && ParseSignup(body.value, isEmail).Success?
    requires var req := ParseSignup(body.value, isEmail).value;
             (req.website.Some? && req.website.value != "") || (req.timestamp.Some? && req.timestamp.value < 1000)
    ensures Decide(v, contentLength, body, isEmail, clientFails, insert) == Response(201, LISTED, None)
    ensures InsertedEmail(body, isEmail, clientFails).None?
  {
  }

  /** Once an insert is attempted: success is 201 with the remaining count, a duplicate
      address (code 23505) is 200, any other failure is 500. */
  lemma InsertOutcome(v: Verdict, contentLength: Option<string>, body: Option<Value>, isEmail: string -> bool,
                      clientFails: bool, insert: InsertResult)
    requires v.allowed && Decide(v, contentLength, body, isEmail, clientFails, insert).status != 413
    requires InsertedEmail(body, isEmail, clientFails).Some?
    ensures var r := Decide(v, contentLength, body, isEmail, clientFails, insert);
            (insert == Inserted ==> r == Response(201, LISTED, Some(v.remaining)))
            && (insert == InsertFailed(Some("23505")) ==> r == Response(200, ALREADY_LISTED, Some(v.remaining)))
            && (insert.InsertFailed? && insert.code != Some("23505") ==>
                  r == Response(500, "Failed to save signup. Please try again.", None))
  {
  }

  /** A request body larger than 1024 bytes by its declared length is refused before the body
      is read, when the limiter allows it. */
  lemma OversizeRefused(v: Verdict, n: nat, body: Option<Value>, isEmail: string -> bool, clientFails: bool,
                        insert: InsertResult)
    requires v.allowed && n > MAX_BODY
    ensures Decide(v, Some(NatToDecimal(n)), body, isEmail, clientFails, insert).status == 413
  {
    ParseIntNumeral(n, "");
    assert NatToDecimal(n) + "" == NatToDecimal(n);
  }

  /** `POST(request)`: the client address, the limiter, then the decision. */
  method Post(limiter: RateLimiter, headers: map<string, string>, now: int, contentLength: Option<string>,
              body: Option<Value>, isEmail: string -> bool, clientFails: bool, insert: InsertResult)
    returns (r: Response, inserted: Option<string>)
    requires limiter.Valid()
    modifies limiter
    ensures limiter.Valid() && limiter.requestCount == old(limiter.requestCount) + 1
    ensures var cleaned := limiter.requestCount % CLEANUP_INTERVAL == 0 || |old(limiter.entries)| > MAX_ENTRIES;
            var base := if cleaned then Unexpired(old(limiter.entries), now) else old(limiter.entries);
            var (v, after) := Admit(base, ClientIp(headers), now);
            limiter.entries == after && r == Decide(v, contentLength, body, isEmail, clientFails, insert)
            && inserted == (if v.allowed && r.status != 413 then InsertedEmail(body, isEmail, clientFails) else None)
  {
    var ip := ClientIp(headers);
    var v := limiter.CheckRateLimit(ip, now);
    r := Decide(v, contentLength, body, isEmail, clientFails, insert);
    inserted := if v.allowed && r.status != 413 then InsertedEmail(body, isEmail, clientFails) else None;
  }
}
