/**
 * The in-memory mock backend the frontend talks to: users, sessions and messages kept in
 * browser storage, loaded, changed with `push` and written back by each call.
 *
 * The three stored arrays are fields of one object. The clock (`Date.now()` and its ISO
 * text) and `Math.random()` are parameters; a message's `createdAt` is its time in
 * milliseconds, which is what `getSessionMessages` sorts by.
 */
module MockApi {
  import opened Wrappers
  import opened JsText
  import opened AuthTypes

  /** `AuthResponse`. */
  datatype AuthResponse = AuthResponse(ok: bool, token: Option<string>, user: Option<User>, error: Option<string>)

  /** `AddictionSummary`. */
  datatype AddictionSummary = AddictionSummary(id: string, name: string, confidence: nat, topTriggers: seq<string>)

  /** `ResultsSummary`. */
  datatype ResultsSummary = ResultsSummary(sessionsCompleted: nat, addictions: seq<AddictionSummary>, unlocked: bool)

  /** `SendMessageResponse`. */
  datatype SendMessageResponse = SendMessageResponse(assistantMessage: Message, crisisFlag: bool)

  const VERIFY_CODE := "123456"
  const UNLOCK_SESSIONS: nat := 3

  /** The four canned assistant replies; `Math.random()` picks one. */
  const RESPONSES: seq<string> := [
    "I hear you. Let's take a moment to notice what's happening without judgment.",
    "That sounds difficult. What do you notice in your body right now?",
    "It's okay to feel this way. These feelings will pass. Can you name one thing you're grateful for today?",
    "I'm here with you. Let's try a simple breathing exercise: breathe in for 4 counts, hold for 4, out for 4."
  ]

  /** The two canned addictions shown once results unlock. */
  const UNLOCKED_ADDICTIONS: seq<AddictionSummary> := [
    AddictionSummary("social_media", "Social Media", 78, ["Evening hours", "Boredom", "Bedroom", "Negative thoughts"]),
    AddictionSummary("pornography", "Pornography", 65, ["Stress", "Loneliness", "Late night", "Alone time"])
  ]

  /** The storage keys `deleteAccount` removes besides the sessions and messages. */
  const ACCOUNT_KEYS: set<string> := {"urgeease-auth", "urgeease-preferences", "urgeease-onboarding", "urgeease_sessions_completed"}

  // ---------------------------------------------------------------- reading the arrays

  /** `users.find(u => u.email === email)`. */
  function FindUser(users: seq<User>, email: string): (r: Option<User>)
    ensures r.Some? <==> exists i :: 0 <= i < |users| && users[i].email == email
    ensures r.Some? ==> r.value in users && r.value.email == email
  {
    if users == [] then None
    else if users[0].email == email then Some(users[0])
    else FindUser(users[1..], email)
  }

  /** The messages of one session, in their stored order. */
  function OfSession(messages: seq<Message>, sessionId: string): (r: seq<Message>)
    ensures |r| <= |messages|
    ensures forall m :: m in r <==> m in messages && m.sessionId == sessionId
  {
    if messages == [] then []
    else (if messages[0].sessionId == sessionId then [messages[0]] else []) + OfSession(messages[1..], sessionId)
  }

  lemma {:induction false} OfSessionAppend(a: seq<Message>, b: seq<Message>, sessionId: string)
    ensures OfSession(a + b, sessionId) == OfSession(a, sessionId) + OfSession(b, sessionId)
    decreases |a|
  {
    if a == [] {
      assert a + b == b;
    } else {
      assert (a + b)[1..] == a[1..] + b;
      OfSessionAppend(a[1..], b, sessionId);
    }
  }

  /** Ascending `createdAt`. */
  predicate SortedByTime(s: seq<Message>) {
    forall i, j :: 0 <= i < j < |s| ==> s[i].createdAt <= s[j].createdAt
  }

  /** Insert into a sorted list after every message no later than `m`. */
  function Insert(m: Message, s: seq<Message>): (r: seq<Message>)
    ensures |r| == |s| + 1
  {
    if s == [] then [m]
    else if m.createdAt < s[0].createdAt then [m] + s
    else [s[0]] + Insert(m, s[1..])
  }

  /** A stable sort by `createdAt`, the order the `sort` comparator `a - b` gives. */
  function SortByTime(s: seq<Message>): (r: seq<Message>)
    ensures |r| == |s|
    decreases |s|
  {
    if s == [] then [] else Insert(s[|s| - 1], SortByTime(s[..|s| - 1]))
  }

  lemma {:induction false} InsertMultiset(m: Message, s: seq<Message>)
    ensures multiset(Insert(m, s)) == multiset(s) + multiset{m}
    decreases |s|
  {
    if s != [] && m.createdAt >= s[0].createdAt {
      InsertMultiset(m, s[1..]);
      assert s == [s[0]] + s[1..];
    }
  }

  /** The sort is a permutation. */
  lemma {:induction false} SortByTimeMultiset(s: seq<Message>)
    ensures multiset(SortByTime(s)) == multiset(s)
    decreases |s|
  {
    if s != [] {
      var init, last := s[..|s| - 1], s[|s| - 1];
      SortByTimeMultiset(init);
      InsertMultiset(last, SortByTime(init));
      assert s == init + [last];
      calc {
        multiset(SortByTime(s));
        multiset(Insert(last, SortByTime(init)));
        multiset(init) + multiset{last};
        multiset(init + [last]);
      }
    }
  }

  lemma {:induction false} InsertSorted(m: Message, s: seq<Message>)
    requires SortedByTime(s)
    ensures SortedByTime(Insert(m, s))
    decreases |s|
  {
    if s != [] && m.createdAt >= s[0].createdAt {
      InsertSorted(m, s[1..]);
      InsertMultiset(m, s[1..]);
      var r := Insert(m, s);
      assert r == [s[0]] + Insert(m, s[1..]);
      forall j | 0 < j < |r|
        ensures s[0].createdAt <= r[j].createdAt
      {
        assert r[j] in multiset(Insert(m, s[1..]));
        assert r[j] in multiset(s[1..]) + multiset{m};
        if r[j] != m {
          assert r[j] in s[1..];
        }
      }
    }
  }

  lemma {:induction false} SortByTimeSorted(s: seq<Message>)
    ensures SortedByTime(SortByTime(s))
    decreases |s|
  {
    if s != [] {
      SortByTimeSorted(s[..|s| - 1]);
      InsertSorted(s[|s| - 1], SortByTime(s[..|s| - 1]));
    }
  }

  /** The messages in `s` with time `t`, in order. */
  function AtTime(s: seq<Message>, t: int): seq<Message> {
    if s == [] then [] else (if s[0].createdAt == t then [s[0]] else []) + AtTime(s[1..], t)
  }

  lemma {:induction false} AtTimeAppend(a: seq<Message>, b: seq<Message>, t: int)
    ensures AtTime(a + b, t) == AtTime(a, t) + AtTime(b, t)
    decreases |a|
  {
    if a == [] {
      assert a + b == b;
    } else {
      assert (a + b)[1..] == a[1..] + b;
      AtTimeAppend(a[1..], b, t);
    }
  }

  /** Inserting `m` puts it after every message of its own time that is already there. */
  lemma {:induction false} InsertAtTime(m: Message, s: seq<Message>, t: int)
    requires SortedByTime(s)
    ensures AtTime(Insert(m, s), t) == AtTime(s, t) + (if m.createdAt == t then [m] else [])
    decreases |s|
  {
    if s == [] {
    } else if m.createdAt < s[0].createdAt {
      InsertFirstAtTime(m, s, t);
    } else {
      assert SortedByTime(s[1..]);
      InsertAtTime(m, s[1..], t);
      InsertLaterAtTime(m, s, t);
    }
  }

  lemma InsertFirstAtTime(m: Message, s: seq<Message>, t: int)
    requires SortedByTime(s) && s != [] && m.createdAt < s[0].createdAt
    ensures AtTime(Insert(m, s), t) == AtTime(s, t) + (if m.createdAt == t then [m] else [])
  {
    assert Insert(m, s) == [m] + s;
    AtTimeAppend([m], s, t);
    if m.createdAt == t {
      NoneAtTime(s, t);
    }
  }

  lemma InsertLaterAtTime(m: Message, s: seq<Message>, t: int)
    requires s != [] && m.createdAt >= s[0].createdAt
    requires AtTime(Insert(m, s[1..]), t) == AtTime(s[1..], t) + (if m.createdAt == t then [m] else [])
    ensures AtTime(Insert(m, s), t) == AtTime(s, t) + (if m.createdAt == t then [m] else [])
  {
    assert Insert(m, s) == [s[0]] + Insert(m, s[1..]);
    AtTimeAppend([s[0]], Insert(m, s[1..]), t);
    AtTimeAppend([s[0]], s[1..], t);
    assert [s[0]] + s[1..] == s;
  }

  lemma {:induction false} NoneAtTime(s: seq<Message>, t: int)
    requires forall k :: 0 <= k < |s| ==> s[k].createdAt > t
    ensures AtTime(s, t) == []
    decreases |s|
  {
    if s != [] {
      NoneAtTime(s[1..], t);
    }
  }

  /** The sort is stable: the messages sharing a time keep their relative order. */
  lemma {:induction false} SortByTimeStable(s: seq<Message>, t: int)
    ensures AtTime(SortByTime(s), t) == AtTime(s, t)
    decreases |s|
  {
    if s != [] {
      var init := s[..|s| - 1];
      var last := s[|s| - 1];
      SortByTimeStable(init, t);
      SortByTimeSorted(init);
      InsertAtTime(last, SortByTime(init), t);
      assert s == init + [last];
      AtTimeAppend(init, [last], t);
    }
  }

  /** `getSessionMessages(sessionId)` over the stored messages. */
  function SessionMessages(messages: seq<Message>, sessionId: string): seq<Message> {
    SortByTime(OfSession(messages, sessionId))
  }

  /** Exactly the session's messages, each as often as stored, in ascending time, and those
      sharing a time in their stored order. */
  lemma SessionMessagesMeaning(messages: seq<Message>, sessionId: string, t: int)
    ensures multiset(SessionMessages(messages, sessionId)) == multiset(OfSession(messages, sessionId))
    ensures forall m :: m in SessionMessages(messages, sessionId) <==> m in messages && m.sessionId == sessionId
    ensures SortedByTime(SessionMessages(messages, sessionId))
    ensures AtTime(SessionMessages(messages, sessionId), t) == AtTime(OfSession(messages, sessionId), t)
  {
    var r := SessionMessages(messages, sessionId);
    SortByTimeMultiset(OfSession(messages, sessionId));
    forall m
      ensures m in r <==> m in OfSession(messages, sessionId)
    {
      assert m in r <==> m in multiset(r);
    }
    SortByTimeSorted(OfSession(messages, sessionId));
    SortByTimeStable(OfSession(messages, sessionId), t);
  }

  /** The number of sessions with at least one message. */
  function Completed(sessions: seq<SessionSummary>): (n: nat)
    ensures n <= |sessions|
  {
    if sessions == [] then 0 else (if sessions[0].messageCount > 0 then 1 else 0) + Completed(sessions[1..])
  }

  /** `getResults()`. */
  function Results(sessions: seq<SessionSummary>): (r: ResultsSummary)
    ensures r.sessionsCompleted == Completed(sessions)
    ensures r.unlocked <==> Completed(sessions) >= UNLOCK_SESSIONS
    ensures r.addictions == [] <==> !r.unlocked
  {
    var completed := Completed(sessions);
    var unlocked := completed >= UNLOCK_SESSIONS;
    ResultsSummary(completed, if unlocked then UNLOCKED_ADDICTIONS else [], unlocked)
  }

  lemma {:induction false} CompletedUpdate(sessions: seq<SessionSummary>, i: nat, s: SessionSummary)
    requires i < |sessions| && sessions[i].messageCount == 0 && s.messageCount > 0
    ensures Completed(sessions[i := s]) == Completed(sessions) + 1
    decreases |sessions|
  {
    if i > 0 {
      assert sessions[i := s][1..] == sessions[1..][i - 1 := s];
      CompletedUpdate(sessions[1..], i - 1, s);
    }
  }

  lemma {:induction false} CompletedUnchanged(sessions: seq<SessionSummary>, i: nat, s: SessionSummary)
    requires i < |sessions| && (sessions[i].messageCount > 0 <==> s.messageCount > 0)
    ensures Completed(sessions[i := s]) == Completed(sessions)
    decreases |sessions|
  {
    if i > 0 {
      assert sessions[i := s][1..] == sessions[1..][i - 1 := s];
      CompletedUnchanged(sessions[1..], i - 1, s);
    }
  }

  /** The first session with the given id. */
  function FindSession(sessions: seq<SessionSummary>, id: string): (r: Option<nat>)
    ensures r.Some? ==> r.value < |sessions| && sessions[r.value].id == id
                        && forall k :: 0 <= k < r.value ==> sessions[k].id != id
    ensures r.None? ==> forall k :: 0 <= k < |sessions| ==> sessions[k].id != id
  {
    if sessions == [] then None
    else if sessions[0].id == id then Some(0)
    else match FindSession(sessions[1..], id)
      case None => None
      case Some(k) => Some(k + 1)
  }

  /** No two users share an email. */
  predicate UniqueEmails(users: seq<User>) {
    forall i, j :: 0 <= i < j < |users| ==> users[i].email != users[j].email
  }

  class MockBackend {
    var users: seq<User>
    var sessions: seq<SessionSummary>
    var messages: seq<Message>
    /** `sessionStorage`'s `verify_<email>` codes. */
    var verifyCodes: map<string, string>
    /** The other stores' persisted entries, by storage key. */
    var otherItems: map<string, string>

    predicate Valid()
      reads this
    {
      UniqueEmails(users)
    }

    constructor(otherItems: map<string, string>)
      ensures Valid() && users == [] && sessions == [] && messages == [] && verifyCodes == map[]
      ensures this.otherItems == otherItems
    {
      users := [];
      sessions := [];
      messages := [];
      verifyCodes := map[];
      this.otherItems := otherItems;
    }

    /** `signUp({ name, email, password })` at time `now` (`nowText` is its ISO text). */
    method SignUp(name: string, email: string, password: string, now: nat, nowText: string) returns (r: AuthResponse)
      requires Valid()
      modifies this
      ensures Valid()
      ensures FindUser(old(users), email).Some? ==>
                r == AuthResponse(false, None, None, Some("Email already registered")) && users == old(users)
                && verifyCodes == old(verifyCodes)
      ensures FindUser(old(users), email).None? ==>
                r == AuthResponse(true, None, None, None)
                && users == old(users) + [User("user_" + NatToDecimal(now), email, Some(name), nowText)]
                && verifyCodes == old(verifyCodes)[email := VERIFY_CODE]
      ensures sessions == old(sessions) && messages == old(messages) && otherItems == old(otherItems)
    {
      if FindUser(users, email).Some? {
        return AuthResponse(false, None, None, Some("Email already registered"));
      }
      var user := User("user_" + NatToDecimal(now), email, Some(name), nowText);
      users := users + [user];
      verifyCodes := verifyCodes[email := VERIFY_CODE];
      r := AuthResponse(true, None, None, None);
    }

    /** `verifyEmail({ email, code })`; `token` is the `token_<time>_<random>` text. */
    function VerifyEmail(email: string, code: string, token: string): (r: AuthResponse)
      reads this
      ensures r.ok <==> (code == VERIFY_CODE || (email in verifyCodes && code == verifyCodes[email]))
                        && FindUser(users, email).Some?
      ensures r.ok ==> r.token == Some(token) && r.user == FindUser(users, email)
      ensures !r.ok ==> r.error == Some(if code != VERIFY_CODE && !(email in verifyCodes && code == verifyCodes[email])
                                        then "Invalid verification code" else "User not found")
    {
      var stored := if email in verifyCodes then Some(verifyCodes[email]) else None;
      if code != VERIFY_CODE && Some(code) != stored then AuthResponse(false, None, None, Some("Invalid verification code"))
      else match FindUser(users, email)
        case None => AuthResponse(false, None, None, Some("User not found"))
        case Some(u) => AuthResponse(true, Some(token), Some(u), None)
    }

    /** `signIn({ email, password })`: the password is never looked at. */
    function SignIn(email: string, password: string, token: string): (r: AuthResponse)
      reads this
      ensures r.ok <==> exists i :: 0 <= i < |users| && users[i].email == email
      ensures r.ok ==> r.user.Some? && r.user.value in users && r.user.value.email == email && r.token == Some(token)
      ensures !r.ok ==> r == AuthResponse(false, None, None, Some("Invalid email or password"))
    {
      match FindUser(users, email)
      case None => AuthResponse(false, None, None, Some("Invalid email or password"))
      case Some(u) => AuthResponse(true, Some(token), Some(u), None)
    }

    /** `createSession({ mode })`. */
    method CreateSession(mode: Mode, now: nat, nowText: string) returns (sessionId: string)
      modifies this
      ensures sessionId == "session_" + NatToDecimal(now)
      ensures sessions == old(sessions) + [SessionSummary(sessionId, mode, nowText, None, 0)]
      ensures users == old(users) && messages == old(messages) && verifyCodes == old(verifyCodes)
      ensures otherItems == old(otherItems)
    {
      sessionId := "session_" + NatToDecimal(now);
      sessions := sessions + [SessionSummary(sessionId, mode, nowText, None, 0)];
    }

    /** `sendMessage({ sessionId, mode, text })`. `reply` is the index `Math.random()` picks
        among the canned replies and `roll` stands for `Math.random() > 0.9`. */
    method SendMessage(sessionId: string, mode: Mode, text: string, now: nat, nowText: string, reply: nat, roll: bool)
      returns (r: SendMessageResponse)
      requires reply < |RESPONSES|
      modifies this
      ensures var stamp := NatToDecimal(now);
              var user := Message("msg_" + stamp + "_user", sessionId, UserRole, text, now, mode);
              var assistant := Message("msg_" + stamp + "_assistant", sessionId, Assistant, RESPONSES[reply], now, mode);
              messages == old(messages) + [user, assistant] && r.assistantMessage == assistant
      ensures r.crisisFlag <==> roll && Contains(Lower(text), "hurt")
      ensures match FindSession(old(sessions), sessionId)
              case None => sessions == old(sessions)
              case Some(i) =>
                sessions == old(sessions)[i := old(sessions)[i].(messageCount := |OfSession(messages, sessionId)|,
                                                                 lastMessageAt := Some(nowText))]
      ensures users == old(users) && verifyCodes == old(verifyCodes) && otherItems == old(otherItems)
    {
      var stamp := NatToDecimal(now);
      var user := Message("msg_" + stamp + "_user", sessionId, UserRole, text, now, mode);
      messages := messages + [user];
      var assistant := Message("msg_" + stamp + "_assistant", sessionId, Assistant, RESPONSES[reply], now, mode);
      messages := messages + [assistant];
      var found := FindSession(sessions, sessionId);
      if found.Some? {
        var i := found.value;
        sessions := sessions[i := sessions[i].(messageCount := |OfSession(messages, sessionId)|,
                                               lastMessageAt := Some(nowText))];
      }
      r := SendMessageResponse(assistant, roll && Contains(Lower(text), "hurt"));
    }

    /** `deleteAccount()`: sessions, messages and the account's other entries go; the users
        list stays. */
    method DeleteAccount() returns (ok: bool)
      modifies this
      ensures ok && sessions == [] && messages == [] && users == old(users)
      ensures otherItems == old(otherItems) - ACCOUNT_KEYS && verifyCodes == old(verifyCodes)
    {
      otherItems := otherItems - ACCOUNT_KEYS;
      sessions := [];
      messages := [];
      ok := true;
    }
  }

  /** Registering a new email adds exactly that user, keeps emails unique, and a second
      sign-up of the same email is refused. */
  lemma SignUpTwice(users: seq<User>, u: User)
    requires UniqueEmails(users) && FindUser(users, u.email).None?
    ensures UniqueEmails(users + [u])
    ensures FindUser(users + [u], u.email) == Some(u)
  {
    FindUserAppend(users, u);
  }

  lemma {:induction false} FindUserAppend(users: seq<User>, u: User)
    requires FindUser(users, u.email).None?
    ensures FindUser(users + [u], u.email) == Some(u)
    decreases |users|
  {
    if users == [] {
    } else {
      assert (users + [u])[1..] == users[1..] + [u];
      FindUserAppend(users[1..], u);
    }
  }

  /** Sending a message puts the session's count at two more than its stored messages had,
      so a session that had none starts counting towards the results. */
  lemma SendMessageCompletes(messages: seq<Message>, sessions: seq<SessionSummary>, i: nat,
                             user: Message, assistant: Message, nowText: string)
    requires i < |sessions| && user.sessionId == sessions[i].id && assistant.sessionId == sessions[i].id
    requires sessions[i].messageCount == |OfSession(messages, sessions[i].id)|
    ensures var after := OfSession(messages + [user, assistant], sessions[i].id);
            |after| == sessions[i].messageCount + 2
            && Completed(sessions[i := sessions[i].(messageCount := |after|, lastMessageAt := Some(nowText))])
               == Completed(sessions) + (if sessions[i].messageCount == 0 then 1 else 0)
  {
    var id := sessions[i].id;
    OfSessionAppend(messages, [user, assistant], id);
    assert OfSession([user, assistant], id) == [user, assistant] by {
      assert [user, assistant][1..] == [assistant];
    }
    var s := sessions[i].(messageCount := |OfSession(messages + [user, assistant], id)|, lastMessageAt := Some(nowText));
    if sessions[i].messageCount == 0 {
      CompletedUpdate(sessions, i, s);
    } else {
      CompletedUnchanged(sessions, i, s);
    }
  }
}
