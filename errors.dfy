/**
 * Error presentation helpers: masking an e-mail address for logs, turning an arbitrary
 * thrown value into a message for the user by an ordered table of rules, and masking the
 * e-mail entries of the additional data attached to a log line.
 */
module Errors {
  import opened Wrappers
  import opened JsText
  import opened JsValue

  const MASKED_EMAIL: string := "***@***"

  function Min(a: int, b: int): int {
    if a <= b then a else b
  }

  /** `anonymizeEmail(email)`: at most the first two characters of the part before the first
      `@`, then `***@`, then the part between the first and the second `@`. */
  function AnonymizeEmail(email: string): string {
    if email == "" || !Contains(email, "@") then MASKED_EMAIL
    else
      var parts := Split(email, '@');
      var local := parts[0];
      var domain := if |parts| > 1 then parts[1] else "";
      local[..Min(2, |local|)] + "***" + "@" + domain
  }

  lemma AnonymizeSplit(email: string)
    requires Contains(email, "@") && email != ""
    requires |Before(email, '@')| < |email|
    ensures var local := Before(email, '@');
            AnonymizeEmail(email) == local[..Min(2, |local|)] + "***" + "@" + Before(email[|local| + 1..], '@')
  {
    SplitFirstPiece(email, '@');
  }

  /** Without an `@` the whole address is masked; otherwise the local part (text before the
      first `@`) shows at most two characters and the domain is the next segment. */
  lemma AnonymizeEmailShape(email: string)
    ensures '@' !in email ==> AnonymizeEmail(email) == MASKED_EMAIL
    ensures '@' in email ==>
      var local := Before(email, '@');
      var domain := Before(email[|local| + 1..], '@');
      AnonymizeEmail(email) == local[..Min(2, |local|)] + "***" + "@" + domain
  {
    ContainsCharIff(email, '@');
    assert "@" == ['@'];
    if '@' in email {
      BeforeShorter(email, '@');
      AnonymizeSplit(email);
    }
  }

  /** The mask depends on nothing of the local part beyond its first two characters. */
  lemma AnonymizeHidesLocal(l1: string, l2: string, domain: string)
    requires '@' !in l1 && '@' !in l2 && '@' !in domain
    requires l1[..Min(2, |l1|)] == l2[..Min(2, |l2|)]
    ensures AnonymizeEmail(l1 + "@" + domain) == AnonymizeEmail(l2 + "@" + domain)
  {
    AtSplit(l1, domain);
    AtSplit(l2, domain);
  }

  /** An address made of a local part and a domain without `@` masks its local part only. */
  lemma AtSplit(local: string, domain: string)
    requires '@' !in local && '@' !in domain
    ensures AnonymizeEmail(local + "@" + domain) == local[..Min(2, |local|)] + "***" + "@" + domain
  {
    var e := local + "@" + domain;
    assert e == local + ("@" + domain);
    BeforePrefix(local, "@" + domain, '@');
    assert Before("@" + domain, '@') == [];
    assert Before(e, '@') == local;
    assert e[|local| + 1..] == domain;
    BeforeAll(domain, '@');
    assert e[|local|] == '@';
    AnonymizeEmailShape(e);
  }

  /** The messages `getUserFriendlyError` can substitute, in rule order. */
  const TIMEOUT_MESSAGE: string := "Server timeout. Please try again in a moment."
  const REGISTERED_MESSAGE: string := "This email is already registered. Please sign in instead."
  const DATABASE_MESSAGE: string := "Database configuration error. Please contact support."
  const CREDENTIALS_MESSAGE: string := "Invalid email or password."
  const FORMAT_MESSAGE: string := "Invalid email or password format. Please check your input."
  const NETWORK_MESSAGE: string := "Network error. Please check your internet connection and try again."
  const EMPTY_MESSAGE: string := "An error occurred"
  const GENERIC_MESSAGE: string := "An unexpected error occurred. Please try again."
  const ERROR_INSTANCE_FALLBACK: string := "An unexpected error occurred"

  /** The test of one rule, over the message and the `status` property. */
  datatype Condition =
    | Has(text: string)
    | StatusIs(code: int)
    | AnyOf(options: seq<Condition>)
    | AllOf(parts: seq<Condition>)

  predicate Holds(c: Condition, message: string, status: Value)
    decreases c
  {
    match c
    case Has(text) => Contains(message, text)
    case StatusIs(code) => status == Num(code)
    case AnyOf(options) => exists i :: 0 <= i < |options| && Holds(options[i], message, status)
    case AllOf(parts) => forall i :: 0 <= i < |parts| ==> Holds(parts[i], message, status)
  }

  datatype Rule = Rule(when: Condition, say: string)

  /** The classification table of `getUserFriendlyError`, in the order the rules are tried. */
  const RULES: seq<Rule> := [TIMEOUT_RULE, REGISTERED_RULE, DATABASE_RULE, CREDENTIALS_RULE, FORMAT_RULE, NETWORK_RULE]
  const TIMEOUT_RULE := Rule(AnyOf([Has("timeout"), Has("Gateway"), StatusIs(504)]), TIMEOUT_MESSAGE)
  const REGISTERED_RULE := Rule(AnyOf([Has("User already registered"), Has("already exists")]), REGISTERED_MESSAGE)
  const DATABASE_RULE := Rule(AnyOf([Has("Database"), Has("database")]), DATABASE_MESSAGE)
  const CREDENTIALS_RULE := Rule(Has("Invalid login credentials"), CREDENTIALS_MESSAGE)
  const FORMAT_RULE := Rule(AllOf([Has("Invalid"), AnyOf([Has("email"), Has("password")])]), FORMAT_MESSAGE)
  const NETWORK_RULE := Rule(AnyOf([Has("network"), Has("Network"), Has("fetch")]), NETWORK_MESSAGE)

  /** Trying the rules from index `k` on: the first that holds decides; with none the
      message itself is the answer. */
  function FirstMatchFrom(rules: seq<Rule>, k: nat, message: string, status: Value): (r: string)
    requires k <= |rules|
    ensures (forall i :: k <= i < |rules| ==> !Holds(rules[i].when, message, status)) ==> r == message
    ensures forall i :: k <= i < |rules| && Holds(rules[i].when, message, status)
                        && (forall j :: k <= j < i ==> !Holds(rules[j].when, message, status))
                        ==> r == rules[i].say
    decreases |rules| - k
  {
    if k == |rules| then message
    else if Holds(rules[k].when, message, status) then rules[k].say
    else FirstMatchFrom(rules, k + 1, message, status)
  }

  /** The rule table tried in order from its first rule. */
  function FirstMatch(rules: seq<Rule>, message: string, status: Value): string {
    FirstMatchFrom(rules, 0, message, status)
  }

  /** The chain of `if`s in `getUserFriendlyError`, for a string message. */
  function Classify(message: string, status: Value): string {
    if Contains(message, "timeout") || Contains(message, "Gateway") || status == Num(504) then TIMEOUT_MESSAGE
    else if Contains(message, "User already registered") || Contains(message, "already exists") then REGISTERED_MESSAGE
    else if Contains(message, "Database") || Contains(message, "database") then DATABASE_MESSAGE
    else if Contains(message, "Invalid login credentials") then CREDENTIALS_MESSAGE
    else if Contains(message, "Invalid") && (Contains(message, "email") || Contains(message, "password")) then FORMAT_MESSAGE
    else if Contains(message, "network") || Contains(message, "Network") || Contains(message, "fetch") then NETWORK_MESSAGE
    else message
  }

  lemma AnyOf2(a: Condition, b: Condition, message: string, status: Value)
    ensures Holds(AnyOf([a, b]), message, status) <==> Holds(a, message, status) || Holds(b, message, status)
  {
    var s := [a, b];
    if Holds(a, message, status) { assert Holds(s[0], message, status); }
    if Holds(b, message, status) { assert Holds(s[1], message, status); }
  }

  lemma AnyOf3(a: Condition, b: Condition, c: Condition, message: string, status: Value)
    ensures Holds(AnyOf([a, b, c]), message, status)
            <==> Holds(a, message, status) || Holds(b, message, status) || Holds(c, message, status)
  {
    var s := [a, b, c];
    if Holds(a, message, status) { assert Holds(s[0], message, status); }
    if Holds(b, message, status) { assert Holds(s[1], message, status); }
    if Holds(c, message, status) { assert Holds(s[2], message, status); }
  }

  lemma Rule0(message: string, status: Value)
    ensures Holds(RULES[0].when, message, status) <==>
              Contains(message, "timeout") || Contains(message, "Gateway") || status == Num(504)
  {
    AnyOf3(Has("timeout"), Has("Gateway"), StatusIs(504), message, status);
  }

  lemma Rule1(message: string, status: Value)
    ensures Holds(RULES[1].when, message, status) <==>
              Contains(message, "User already registered") || Contains(message, "already exists")
  {
    AnyOf2(Has("User already registered"), Has("already exists"), message, status);
  }

  lemma Rule2(message: string, status: Value)
    ensures Holds(RULES[2].when, message, status) <==> Contains(message, "Database") || Contains(message, "database")
  {
    AnyOf2(Has("Database"), Has("database"), message, status);
  }

  lemma Rule3(message: string, status: Value)
    ensures Holds(RULES[3].when, message, status) <==> Contains(message, "Invalid login credentials")
  {
  }

  lemma Rule4(message: string, status: Value)
    ensures Holds(RULES[4].when, message, status) <==>
              Contains(message, "Invalid") && (Contains(message, "email") || Contains(message, "password"))
  {
    AnyOf2(Has("email"), Has("password"), message, status);
    AllOf2(Has("Invalid"), AnyOf([Has("email"), Has("password")]), message, status);
  }

  lemma AllOf2(a: Condition, b: Condition, message: string, status: Value)
    ensures Holds(AllOf([a, b]), message, status) <==> Holds(a, message, status) && Holds(b, message, status)
  {
    var s := [a, b];
    assert s[0] == a && s[1] == b;
  }

  lemma Rule5(message: string, status: Value)
    ensures Holds(RULES[5].when, message, status) <==>
              Contains(message, "network") || Contains(message, "Network") || Contains(message, "fetch")
  {
    AnyOf3(Has("network"), Has("Network"), Has("fetch"), message, status);
  }

  /** Rule `i` decides when it holds and no earlier rule does. */
  lemma FirstMatchAt(rules: seq<Rule>, i: nat, message: string, status: Value)
    requires i < |rules| && Holds(rules[i].when, message, status)
    requires forall j :: 0 <= j < i ==> !Holds(rules[j].when, message, status)
    ensures FirstMatch(rules, message, status) == rules[i].say
  {
  }

  /** With no rule holding, the message itself is the answer. */
  lemma FirstMatchNone(rules: seq<Rule>, message: string, status: Value)
    requires forall j :: 0 <= j < |rules| ==> !Holds(rules[j].when, message, status)
    ensures FirstMatch(rules, message, status) == message
  {
  }

  /** Where rule `k` is the first that holds, the chain and the table agree; `k == 6` is the
      case where no rule holds. */
  lemma ClassifyCase(message: string, status: Value, k: nat)
    requires k <= 6
    requires forall j :: 0 <= j < k ==> !Holds(RULES[j].when, message, status)
    requires k < 6 ==> Holds(RULES[k].when, message, status)
    ensures Classify(message, status) == FirstMatch(RULES, message, status)
  {
    Rule0(message, status);
    Rule1(message, status);
    Rule2(message, status);
    Rule3(message, status);
    Rule4(message, status);
    Rule5(message, status);
    if k < 6 {
      FirstMatchAt(RULES, k, message, status);
      ClassifyAt(message, status, k);
    } else {
      assert !Holds(RULES[0].when, message, status) && !Holds(RULES[1].when, message, status);
      assert !Holds(RULES[2].when, message, status) && !Holds(RULES[3].when, message, status);
      assert !Holds(RULES[4].when, message, status) && !Holds(RULES[5].when, message, status);
      FirstMatchNone(RULES, message, status);
    }
  }

  /** The chain's answer where rule `k` is the first that holds. */
  lemma ClassifyAt(message: string, status: Value, k: nat)
    requires k < 6 && Holds(RULES[k].when, message, status)
    requires forall j :: 0 <= j < k ==> !Holds(RULES[j].when, message, status)
    ensures Classify(message, status) == RULES[k].say
  {
    Rule0(message, status);
    Rule1(message, status);
    Rule2(message, status);
    Rule3(message, status);
    Rule4(message, status);
    Rule5(message, status);
    if k == 0 {
    } else if k == 1 {
      assert !Holds(RULES[0].when, message, status);
    } else if k == 2 {
      assert !Holds(RULES[0].when, message, status) && !Holds(RULES[1].when, message, status);
    } else if k == 3 {
      assert !Holds(RULES[0].when, message, status) && !Holds(RULES[1].when, message, status);
      assert !Holds(RULES[2].when, message, status);
    } else if k == 4 {
      assert !Holds(RULES[0].when, message, status) && !Holds(RULES[1].when, message, status);
      assert !Holds(RULES[2].when, message, status) && !Holds(RULES[3].when, message, status);
    } else {
      assert !Holds(RULES[0].when, message, status) && !Holds(RULES[1].when, message, status);
      assert !Holds(RULES[2].when, message, status) && !Holds(RULES[3].when, message, status);
      assert !Holds(RULES[4].when, message, status);
    }
  }

  /** The chain of `if`s is exactly the rule table tried in order. */
  lemma ClassifyIsRuleTable(message: string, status: Value)
    ensures Classify(message, status) == FirstMatch(RULES, message, status)
  {
    var k := 0;
    while k < 6 && !Holds(RULES[k].when, message, status)
      invariant k <= 6
      invariant forall j :: 0 <= j < k ==> !Holds(RULES[j].when, message, status)
    {
      k := k + 1;
    }
    ClassifyCase(message, status, k);
  }

  /** `getUserFriendlyError(error)`. `Failure` is the `TypeError` raised when the `message`
      property is a truthy non-string, on which `.includes` is not a function. */
  function UserFriendlyError(error: Value): Result<string, string> {
    if Truthy(error) && error.Obj? && HasProperty(error, "message") then
      match Or(Get(error, "message"), Str(EMPTY_MESSAGE))
      case Str(message) => Success(Classify(message, Get(error, "status")))
      case _ => Failure("TypeError")
    else if error.Obj? && error.isError then
      match Get(error, "message")
      case Str(m) => Success(if m != "" then m else ERROR_INSTANCE_FALLBACK)
      case _ => Success(ERROR_INSTANCE_FALLBACK)
    else
      Success(GENERIC_MESSAGE)
  }

  /** What the three outcomes of `getUserFriendlyError` are: a value without a `message`
      property gets the generic text; a string (or missing) message is classified by the rule
      table, an empty one as 'An error occurred'. */
  lemma UserFriendlyErrorCases(error: Value)
    ensures !(error.Obj? && HasProperty(error, "message")) ==> UserFriendlyError(error) == Success(GENERIC_MESSAGE)
    ensures error.Obj? && Get(error, "message").Str? ==>
      var m := Get(error, "message").s;
      UserFriendlyError(error) == Success(FirstMatch(RULES, if m == "" then EMPTY_MESSAGE else m, Get(error, "status")))
  {
    if error.Obj? && Get(error, "message").Str? {
      var m := Get(error, "message").s;
      var shown := if m == "" then EMPTY_MESSAGE else m;
      StringMessageClassified(error);
      ClassifyIsRuleTable(shown, Get(error, "status"));
    }
  }

  /** A string (or empty) message goes to the classification. */
  lemma StringMessageClassified(error: Value)
    requires error.Obj? && Get(error, "message").Str?
    ensures var m := Get(error, "message").s;
            UserFriendlyError(error) == Success(Classify(if m == "" then EMPTY_MESSAGE else m, Get(error, "status")))
  {
    var mv := Get(error, "message");
    assert Truthy(error) && HasProperty(error, "message");
    var shown := if mv.s == "" then EMPTY_MESSAGE else mv.s;
    assert Or(mv, Str(EMPTY_MESSAGE)) == Str(shown);
  }

  /** The classification is one of the fixed messages or the message itself. */
  lemma ClassifyRange(message: string, status: Value)
    ensures Classify(message, status) in {TIMEOUT_MESSAGE, REGISTERED_MESSAGE, DATABASE_MESSAGE,
                                          CREDENTIALS_MESSAGE, FORMAT_MESSAGE, NETWORK_MESSAGE, message}
  {
  }

  /** Every `Error` instance has a `message` (from its prototype), so the `instanceof Error`
      branch is never reached: an `Error` is classified like any object with a message. */
  lemma ErrorInstancesTakeFirstBranch(fields: map<string, Value>)
    requires "message" !in fields || fields["message"].Str?
    ensures var e := Obj(fields, true);
            var m := Get(e, "message").s;
            UserFriendlyError(e) == Success(Classify(if m == "" then EMPTY_MESSAGE else m, Get(e, "status")))
  {
    var e := Obj(fields, true);
    assert Truthy(e) && HasProperty(e, "message");
    var mv := Get(e, "message");
    assert mv.Str?;
    var shown := if mv.s == "" then EMPTY_MESSAGE else mv.s;
    assert Or(mv, Str(EMPTY_MESSAGE)) == Str(shown);
  }

  /** In particular an `Error` without an own message gets a rule's text or 'An error
      occurred', never the 'An unexpected error occurred' of the unreachable branch. */
  lemma BareErrorMessage(fields: map<string, Value>)
    requires "message" !in fields
    ensures UserFriendlyError(Obj(fields, true)).Success?
    ensures UserFriendlyError(Obj(fields, true)).value != ERROR_INSTANCE_FALLBACK
  {
    var e := Obj(fields, true);
    ErrorInstancesTakeFirstBranch(fields);
    ClassifyRange(EMPTY_MESSAGE, Get(e, "status"));
    assert |ERROR_INSTANCE_FALLBACK| == 28;
  }

  /** A message matching none of the rules comes back unchanged. */
  lemma UnmatchedMessageUnchanged(message: string, status: Value)
    requires message != ""
    requires forall k :: 0 <= k < |RULES| ==> !Holds(RULES[k].when, message, status)
    ensures UserFriendlyError(Obj(map["message" := Str(message), "status" := status], false)) == Success(message)
  {
    var e := Obj(map["message" := Str(message), "status" := status], false);
    assert Get(e, "message") == Str(message) && Get(e, "status") == status;
    StringMessageClassified(e);
    ClassifyIsRuleTable(message, status);
    FirstMatchNone(RULES, message, status);
  }

  /** One entry of the log data after `logError`'s masking. */
  function SanitizedEntry(key: string, value: Value): Value {
    if Contains(Lower(key), "email") && value.Str? && Contains(value.s, "@")
    then Str(AnonymizeEmail(value.s))
    else value
  }

  /** The masking loop of `logError` over `Object.entries(additionalData)`, in entry order. */
  method SanitizeLogData(entries: seq<(string, Value)>) returns (sanitized: seq<(string, Value)>)
    ensures |sanitized| == |entries|
    ensures forall i :: 0 <= i < |entries| ==>
              sanitized[i] == (entries[i].0, SanitizedEntry(entries[i].0, entries[i].1))
  {
    sanitized := [];
    var i := 0;
    while i < |entries|
      invariant 0 <= i <= |entries|
      invariant |sanitized| == i
      invariant forall j :: 0 <= j < i ==> sanitized[j] == (entries[j].0, SanitizedEntry(entries[j].0, entries[j].1))
    {
      var (key, value) := entries[i];
      if Contains(Lower(key), "email") && value.Str? && Contains(value.s, "@") {
        sanitized := sanitized + [(key, Str(AnonymizeEmail(value.s)))];
      } else {
        sanitized := sanitized + [(key, value)];
      }
      i := i + 1;
    }
  }

  /** Masking touches only string values holding an `@` under a key mentioning `email`, and
      a masked value no longer shows the local part beyond two characters. */
  lemma SanitizedEntryCases(key: string, value: Value)
    ensures !(Contains(Lower(key), "email") && value.Str? && Contains(value.s, "@")) ==> SanitizedEntry(key, value) == value
    ensures Contains(Lower(key), "email") && value.Str? && '@' in value.s ==>
              var local := Before(value.s, '@');
              SanitizedEntry(key, value).Str? && local[..Min(2, |local|)] + "***@" <= SanitizedEntry(key, value).s
  {
    if value.Str? {
      ContainsCharIff(value.s, '@');
      AnonymizeEmailShape(value.s);
    }
  }
}
