# UrgeEase core, modelled in Dafny

UrgeEase helps people get through urges. It has a Next.js/React frontend and a small Python
retrieval-augmented chat backend. This project models the logic buried in those two parts
as Dafny datatypes, functions, classes and methods, and proves what the code promises about
that logic. Time, randomness, storage reads and remote results are all passed in as inputs.

Each source file in the modelled core has its own module:

- `PanicFlow` (`frontend/components/PanicFlow.tsx`). The panic-button intervention:
  - the steps sos → method → log → success;
  - the hold-to-activate gate;
  - the ten calming methods, with their counters, countdowns and completion rules;
  - the chained subtraction problems and the HALT toggle set;
  - the save, skip and close handlers.

  The
  `PanicSession` class holds the component state; its methods are the handlers.
- `Onboarding` (`frontend/lib/onboarding.ts`): the persisted onboarding state, its defaults,
  the parse fallback, the nested shallow merge and the append-only trigger log.
- `Base64` and `Encryption` (`frontend/lib/encryption.ts`): the repeating-key XOR pass over
  UTF-16 code units, base64 as in section 4 of RFC 4648, the "looks encrypted" classifier and
  the storage wrappers with their plaintext fallbacks.
- `Validation` (`frontend/lib/validation.ts`): the sanitiser and the three validators.
- `Errors`, `AuthTypes`, `TypeGuards` (`frontend/lib/errors.ts`, `types.ts`,
  `type-guards.ts`): email masking, friendly-error classification, log-data scrubbing,
  auth-error normalisation and the two guards.
- `BetaSignup` (`frontend/app/api/beta-signup/route.ts`): the fixed-window rate limiter (a
  `RateLimiter` class over the per-IP map), the client-IP header priority, the request schema
  and the status decision order of the handler.
- `CreateUser` (`frontend/app/api/create-user/route.ts`): the status decision chain.
- `MockApi` (`frontend/lib/api.ts`): the in-memory users, sessions and messages, as a
  `MockBackend` class whose methods are the API calls.
- `Store` (`frontend/lib/store.ts`): the auth, preferences and onboarding stores as classes.
- `ChatOnboarding` (`frontend/components/ChatOnboarding.tsx`): the onboarding conversation,
  as a `Conversation` class driven by typed messages and quick replies.
- `SettingsPage` (`frontend/app/settings/page.tsx`): the why-text and replacement-list
  editors with their remote-failure reverts, the delete gate and the load fallbacks.
- `AppLayout`, `AppShell`, `Dashboard` (`frontend/app/app/layout.tsx`,
  `frontend/components/app/AppShell.tsx`, `frontend/app/dashboard/page.tsx`): redirects,
  active navigation items, the chat/voice switch and the dashboard's derived counts.
- `Forms`, `SignUp`, `SignIn`, `Verify` (the three `frontend/app/auth/*/page.tsx` pages):
  the zod form schemas and the submit branches.
- `RagChain` (`backend/Rag/rag_chain.py`): the keyword crisis gate that short-circuits
  retrieval, history formatting, the context and prompt layout, the stub LLM's
  order-preserving source de-duplication and the chain's `invoke`, with the retriever and
  the LLM as parameters.

Three helper modules have no source file of their own:

- `Wrappers`: `Option` and `Result`.
- `JsText`: the JavaScript string primitives used, such as `trim`, `toLowerCase`,
  `indexOf`, `includes`, `replace` and `split`.
- `JsValue`: untyped JavaScript values, for the type tests.

Some observations about the source are stated as lemmas, not findings, because they do no
harm:

- The settings page's "revert" of an invalid edit is a no-op: the text field already stored
  the typed text (`SettingsPage` lemmas).
- Blank removal in settings restores the list only when the remote call throws. A returned
  error is ignored (`SettingsPage.BlankRemovalIgnoresReturnedError`).
- In the grounding method the current sense moves on as soon as any character is typed for
  it (`PanicFlow.GroundingTyped`). `allAnswered` counts recorded keys, even keys whose text was
  erased again (`PanicFlow.AllSensesAnswered`).
- An `Error` instance always takes the first branch of `getUserFriendlyError`, because it
  has a `message` key.
- Under `/app` the layout's `/auth` tests never decide anything (`AppLayout.AppIsNotAuth`).
- The verify page's length re-check on submit can never fire after the schema has passed.

## Model

| member | source | states |
|---|---|---|
| Base64.Btoa | frontend/lib/encryption.ts:9 | `btoa` succeeds exactly when every code unit is at most 0xFF |
| Base64.SextetRoundTrip | frontend/lib/encryption.ts:9 | decoding an alphabet character gives back its 6-bit value (RFC 4648 section 4 alphabet) |
| Base64.Sextets | frontend/lib/encryption.ts:9 | three bytes become four sextets, and a partial last group of n bytes becomes n+1 sextets |
| Base64.DecodeSextets | frontend/lib/encryption.ts:14 | decoding the sextets of a byte string gives the bytes back |
| Base64.SextetsCount | frontend/lib/encryption.ts:9 | no encoding leaves a single character in its last group of four |
| Base64.GroupRoundTrip | frontend/lib/encryption.ts:9-14 | the four sextets cut from three bytes give back each byte, also when the group is cut short |
| Base64.EncodeAlphabet | frontend/lib/encryption.ts:9 | an encoding has a length that is a multiple of four and uses only alphabet characters and `=`, and a non-empty one starts with an alphabet character |
| Base64.DropPaddingEncode | frontend/lib/encryption.ts:14 | stripping the padding of an encoding leaves exactly its alphabet characters |
| Base64.AtobBtoa | frontend/lib/encryption.ts:9-14 | `atob(btoa(s)) == s` for every string `btoa` accepts |
| Encryption.XorUnit | frontend/lib/encryption.ts:7 | with an empty key the unit is unchanged (the NaN index case) |
| Encryption.XorBound | frontend/lib/encryption.ts:7 | the XOR of two n-bit codes is an n-bit code, so each result is a UTF-16 code unit |
| Encryption.XorCancel | frontend/lib/encryption.ts:7-17 | XORing twice with the same value restores the original |
| Encryption.Xored | frontend/lib/encryption.ts:5-8 | the pass keeps the length, and unit i is `text[i] XOR key[i mod len(key)]` |
| Encryption.XoredInvolution | frontend/lib/encryption.ts:5-18 | the XOR pass applied twice with one key gives back the text |
| Encryption.XoredEmptyKey | frontend/lib/encryption.ts:7 | an empty key leaves the text as it is |
| Encryption.XorPass | frontend/lib/encryption.ts:5-8 | the accumulating loop computes exactly the XOR pass |
| Encryption.SimpleEncrypt | frontend/lib/encryption.ts:4-10 | throws exactly when some XORed unit is 256 or more (the `btoa` failure); otherwise gives base64 of the XORed text |
| Encryption.SimpleDecrypt | frontend/lib/encryption.ts:12-23 | throws exactly when `atob` rejects the input; otherwise gives a decoded text of the decoded length, XORed |
| Encryption.DecryptEncrypt | frontend/lib/encryption.ts:4-23 | decrypting an encryption under the same key gives the text back |
| Encryption.EncryptDefinedIff | frontend/lib/encryption.ts:4-9 | encryption succeeds iff every XORed code unit fits in a byte |
| Encryption.EncryptLatin1 | frontend/lib/encryption.ts:4-9 | Latin-1 text under a Latin-1 key always encrypts |
| Encryption.JsonLookingNotEncrypted | frontend/lib/encryption.ts:68-72 | text starting with `{` or `[` is never classified as encrypted |
| Encryption.EncryptedIsEncrypted | frontend/lib/encryption.ts:68-78 | every `simpleEncrypt` output is classified as encrypted |
| Encryption.DerivedKeyShape | frontend/lib/encryption.ts:31-36 | a freshly derived key is non-empty, at most 32 characters, and made of base64 characters |
| Encryption.EncryptSensitiveData | frontend/lib/encryption.ts:41-50 | gives the ciphertext, or the plaintext unchanged when the key or the codec throws |
| Encryption.DecryptSensitiveData | frontend/lib/encryption.ts:53-65 | gives the plaintext, or the input unchanged when the key or the codec throws |
| Encryption.FallbackShapes | frontend/lib/encryption.ts:41-65 | each failure path of the two wrappers returns its input unchanged |
| Encryption.ReadAfterEncryptedWrite | frontend/lib/encryption.ts:41-65 | decrypting the wrapper's ciphertext under the same key environment gives the data back |
| Encryption.StoredValue | frontend/lib/encryption.ts:86-94 | a missing or empty item gives null, an unencrypted one is returned as is, an encrypted one is decrypted |
| Encryption.LocalStorage.ReadEncryptedStorage | frontend/lib/encryption.ts:81-99 | the read is `null` off the browser and otherwise follows the stored-value rule for the item under the key |
| Encryption.LocalStorage.WriteEncryptedStorage | frontend/lib/encryption.ts:102-115 | reports true iff in the browser and the store accepts the write, and then stores the wrapper's output under the key and changes no other key |
| Encryption.WriteThenRead | frontend/lib/encryption.ts:81-115 | a non-empty value written with a working codec reads back as itself |
| Onboarding.DefaultStateShape | frontend/lib/onboarding.ts:54-72 | the default state has onboarding and the disclaimer not done, an empty why text never shown, empty lists and the environment reset not completed |
| Onboarding.Spread | frontend/lib/onboarding.ts:137-152 | a key given in the partial wins, an absent key keeps the current value |
| Onboarding.MergeEffect | frontend/lib/onboarding.ts:135-152 | given lists replace the current ones wholesale; the three nested records are merged field by field, and nested fields not given keep their values |
| Onboarding.MergeEmpty | frontend/lib/onboarding.ts:135-152 | overlaying an empty partial returns the current state unchanged |
| Onboarding.MergeIdempotent | frontend/lib/onboarding.ts:135-152 | overlaying the same partial twice gives the same state as once |
| Onboarding.MergeComplete | frontend/lib/onboarding.ts:78-95 | a partial holding every key replaces the whole state |
| Onboarding.SafeParse | frontend/lib/onboarding.ts:74-103 | null or empty text and unparseable text give the default state; otherwise the parsed partial is overlaid on the defaults |
| Onboarding.SafeParseRoundTrip | frontend/lib/onboarding.ts:74-123 | a serialised state parses back to itself |
| Onboarding.StoredText | frontend/lib/onboarding.ts:110 | the decrypted stored text when the wrapper gives a non-empty one, else the raw item |
| Onboarding.ReadOnboardingState | frontend/lib/onboarding.ts:105-116 | off the browser the default state; otherwise `safeParse` of the stored text |
| Onboarding.SaveOnboardingState | frontend/lib/onboarding.ts:118-133 | returns its argument on every path; stores the encrypted form, and writes plaintext only when the encrypted write reports failure |
| Onboarding.UpdateOnboardingState | frontend/lib/onboarding.ts:135-154 | the result is the partial overlaid on the state just read, and the storage holds it as `saveOnboardingState` leaves it: unchanged off the browser, the obfuscated text, the plain text when the obfuscated write hits the quota, unchanged when both do |
| Onboarding.WithTriggerLog | frontend/lib/onboarding.ts:158-161 | the logs become the old logs plus the entry, one longer, and every other field is unchanged |
| Onboarding.AppendIsOverlay | frontend/lib/onboarding.ts:156-163 | appending is the overlay of the extended list, and earlier entries keep their places |
| Onboarding.AppendTriggerLog | frontend/lib/onboarding.ts:156-163 | the result is the state just read with the entry appended, and the storage holds it under the same four write outcomes as `saveOnboardingState` |
| Validation.WordRun | frontend/lib/validation.ts:13 | the longest prefix of word characters (`\w+` taken greedily) |
| Validation.SpaceRun | frontend/lib/validation.ts:13 | the longest prefix of whitespace (`\s*` taken greedily) |
| Validation.ScriptEnd | frontend/lib/validation.ts:11 | the first `</script>` (any case) at or after a position, or none if there is no such position |
| Validation.MatchAt | frontend/lib/validation.ts:11-13 | a match at the head of the text is non-empty and fits in it |
| Validation.RemoveAll | frontend/lib/validation.ts:11-13 | a global `replace(…, '')` pass never lengthens the text |
| Validation.RemoveAllNoMatch | frontend/lib/validation.ts:11-13 | a pass over text where the pattern matches nowhere leaves it unchanged |
| Validation.RemoveAllSubsequence | frontend/lib/validation.ts:11-13 | a pass only deletes: its result is a subsequence of its input |
| Validation.PassesNoMatch | frontend/lib/validation.ts:10-13 | the three passes leave text with none of the patterns unchanged |
| Validation.SanitizeCleanText | frontend/lib/validation.ts:6-15 | clean text without surrounding whitespace is sanitised to itself |
| Validation.SanitizeShrinks | frontend/lib/validation.ts:6-15 | sanitising never lengthens the text, and the result has no outer whitespace |
| Validation.Sanitize | frontend/lib/validation.ts:6-15 | `sanitizeString` on a string: the three removal passes, then trimming (properties: `SanitizeCleanText`, `SanitizeShrinks`, `SinglePassLeavesScheme`) |
| Validation.SinglePassLeavesScheme | frontend/lib/validation.ts:12 | one pass is not a fixpoint: removing `javascript:` from `javajavascript:script:` reassembles `javascript:` |
| Validation.FirstIssue | frontend/lib/validation.ts:18-67 | no issue iff the length is within the inclusive bounds and no blacklisted pattern occurs, ignoring case; a length issue is reported before a blacklist issue |
| Validation.ValidateWith | frontend/lib/validation.ts:26-84 | valid iff the sanitised text passes the schema; a valid result carries the sanitised text and no error, an invalid one the first issue and no text |
| Validation.WhyDocumentRule | frontend/lib/validation.ts:18-37 | a why document is valid iff its sanitised text has 10 to 2000 characters, both inclusive, and none of the five patterns; each failure carries its own message |
| Validation.ActivityRule | frontend/lib/validation.ts:40-59 | an activity is valid iff its sanitised text has 2 to 100 characters and none of the three patterns |
| Validation.PrecursorRule | frontend/lib/validation.ts:62-85 | a blank precursor is valid with sanitised `''`; otherwise it is valid iff its sanitised text has at most 500 characters and none of the three patterns |
| Validation.ValidTextNotBlacklisted | frontend/lib/validation.ts:21-67 | the text of every valid result is free of the blacklisted patterns, even where the single pass left one behind |
| Errors.AnonymizeSplit | frontend/lib/errors.ts:11-15 | the mask is at most two characters of the text before the first `@`, then `***@`, then the next `@`-separated segment |
| Errors.AnonymizeEmailShape | frontend/lib/errors.ts:6-16 | without an `@` (or for empty input) the result is `***@***`; otherwise the local part shows `min(2, length)` characters and the domain is the segment between the first and second `@` |
| Errors.AnonymizeHidesLocal | frontend/lib/errors.ts:12-13 | no character of the local part beyond index 1 affects the result |
| Errors.AtSplit | frontend/lib/errors.ts:11-15 | an address with a single `@` keeps its domain and masks only its local part |
| Errors.FirstMatchFrom | frontend/lib/errors.ts:23-47 | the first rule that holds decides, and with none the message itself is returned |
| Errors.AnyOf2 | frontend/lib/errors.ts:23-45 | a disjunction of two tests holds iff one of them does |
| Errors.AnyOf3 | frontend/lib/errors.ts:23-43 | a disjunction of three tests holds iff one of them does |
| Errors.Rule0 | frontend/lib/errors.ts:23 | the timeout rule holds iff the message has `timeout` or `Gateway`, or the status is 504 |
| Errors.Rule1 | frontend/lib/errors.ts:27 | the registered rule holds iff the message has `User already registered` or `already exists` |
| Errors.Rule2 | frontend/lib/errors.ts:31 | the database rule holds iff the message has `Database` or `database` |
| Errors.Rule3 | frontend/lib/errors.ts:35 | the credentials rule holds iff the message has `Invalid login credentials` |
| Errors.Rule4 | frontend/lib/errors.ts:39 | the format rule holds iff the message has `Invalid` and one of `email` and `password` |
| Errors.Rule5 | frontend/lib/errors.ts:43 | the network rule holds iff the message has `network`, `Network` or `fetch` |
| Errors.FirstMatchAt | frontend/lib/errors.ts:23-45 | a rule decides when it holds and no earlier rule does |
| Errors.FirstMatchNone | frontend/lib/errors.ts:47 | with no rule holding, the table gives the message itself |
| Errors.ClassifyAt | frontend/lib/errors.ts:23-45 | when rule k is the first that holds, the `if` chain returns rule k's text |
| Errors.ClassifyCase | frontend/lib/errors.ts:23-47 | for each first-matching rule (or none), the `if` chain gives that rule's answer |
| Errors.ClassifyIsRuleTable | frontend/lib/errors.ts:23-47 | the chain of `if`s is exactly the rule table tried in order, first match wins |
| Errors.UserFriendlyErrorCases | frontend/lib/errors.ts:19-55 | a value without a `message` gives the generic text; a string message is classified, and an empty one first becomes `An error occurred` |
| Errors.UserFriendlyError | frontend/lib/errors.ts:19-55 | `getUserFriendlyError` (properties: `UserFriendlyErrorCases`, `StringMessageClassified`, `ClassifyIsRuleTable`) |
| Errors.StringMessageClassified | frontend/lib/errors.ts:20-22 | an object with a string `message` is classified by that message, an empty one replaced by `An error occurred`, with its `status` |
| Errors.ClassifyRange | frontend/lib/errors.ts:23-47 | the answer is one of the six fixed texts or the message itself |
| Errors.ErrorInstancesTakeFirstBranch | frontend/lib/errors.ts:20-52 | every `Error` has a `message` through its prototype, so it is classified like any object with that message |
| Errors.BareErrorMessage | frontend/lib/errors.ts:20-52 | an `Error` without its own message never gets the text of the `instanceof Error` branch |
| Errors.UnmatchedMessageUnchanged | frontend/lib/errors.ts:47 | a non-empty message that matches no rule comes back unchanged |
| Errors.SanitizeLogData | frontend/lib/errors.ts:61-70 | the loop keeps every entry, its key and its place, and each value becomes its masked form |
| Errors.SanitizedEntryCases | frontend/lib/errors.ts:64-68 | only string values holding an `@` under a key that mentions `email` (any case) are masked; everything else is copied unchanged |
| AuthTypes.NormalizeAuthError | frontend/lib/types.ts:146-166 | falsy input gives `Unknown authentication error`; an object with `message` keeps a string message (else `Authentication error`), a numeric `status` and a string `code`; a non-empty string is the message; anything else gives `Authentication error`; `originalError` is always the input |
| AuthTypes.NormalizeIdempotent | frontend/lib/types.ts:146-159 | normalising a normalised error again gives the same message, status and code |
| AuthTypes.TimeoutRejectionMeaning | frontend/lib/types.ts:132-144 | the timeout rejection normalises to `Request timeout`, status 504 and code `TIMEOUT`, and classifies as the server-timeout message (also `frontend/lib/errors.ts` lines 23-24) |
| TypeGuards.NonEmptyStringIff | frontend/lib/type-guards.ts:27-29 | true iff the value is a string with a character that is not whitespace |
| TypeGuards.EmailTextMatches | frontend/lib/type-guards.ts:47 | what the matcher accepts, the regular expression matches |
| TypeGuards.RegexMatchesEmailText | frontend/lib/type-guards.ts:47 | what the regular expression matches, the matcher accepts |
| TypeGuards.EmailTextIffRegex | frontend/lib/type-guards.ts:42-49 | the matcher accepts exactly the strings `^[^\s@]+@[^\s@]+\.[^\s@]+$` matches: a non-empty local part, `@`, and a domain with an inner `.` |
| TypeGuards.EmailHasOneAt | frontend/lib/type-guards.ts:47 | an accepted address holds exactly one `@` |
| TypeGuards.GuardsRejectNonStrings | frontend/lib/type-guards.ts:28-45 | neither guard accepts a value that is not a string |
| Onboarding.Activities | frontend/components/ChatOnboarding.tsx:233-237 | the saved list has one activity per name, with ids 1..n in list order and category physical (also lines 293-297) |
| Onboarding.ActivitiesUpdateEffect | frontend/components/ChatOnboarding.tsx:239-241 | overlaying a saved list replaces the activities with that list and changes nothing else (also lines 299-301) |
| Onboarding.WhyUpdateEffect | frontend/components/ChatOnboarding.tsx:275-281 | overlaying a saved why text sets the document to that text, created `now` and never shown, and changes nothing else |
| ChatOnboarding.MessageText | frontend/components/ChatOnboarding.tsx:201 | the given text when it is non-empty, otherwise the trimmed input box |
| ChatOnboarding.StepForward | frontend/components/ChatOnboarding.tsx:253-339 | each step's reply moves the step forward by at most one, keeps it one of the four, and loses no message, profile write, saved update or collected activity |
| ChatOnboarding.ChallengeForward | frontend/components/ChatOnboarding.tsx:257-262 | the challenge reply moves forward |
| ChatOnboarding.WhyForward | frontend/components/ChatOnboarding.tsx:264-284 | the why reply moves forward |
| ChatOnboarding.ActivityForward | frontend/components/ChatOnboarding.tsx:286-305 | the replacement reply moves forward |
| ChatOnboarding.EnvironmentForward | frontend/components/ChatOnboarding.tsx:307-324 | the environment reply moves forward |
| ChatOnboarding.ChallengeAdvances | frontend/components/ChatOnboarding.tsx:257-262 | the challenge step always moves to the why step and records the answer (also lines 367-372) |
| ChatOnboarding.WhyGate | frontend/components/ChatOnboarding.tsx:264-284 | the why step advances iff `validateWhyDocument` accepts; then the sanitised text is kept and saved; otherwise only the validation error is posted (also lines 374-394) |
| ChatOnboarding.ReplacementGate | frontend/components/ChatOnboarding.tsx:286-305 | the reply is appended (sanitised on the quick-reply path, as typed otherwise); the step moves on iff the list reaches five, and then the list is saved; an invalid quick reply changes no list (also lines 396-422) |
| ChatOnboarding.TypedActivity | frontend/components/ChatOnboarding.tsx:286-305 | a typed activity is appended without validation, and the step becomes 3 iff the list reaches five |
| ChatOnboarding.SendActivity | frontend/components/ChatOnboarding.tsx:200-210 | sending a non-empty activity at the replacement step appends it as typed (also lines 286-305) |
| ChatOnboarding.FiveStep | frontend/components/ChatOnboarding.tsx:286-305 | a typed activity at the replacement step is appended, and the step moves to the environment once enough are collected |
| ChatOnboarding.EnvironmentEnds | frontend/components/ChatOnboarding.tsx:307-339 | the environment step always finishes the conversation, records the reply and saves the reset as the reply says |
| ChatOnboarding.EnvironmentUpdateEffect | frontend/components/ChatOnboarding.tsx:309-321 | the final overlay marks onboarding completed at `now` and sets the reset to done iff the reply contains `yes` or `i have`, with a date only when done; other fields are unchanged |
| ChatOnboarding.ReplacementForward | frontend/components/ChatOnboarding.tsx:213-245 | the replacement-prompts reply keeps the mode and step, adds a bubble and loses nothing |
| ChatOnboarding.SendPosts | frontend/components/ChatOnboarding.tsx:200-211 | a blank message changes nothing; any other is posted as the user's bubble, the box is cleared, and the conversation moves forward |
| ChatOnboarding.SendPosted | frontend/components/ChatOnboarding.tsx:200-211 | a non-blank message is posted with the box cleared, then answered by the mode's reply |
| ChatOnboarding.ReplacementKeepsStep | frontend/components/ChatOnboarding.tsx:213-245 | the replacement-prompts reply never changes the step or the mode |
| ChatOnboarding.QuickReplyCases | frontend/components/ChatOnboarding.tsx:342-458 | a non-blank quick reply is sent as typed text in replacement mode, and otherwise posted without clearing the box and answered with validation |
| ChatOnboarding.ReplacementModeCases | frontend/components/ChatOnboarding.tsx:214-231 | a done word ends the session without adding; invalid text adds nothing and saves nothing; valid text is appended sanitised and the list saved |
| ChatOnboarding.ForwardOnly | frontend/components/ChatOnboarding.tsx:253-339 | over any run of typed messages the step never moves back, stays one of the four, and the mode is kept |
| ChatOnboarding.SendAll | frontend/components/ChatOnboarding.tsx:200-339 | a run of typed messages sent one after another (its properties are `ForwardOnly` and `FiveActivities`) |
| ChatOnboarding.FiveActivities | frontend/components/ChatOnboarding.tsx:286-305 | typed activities up to five are all collected, as typed, and the step moves on exactly with the fifth |
| ChatOnboarding.ActivityNoun | frontend/components/ChatOnboarding.tsx:142 | `activity` for one and `activities` otherwise (also lines 244) |
| ChatOnboarding.FollowUpMisspelt | frontend/components/ChatOnboarding.tsx:142 | the follow-up as written says `activityies` for every count but one |
| ChatOnboarding.ActivityNounAsWritten | frontend/components/ChatOnboarding.tsx:142 | `activity` followed by `ies` unless the count is one, as the follow-up builds it |
| ChatOnboarding.FollowUpText | frontend/components/ChatOnboarding.tsx:142 | the follow-up bubble as the component posts it, with the as-written noun |
| ChatOnboarding.FollowUpIntended | frontend/components/ChatOnboarding.tsx:142 | the follow-up bubble with the intended noun |
| ChatOnboarding.FollowUpShown | frontend/components/ChatOnboarding.tsx:142 | the posted follow-up equals the intended one for one activity, and for any other count is one character longer and so differs |
| ChatOnboarding.SavedText | frontend/components/ChatOnboarding.tsx:244 | the saved-activity reply, which uses the intended noun |
| ChatOnboarding.Words | frontend/components/ChatOnboarding.tsx:142-333 | the text of each bubble as the component words it, a rejection showing the validator's error or the step's fallback |
| ChatOnboarding.Conversation.constructor | frontend/components/ChatOnboarding.tsx:112-168 | the first question in onboarding mode; in replacement mode the welcome, followed by the follow-up bubble (worded as written, see `FollowUpText`) when the user already has activities, which are loaded |
| ChatOnboarding.Conversation.SetInput | frontend/components/ChatOnboarding.tsx:69 | typing changes only the input box |
| ChatOnboarding.Conversation.SendMessage | frontend/components/ChatOnboarding.tsx:200-340 | the new state is the send of the resolved message text, and the step invariant is kept |
| ChatOnboarding.Conversation.SendText | frontend/components/ChatOnboarding.tsx:200-211 | the new state is the send of the text, and the step invariant is kept |
| ChatOnboarding.Conversation.QuickReplyClick | frontend/components/ChatOnboarding.tsx:342-458 | the new state is the quick reply of the trimmed reply: forwarded to the send in replacement mode, and otherwise posted without clearing the box and answered with validation |
| ChatOnboarding.Conversation.PostQuickReply | frontend/components/ChatOnboarding.tsx:349-458 | outside the replacement mode the reply is appended as a user message without clearing the box, the invariant is kept and the new state is the validated step reply |
| ChatOnboarding.Conversation.ReplacementTurn | frontend/components/ChatOnboarding.tsx:213-245 | the new state is the replacement-prompts reply |
| ChatOnboarding.Conversation.ReplacementOutcome | frontend/components/ChatOnboarding.tsx:222-245 | the new state follows the validation result: the error, or the sanitised activity appended and saved |
| ChatOnboarding.Conversation.StepTurn | frontend/components/ChatOnboarding.tsx:248-325 | the new state is the step reply |
| ChatOnboarding.Conversation.Conclude | frontend/components/ChatOnboarding.tsx:327-339 | posts the response, then the next question and the new step, or finishes |
| ChatOnboarding.Conversation.ChallengeTurn | frontend/components/ChatOnboarding.tsx:257-262 | the new state is the challenge reply |
| ChatOnboarding.Conversation.WhyTurn | frontend/components/ChatOnboarding.tsx:264-284 | the new state is the why reply |
| ChatOnboarding.Conversation.WhyOutcome | frontend/components/ChatOnboarding.tsx:265-284 | the new state follows the validation result of the why text |
| ChatOnboarding.Conversation.ActivityTurn | frontend/components/ChatOnboarding.tsx:286-305 | the new state is the replacement reply |
| ChatOnboarding.Conversation.ActivityOutcome | frontend/components/ChatOnboarding.tsx:287-305 | the new state follows the validation result on the quick-reply path and ignores it on the typed path (also lines 397-421) |
| ChatOnboarding.Conversation.EnvironmentTurn | frontend/components/ChatOnboarding.tsx:307-324 | the new state is the environment reply |
| Store.AuthStore.constructor | frontend/lib/store.ts:29-30 | the store starts with no token and no user |
| Store.AuthStore.Login | frontend/lib/store.ts:31-33 | `login` sets both the token and the user |
| Store.AuthStore.Logout | frontend/lib/store.ts:34-36 | `logout` sets both to null |
| Store.PreferencesStore.constructor | frontend/lib/store.ts:47-51 | the default preferences are chat, calm and system |
| Store.PreferencesStore.SetTheme | frontend/lib/store.ts:52-55 | only the theme changes |
| Store.PreferencesStore.SetPreferredMode | frontend/lib/store.ts:56-59 | only the preferred mode changes |
| Store.PreferencesStore.SetTone | frontend/lib/store.ts:60-63 | only the tone changes |
| Store.SetAll | frontend/lib/store.ts:52-63 | the three setters in turn give exactly the three chosen values, whatever came before |
| Store.OnboardingStore.constructor | frontend/lib/store.ts:74-76 | onboarding starts not completed |
| Store.OnboardingStore.CompleteOnboarding | frontend/lib/store.ts:77-84 | completed, with exactly the given mode and tone |
| BetaSignup.Unexpired | frontend/app/api/beta-signup/route.ts:25-33 | keeps exactly the records with `now <= resetTime`, with their values |
| BetaSignup.Admit | frontend/app/api/beta-signup/route.ts:43-53 | a new or expired window restarts at count 1 ending at `now + 60000`, allowed with 4 remaining; inside a window, allowed iff the count is below 5, counting the request and reporting `5 - count`; a refusal changes nothing and reports 0 |
| BetaSignup.CleanupKeepsVerdict | frontend/app/api/beta-signup/route.ts:37-43 | cleaning up first changes neither the verdict nor the asking address's record |
| BetaSignup.WindowBudget | frontend/app/api/beta-signup/route.ts:43-53 | inside one window with c requests counted, a run of n more gets exactly `min(n, 5 - c)` allowed; a request at exactly `resetTime` is still inside |
| BetaSignup.AtMostFivePerWindow | frontend/app/api/beta-signup/route.ts:18-53 | a request that opens a window followed by any number inside it gets at most five allowed in all |
| BetaSignup.RateLimiter.constructor | frontend/app/api/beta-signup/route.ts:18-21 | the limiter starts with no records and a zero request count |
| BetaSignup.RateLimiter.CleanupExpiredEntries | frontend/app/api/beta-signup/route.ts:25-33 | the collect-then-delete loops leave exactly the unexpired records and keep the counter |
| BetaSignup.RateLimiter.CheckRateLimit | frontend/app/api/beta-signup/route.ts:35-54 | counts the request, cleans up on every hundredth request or above 1000 records, then admits as the window rule says; counts stay between 1 and 5 |
| BetaSignup.ClientIpPriority | frontend/app/api/beta-signup/route.ts:56-66 | the first non-empty header of `x-vercel-forwarded-for`, `x-forwarded-for`, `x-real-ip` wins; a forwarding list gives its first entry trimmed, or `unknown` when that is empty; the result is never empty |
| BetaSignup.ParseSignup | frontend/app/api/beta-signup/route.ts:6-15 | a parsed body had an email of 1 to 254 characters that passes the address check, and holds it trimmed and lower-cased only after those checks; a given timestamp is positive |
| BetaSignup.DigitRun | frontend/app/api/beta-signup/route.ts:86 | the longest prefix of decimal digits |
| BetaSignup.ParseIntNumeral | frontend/app/api/beta-signup/route.ts:86 | `parseInt` reads a numeral as its value and ignores non-digit text after it |
| BetaSignup.LimiterFirst | frontend/app/api/beta-signup/route.ts:72-84 | the response is 429 iff the limiter refused, whatever the request carries |
| BetaSignup.BadBodyRefused | frontend/app/api/beta-signup/route.ts:92-108 | a body that is not JSON or fails the schema gets 400 and nothing is inserted |
| BetaSignup.BotsLookListed | frontend/app/api/beta-signup/route.ts:110-128 | a filled honeypot or a timestamp below 1000 gets 201 without an insert |
| BetaSignup.InsertOutcome | frontend/app/api/beta-signup/route.ts:139-166 | an insert that succeeds gives 201, error code 23505 gives 200, and any other error gives 500 |
| BetaSignup.OversizeRefused | frontend/app/api/beta-signup/route.ts:85-91 | a declared content length above 1024 gets 413 once the limiter has allowed the request |
| BetaSignup.Post | frontend/app/api/beta-signup/route.ts:68-174 | takes the client address, passes through the limiter (changing its state as the limiter does), returns the decided response, and inserts the parsed email only past the limiter and the size check |
| BetaSignup.Decide | frontend/app/api/beta-signup/route.ts:72-166 | the response once the limiter has decided: 429, 413, 400, the bot answer, or the insert outcome (properties: `LimiterFirst`, `OversizeRefused`, `BadBodyRefused`, `BotsLookListed`, `InsertOutcome`) |
| CreateUser.Post | frontend/app/api/create-user/route.ts:6-62 | a body that is not JSON gets 400; status 201 exactly when a row reaches the insert and the insert succeeds; a row that reaches the insert yields 201, 200 for error code 23505, else 500; every status is 200, 201, 400 or 500 |
| CreateUser.FieldChecks | frontend/app/api/create-user/route.ts:18-31 | a missing `userId` or `email` is reported before a malformed email, and a 400 never reaches the insert |
| CreateUser.InsertedRowShape | frontend/app/api/create-user/route.ts:20-42 | a row that reaches the insert has a truthy id and an email containing `@` |
| AppLayout.AppIsNotAuth | frontend/app/app/layout.tsx:18-31 | no path under `/app` is under `/auth`, so the `/auth` tests never change the outcome |
| AppLayout.OutsideApp | frontend/app/app/layout.tsx:15-32 | outside `/app` there is no redirect and no shell |
| AppLayout.InsideApp | frontend/app/app/layout.tsx:14-35 | under `/app`: no token sends to sign-in; a token without completed onboarding sends to onboarding iff the page is not the onboarding page; otherwise the page stays; the shell is drawn iff there is a token |
| AppLayout.ShellAgreesWithRedirect | frontend/app/app/layout.tsx:14-35 | under `/app` the shell is drawn exactly when the page is not sent to sign-in |
| AppShell.HomeActive | frontend/components/app/AppShell.tsx:27-28 | Home is highlighted on `/app/home` and `/app` and nowhere else |
| AppShell.OtherActive | frontend/components/app/AppShell.tsx:27-29 | any other item is highlighted iff its href is a prefix of the path |
| AppShell.ChatIsNotSessions | frontend/components/app/AppShell.tsx:21-29 | no chat-session path highlights the Sessions item |
| AppShell.SwitchShown | frontend/components/app/AppShell.tsx:200 | the switch bar appears iff the path holds the chat or the voice session page |
| AppShell.IndexOfAt | frontend/components/app/AppShell.tsx:211-223 | `replace` acts at the first occurrence: `indexOf` is k when the text occurs at k and nowhere before |
| AppShell.FirstChat | frontend/components/app/AppShell.tsx:211 | on a chat-session path the first `/chat` is at position 12 |
| AppShell.FirstVoice | frontend/components/app/AppShell.tsx:223 | on a voice-session path the first `/voice` is at position 12 |
| AppShell.ChatToVoice | frontend/components/app/AppShell.tsx:209-220 | from the chat page of a session the link goes to the voice page of the same session |
| AppShell.VoiceToChat | frontend/components/app/AppShell.tsx:221-233 | from a voice page that holds no chat page the link goes to the chat page of the same session |
| AppShell.VoicePageHasNoChat | frontend/components/app/AppShell.tsx:209 | the voice page does not contain the chat page, so it takes the Switch to Chat branch |
| AppShell.SwitchRoundTrip | frontend/components/app/AppShell.tsx:209-233 | following the switch link twice from a chat page returns to it |
| AppShell.ChatPageRoundTrip | frontend/components/app/AppShell.tsx:209-233 | on the bare session pages the two links are inverse |
| AppShell.BottomBar | frontend/components/app/AppShell.tsx:250 | the bottom bar holds the first four items in order and leaves Settings out |
| Dashboard.DaysSince | frontend/app/dashboard/page.tsx:37-48 | zero without a state, a completion date, or a date that parses; a positive count is the number of whole days between the date and now |
| Dashboard.DaysSinceWhole | frontend/app/dashboard/page.tsx:42-43 | for a date not in the future the count is the whole days elapsed: `d * day <= now - t < (d + 1) * day` |
| Dashboard.DaysSinceFuture | frontend/app/dashboard/page.tsx:43 | a date after now counts as day zero |
| Dashboard.PanicUses | frontend/app/dashboard/page.tsx:50 | the number of trigger logs, zero without a state |
| Dashboard.LastThree | frontend/app/dashboard/page.tsx:54-78 | `slice(-3)`: the last `min(3, n)` entries, in order |
| Dashboard.LastThreeSuffix | frontend/app/dashboard/page.tsx:54-78 | the last three are a suffix of the logs, and a newly appended log is the last of them |
| Dashboard.Insights | frontend/app/dashboard/page.tsx:52-74 | one card per recent log, in order, with its intensity, emotion and time of day |
| Dashboard.RecentActivity | frontend/app/dashboard/page.tsx:76-83 | the last three logs, none without a state |
| Dashboard.Counted | frontend/app/dashboard/page.tsx:254-256 | the number and the noun, with an `s` exactly when the number is not one |
| Dashboard.UsageLines | frontend/app/dashboard/page.tsx:252-257 | no lines iff the day count is zero; otherwise the days line, and the panic line iff the panic button was used |
| Dashboard.PanicFromChatThenClose | frontend/app/dashboard/page.tsx:25-35 | the chat's panic button closes the chat and opens the panic flow, hiding the body and keeping the state; closing the flow shows the body with the state just read (also lines 101-123) |
| Dashboard.CountsAfterPanic | frontend/app/dashboard/page.tsx:25-50 | nothing is re-read while the panic flow is open, and after closing the panic count comes from the read made then |
| Forms.FirstMessage | frontend/app/auth/sign-up/page.tsx:86-132 | a field shows nothing iff no issue is on its path, and otherwise the message of the first issue on it |
| Forms.FirstMessageAt | frontend/app/auth/sign-up/page.tsx:86-132 | the field shows the message of issue i when issue i is on its path and no earlier one is |
| Forms.PasswordIssues | frontend/app/auth/sign-up/page.tsx:21 | no issue iff the password has at least six characters, else the one "at least 6 characters" issue |
| Forms.EmailIssues | frontend/app/auth/sign-up/page.tsx:20 | no issue iff the address check accepts the email, else the one "valid email" issue |
| Forms.TextOr | frontend/app/auth/sign-up/page.tsx:57 | `result.error \|\| fallback`: the error when it is non-empty, the fallback otherwise |
| SignUp.NameIssues | frontend/app/auth/sign-up/page.tsx:16-19 | no issue iff the name has 1 to 50 characters; at most one issue, on `name` |
| SignUp.IssuesEmpty | frontend/app/auth/sign-up/page.tsx:14-27 | the form is valid iff the name has 1 to 50 characters, the email passes, the password has at least six characters and the confirmation equals it |
| SignUp.IssuePath | frontend/app/auth/sign-up/page.tsx:14-27 | with a differing confirmation, the mismatch is the only issue on `confirmPassword` and comes after the password's, and an issue is on `password` iff the password is short and it sits right after the name's and address's issues |
| SignUp.MismatchOnConfirmation | frontend/app/auth/sign-up/page.tsx:21-27 | a differing confirmation shows "Passwords do not match" on its field even when the password itself is too short, which is reported on the password field |
| SignUp.SpaceIsAName | frontend/app/auth/sign-up/page.tsx:16-18 | the name is not trimmed: a single space passes |
| SignUp.Submit | frontend/app/auth/sign-up/page.tsx:49-63 | an invalid form is not sent; a failed sign-up sets the root error (the backend's text or the fallback); success goes to the verification page with the encoded address, and only then |
| SignUp.SubmitToBackend | frontend/app/auth/sign-up/page.tsx:49-63 | against the mock backend: an invalid form changes nothing; a registered address stays with "Email already registered"; a new address adds one user and goes to verification |
| SignIn.IssuesEmpty | frontend/app/auth/sign-in/page.tsx:16-19 | the form is valid iff the email passes and the password has at least six characters |
| SignIn.Mount | frontend/app/auth/sign-in/page.tsx:43-56 | a truthy `email` query replaces the field, a truthy `message` query becomes the root error, and a truthy token redirects home |
| SignIn.Submit | frontend/app/auth/sign-in/page.tsx:58-68 | an invalid form is not sent; the user is logged in and sent home iff the response is ok with a token and a user; otherwise the root error is the backend's text or the fallback |
| SignIn.SubmitToStore | frontend/app/auth/sign-in/page.tsx:58-68 | the store receives the token and user exactly on a login and is untouched otherwise |
| SignIn.AgainstBackend | frontend/app/auth/sign-in/page.tsx:58-68 | against the mock backend a valid form logs in iff the address is registered, whatever the password |
| Verify.Issues | frontend/app/auth/verify/page.tsx:14-19 | no issue iff the code has exactly six characters; all issues are on `code` |
| Verify.ShownCodeError | frontend/app/auth/verify/page.tsx:14-19 | an empty code shows the required message, any other wrong length the six-digit message, six characters nothing (also lines 105-107) |
| Verify.Digits | frontend/app/auth/verify/page.tsx:84-86 | the digit filter keeps only digits, and keeps an all-digit input whole |
| Verify.CodeInput | frontend/app/auth/verify/page.tsx:84-89 | the field holds at most six characters, all digits, a prefix of the digits typed |
| Verify.CodeInputStable | frontend/app/auth/verify/page.tsx:84-89 | filtering twice changes nothing, and six typed digits survive as they are |
| Verify.DigitsAppend | frontend/app/auth/verify/page.tsx:84-86 | the filter distributes over concatenation, so typing appends only the new digits |
| Verify.Mount | frontend/app/auth/verify/page.tsx:26-44 | without an `email` query (or with an empty one) the page redirects to sign-up |
| Verify.Submit | frontend/app/auth/verify/page.tsx:46-64 | a wrong-length code is not sent; the user is logged in and sent to onboarding iff the code has six characters and the response has a token and a user; otherwise the code error is the backend's text or the fallback |
| Verify.SubmitToStore | frontend/app/auth/verify/page.tsx:46-64 | the store receives the token and user exactly on a login and is untouched otherwise |
| Verify.DemoCodeVerifies | frontend/app/auth/verify/page.tsx:46-99 | the demo code verifies any registered address against the mock backend |
| MockApi.FindUser | frontend/lib/api.ts:45-85 | `find` by email: present iff some user has the email, and then a stored user with that email |
| MockApi.OfSession | frontend/lib/api.ts:133-171 | the `filter` by session id: exactly the stored messages of that session |
| MockApi.OfSessionAppend | frontend/lib/api.ts:133-171 | filtering distributes over appended messages |
| MockApi.Insert | frontend/lib/api.ts:133-135 | one insertion step of the stable sort adds one element |
| MockApi.SortByTime | frontend/lib/api.ts:133-135 | the sort keeps the length |
| MockApi.InsertMultiset | frontend/lib/api.ts:133-135 | an insertion adds exactly the inserted message |
| MockApi.SortByTimeMultiset | frontend/lib/api.ts:133-135 | the sort is a permutation |
| MockApi.InsertSorted | frontend/lib/api.ts:133-135 | inserting into a time-ordered list keeps it ordered |
| MockApi.SortByTimeSorted | frontend/lib/api.ts:133-135 | the sort's result is in ascending `createdAt` |
| MockApi.AtTimeAppend | frontend/lib/api.ts:133-135 | the messages of one time in a concatenation are those of each part, in order |
| MockApi.InsertAtTime | frontend/lib/api.ts:133-135 | an inserted message goes after all messages already there with its time |
| MockApi.InsertFirstAtTime | frontend/lib/api.ts:133-135 | the case of an insertion in front of a later head |
| MockApi.InsertLaterAtTime | frontend/lib/api.ts:133-135 | the case of an insertion past the head |
| MockApi.NoneAtTime | frontend/lib/api.ts:133-135 | a list whose times are all later holds nothing at an earlier time |
| MockApi.SortByTimeStable | frontend/lib/api.ts:133-135 | the sort is stable: messages sharing a time keep their stored order |
| MockApi.SessionMessagesMeaning | frontend/lib/api.ts:130-136 | `getSessionMessages` returns exactly the session's messages, each as often as stored, in ascending time, ties in stored order |
| MockApi.Completed | frontend/lib/api.ts:187 | the count of sessions with messages is at most the number of sessions |
| MockApi.Results | frontend/lib/api.ts:184-212 | `sessionsCompleted` counts the sessions with messages; unlocked iff that is at least three; the addictions are empty iff locked |
| MockApi.CompletedUpdate | frontend/lib/api.ts:171-187 | a session getting its first messages adds one to the completed count |
| MockApi.CompletedUnchanged | frontend/lib/api.ts:171-187 | an update keeping a session's emptiness keeps the completed count |
| MockApi.FindSession | frontend/lib/api.ts:169 | the first session with the id, or none when no session has it |
| MockApi.MockBackend.constructor | frontend/lib/api.ts:16-30 | empty storage reads as no users, sessions, messages or codes |
| MockApi.MockBackend.SignUp | frontend/lib/api.ts:41-63 | a registered email is refused with "Email already registered" and nothing changes; otherwise exactly one user is appended, the verification code is stored, and emails stay unique |
| MockApi.MockBackend.VerifyEmail | frontend/lib/api.ts:65-80 | ok iff the code is `123456` or the stored one and the user exists; then the token and that user; otherwise "Invalid verification code" before "User not found" |
| MockApi.MockBackend.SignIn | frontend/lib/api.ts:82-92 | ok iff some user has the email, with that user and the token; the password plays no part |
| MockApi.MockBackend.CreateSession | frontend/lib/api.ts:107-123 | appends exactly one session with `messageCount` 0 and changes nothing else |
| MockApi.MockBackend.SendMessage | frontend/lib/api.ts:138-183 | appends the user message then the assistant reply; the session, when found, gets the count of its messages and the time; a raised crisis flag means the lower-cased text holds `hurt` |
| MockApi.MockBackend.DeleteAccount | frontend/lib/api.ts:307-318 | removes sessions, messages and the account's storage keys, and never the users list |
| MockApi.SignUpTwice | frontend/lib/api.ts:45-57 | registering a new email keeps emails unique and makes it findable, so a second sign-up with it is refused |
| MockApi.FindUserAppend | frontend/lib/api.ts:45-56 | an appended user with a new email is the one found |
| MockApi.SendMessageCompletes | frontend/lib/api.ts:151-187 | after a message the session's count is two more than before, and an empty session starts counting as completed |
| PanicFlow.MethodsEnumerated | frontend/components/PanicFlow.tsx:20-43 | ten methods, each listed once under a distinct name |
| PanicFlow.PressProgress | frontend/components/PanicFlow.tsx:133-135 | the hold progress is `elapsed / 20` percent below 2000 ms and exactly 100 from then on, never above 100 |
| PanicFlow.Tick | frontend/components/PanicFlow.tsx:197-202 | one second of a countdown: down by one above 1, else 0, never negative (also lines 226-231, 255-260) |
| PanicFlow.TicksFormula | frontend/components/PanicFlow.tsx:190-275 | n seconds from v leave `max(v - n, 0)`: the countdown reaches 0 after v seconds and stays there |
| PanicFlow.ShortNumeral | frontend/components/PanicFlow.tsx:642-658 | a seconds value below 100 prints in at most two digits |
| PanicFlow.PaddedValue | frontend/components/PanicFlow.tsx:658 | zero-padding to two places keeps the number the text reads as |
| PanicFlow.ClockTextReads | frontend/components/PanicFlow.tsx:641-658 | the contract clock reads back as `t div 60` minutes and exactly two digits of `t mod 60` seconds |
| PanicFlow.MathProblems | frontend/components/PanicFlow.tsx:169-177 | as many problems as the exercise asks for |
| PanicFlow.MathChain | frontend/components/PanicFlow.tsx:169-177 | every problem is a correct subtraction of the fixed value, the first starts at the start value, and each starts from the previous answer |
| PanicFlow.GenerateMathProblems | frontend/components/PanicFlow.tsx:169-177 | the generating loop produces exactly the problem chain |
| PanicFlow.CurrentMathIndex | frontend/components/PanicFlow.tsx:588 | the first problem not answered correctly, or -1 iff all are |
| PanicFlow.MathCompletion | frontend/components/PanicFlow.tsx:587-588 | math is complete iff there are problems and the current index is -1 |
| PanicFlow.NoProblemsNoCompletion | frontend/components/PanicFlow.tsx:587 | with no problems, math never completes |
| PanicFlow.TypedAnswers | frontend/components/PanicFlow.tsx:603 | typing each problem's answer as decimal text, in order |
| PanicFlow.MathCompletable | frontend/components/PanicFlow.tsx:587-603 | a generated chain is completed by typing its answers |
| PanicFlow.CurrentSense | frontend/components/PanicFlow.tsx:506-513 | the first sense, in the order 5 to 1, without a non-empty answer, else the last sense |
| PanicFlow.GroundingTyped | frontend/components/PanicFlow.tsx:529 | typing records the text on the current sense and changes no other answer |
| PanicFlow.GroundingCompletes | frontend/components/PanicFlow.tsx:513-529 | answering the five senses in turn with text records five keys, which completes a five-sense exercise |
| PanicFlow.SenseStep | frontend/components/PanicFlow.tsx:513-529 | with the first k senses answered and nothing else recorded, typing answers sense k, so the first k+1 senses are the recorded keys |
| PanicFlow.AskedCount | frontend/components/PanicFlow.tsx:513-514 | the five senses are distinct, so the first k of them are k keys |
| PanicFlow.WordLength | frontend/components/PanicFlow.tsx:812 | the length of the leading run of non-whitespace |
| PanicFlow.Words | frontend/components/PanicFlow.tsx:812 | `split(/\s+/)` without empty pieces: words that are non-empty and hold no whitespace |
| PanicFlow.WordLengthBefore | frontend/components/PanicFlow.tsx:812 | a leading word stops at the first whitespace |
| PanicFlow.WordsAppend | frontend/components/PanicFlow.tsx:812-816 | whitespace separates words: the words of `a`, a space, `b` are the words of `a` then those of `b` |
| PanicFlow.NoWordsInWhitespace | frontend/components/PanicFlow.tsx:812-816 | whitespace alone holds no word |
| PanicFlow.EnvironmentPhrase | frontend/components/PanicFlow.tsx:882-884 | "i am here" in any letter case confirms; the field shows a confirmed phrase and an empty field is not confirmed |
| PanicFlow.Without | frontend/components/PanicFlow.tsx:937 | `filter(h => h !== item)`: the item is gone and every other item keeps its membership |
| PanicFlow.WithoutAbsent | frontend/components/PanicFlow.tsx:937 | filtering out an absent item changes nothing |
| PanicFlow.WithoutKeepsDistinct | frontend/components/PanicFlow.tsx:937 | filtering keeps a list free of duplicates |
| PanicFlow.ToggleHaltEffect | frontend/components/PanicFlow.tsx:935-939 | a HALT toggle flips the item's membership, leaves the others, keeps the list duplicate-free, and toggling twice restores it |
| PanicFlow.WithoutAppend | frontend/components/PanicFlow.tsx:935-939 | removing a just-appended new item gives the list back |
| PanicFlow.HaltNames | frontend/components/PanicFlow.tsx:284 | the names of the HALT items, in order |
| PanicFlow.JoinNonEmpty | frontend/components/PanicFlow.tsx:284 | a join starting with a non-empty part is non-empty, so the `Unknown` fallback applies only with no item |
| PanicFlow.LogEntryMeaning | frontend/components/PanicFlow.tsx:281-294 | the logged emotion is the HALT items joined by `, ` or `Unknown`; what helped is the method or `Unknown method`; the notes and the precursor are the typed text |
| PanicFlow.ResetMethodStates | frontend/components/PanicFlow.tsx:114-125 | every counter, countdown, answer and text starts over from the exercise values; the math problems stay |
| PanicFlow.ChosenMethod | frontend/components/PanicFlow.tsx:103 | a draw in `[0, 1)` picks one of the ten methods |
| PanicFlow.PanicSession.constructor | frontend/components/PanicFlow.tsx:64-96 | the initial state: `sos`, no method, no press, the initial counters and the default log form |
| PanicFlow.PanicSession.Open | frontend/components/PanicFlow.tsx:98-113 | opening returns to `sos`, picks the drawn method, resets the method states and the log form |
| PanicFlow.PanicSession.Closed | frontend/components/PanicFlow.tsx:66-71 | closing hides the re-engagement prompt and changes nothing else |
| PanicFlow.PanicSession.PressStart | frontend/components/PanicFlow.tsx:126-145 | a press starts at `now` with progress 0 and the sampler running |
| PanicFlow.PanicSession.PressEnd | frontend/components/PanicFlow.tsx:147-156 | a release stops the sampler, forgets the start and resets the progress |
| PanicFlow.PanicSession.InitializeMethod | frontend/components/PanicFlow.tsx:165-189 | no selection changes nothing; math gets its problems; the contract, the surfing and the cold-water countdowns restart; other methods change nothing |
| PanicFlow.PanicSession.Activate | frontend/components/PanicFlow.tsx:158-162 | activation moves to the method step, resets the method states and initialises the selected method |
| PanicFlow.PanicSession.ActivateAsWritten | frontend/components/PanicFlow.tsx:126-162 | activation through the memoised press handler: the method step and reset states, but no method initialisation |
| PanicFlow.PanicSession.PressSample | frontend/components/PanicFlow.tsx:131-141 | a sample with no press changes nothing; otherwise the progress is set, and after 2000 ms the sampler stops and the method is activated |
| PanicFlow.PanicSession.PressSampleAsWritten | frontend/components/PanicFlow.tsx:126-145 | the same sample as the memoised handler runs it, activating without initialisation |
| PanicFlow.PanicSession.SecondTick | frontend/components/PanicFlow.tsx:190-275 | one second ticks exactly the countdown of the selected method, and only on the method step |
| PanicFlow.PanicSession.Continue | frontend/components/PanicFlow.tsx:277-279 | a Continue press, allowed only when the method offers it, moves to the log step |
| PanicFlow.PanicSession.BreathClick | frontend/components/PanicFlow.tsx:450-454 | a breath adds one, and the click made at `TOTAL_BREATHS - 1` or later moves to the log step |
| PanicFlow.PanicSession.RepClick | frontend/components/PanicFlow.tsx:763-767 | a rep adds one, and the twentieth moves to the log step |
| PanicFlow.PanicSession.SurfingTap | frontend/components/PanicFlow.tsx:712 | a tap adds one to the surfing taps and nothing else |
| PanicFlow.PanicSession.GroundingInput | frontend/components/PanicFlow.tsx:529 | typing records the text on the current sense |
| PanicFlow.PanicSession.MathInput | frontend/components/PanicFlow.tsx:588-603 | typing records the text on the first unanswered problem |
| PanicFlow.PanicSession.VisualizationInput | frontend/components/PanicFlow.tsx:798 | the visualisation text becomes what was typed |
| PanicFlow.PanicSession.EnvironmentInput | frontend/components/PanicFlow.tsx:884 | the confirmation flag becomes whether the typed value is the phrase |
| PanicFlow.PanicSession.ToggleHaltItem | frontend/components/PanicFlow.tsx:935-939 | the HALT list is toggled for the item |
| PanicFlow.PanicSession.EditLog | frontend/components/PanicFlow.tsx:962-968 | the intensity, taken from the slider's range of 1 to 10, the location, precursor and outcome fields take the edited values and nothing else changes (also lines 978, 1001, 1019, 1035) |
| PanicFlow.PanicSession.LogSubmit | frontend/components/PanicFlow.tsx:281-300 | exactly one entry is saved and the flow moves to success, whether or not the save throws; the saved entry's intensity lies in 1 to 10, and every saved entry's stays there (the invariant) |
| PanicFlow.PanicSession.SkipLog | frontend/components/PanicFlow.tsx:302-304 | skipping moves to success and saves nothing |
| PanicFlow.PanicSession.SuccessClose | frontend/components/PanicFlow.tsx:306-313 | back to `sos` with fresh method states; the re-engagement flag is set iff the user id is truthy, and otherwise kept |
| PanicFlow.MathFlowAsWritten | frontend/components/PanicFlow.tsx:126-189 | as written: opening on math and holding 2000 ms leaves no problems, so math never offers Continue (also lines 587) |
| PanicFlow.MathFlow | frontend/components/PanicFlow.tsx:126-189 | with activation reading the selected method, the problems are generated and typing their answers completes math (also lines 587) |
| PanicFlow.TypedAsWritten | frontend/components/PanicFlow.tsx:882-884 | with no keystroke the flag is unchanged |
| PanicFlow.KeystrokeNeverConfirms | frontend/components/PanicFlow.tsx:882-884 | as written, a keystroke never confirms: the field shows nothing or the whole phrase, and either with a character added is not the phrase |
| PanicFlow.TypingNeverConfirms | frontend/components/PanicFlow.tsx:882-884 | as written, typing any text character by character never confirms |
| PanicFlow.TypedCorrected | frontend/components/PanicFlow.tsx:882-884 | with the field holding the typed text, keystrokes append to it |
| PanicFlow.TypingConfirms | frontend/components/PanicFlow.tsx:882-884 | with the field holding the typed text, typing the phrase in any letter case confirms |
| RagChain.CrisisMessageHotlines | backend/Rag/rag_chain.py:64-71 | the crisis reply names the emergency number 911 and the crisis line 988 |
| RagChain.ContainsMiddle | backend/Rag/rag_chain.py:59-61 | a keyword anywhere in the lower-cased text is found by `in` |
| RagChain.AbsentChar | backend/Rag/rag_chain.py:59-61 | a keyword with a character the text lacks is not in it |
| RagChain.KillMyselfIsCrisis | backend/Rag/test_rag_chain.py:35-36 | "I want to kill myself" is a crisis |
| RagChain.EndMyLifeIsCrisis | backend/Rag/test_rag_chain.py:56-62 | "I want to end my life." is a crisis |
| RagChain.ScrollingIsNotCrisis | backend/Rag/test_rag_chain.py:35-37 | "I feel tempted to scroll social media" is not a crisis: no keyword occurs in it |
| RagChain.ScrollingLacks | backend/Rag/test_rag_chain.py:37 | the lower-cased sentence lacks each of the characters that rule the keywords out |
| RagChain.ScrollingAlphabet | backend/Rag/test_rag_chain.py:37 | every character of the lower-cased sentence is one of its fourteen letters (and space) |
| RagChain.LowerLacks | backend/Rag/rag_chain.py:60 | lower-casing cannot introduce a character absent in both cases |
| RagChain.Settings | backend/Rag/rag_chain.py:236-242 | the retriever uses k chunks, MMR iff configured, and then fetches `max(10, 3k)` candidates |
| RagChain.IsCrisis | backend/Rag/rag_chain.py:54-61 | `any(k in text.lower() for k in CRISIS_KEYWORDS)` (decided on the test sentences by `KillMyselfIsCrisis`, `EndMyLifeIsCrisis` and `ScrollingIsNotCrisis`) |
| RagChain.DefaultRetrieval | backend/Rag/rag_chain.py:77-84 | with the defaults: 800-character chunks with 150 of overlap, 4 chunks by MMR from 12 candidates (also lines 236-242) |
| RagChain.SplitLines | backend/Rag/rag_chain.py:200 | the model's line split yields at least one piece (Python's `splitlines` differs, see "## Left out") |
| RagChain.SplitLinesJoin | backend/Rag/rag_chain.py:200 | a line break splits the text into the lines before and the lines after it |
| RagChain.SplitLinesSingle | backend/Rag/rag_chain.py:200 | text without a line break is one line |
| RagChain.SplitLinesPrefix | backend/Rag/rag_chain.py:200 | text glued without a break goes onto the first line |
| RagChain.StripStart | backend/Rag/rag_chain.py:202 | the leading-space strip leaves a suffix that does not start with whitespace |
| RagChain.StripEnd | backend/Rag/rag_chain.py:202 | the trailing-space strip leaves a prefix that does not end with whitespace |
| RagChain.RemoveAll | backend/Rag/rag_chain.py:202 | `replace(pat, "")` never lengthens the text |
| RagChain.RemoveAllAbsent | backend/Rag/rag_chain.py:202 | a pattern that cannot start anywhere removes nothing |
| RagChain.CollectAppend | backend/Rag/rag_chain.py:199-203 | the collecting loop distributes over concatenated lines |
| RagChain.SourcesAppend | backend/Rag/rag_chain.py:199-203 | the sources of two runs of lines are those of each in order |
| RagChain.SourcesOne | backend/Rag/rag_chain.py:201-203 | one line contributes its name iff it begins with the tag |
| RagChain.TextSourcesJoin | backend/Rag/rag_chain.py:199-203 | the sources of a text split at a line break are those of each part |
| RagChain.DedupeMeaning | backend/Rag/rag_chain.py:205-206 | de-duplication keeps exactly the input's names, each once |
| RagChain.DedupeOrder | backend/Rag/rag_chain.py:205-206 | every kept name comes from the input, the kept names are in the order of their first occurrences (the first index of each is below that of the next), the first name comes first, and a repeated list adds nothing |
| RagChain.Dedupe | backend/Rag/rag_chain.py:205-206 | the `seen`-set comprehension: each name kept at its first occurrence (its properties are `DedupeMeaning`, `DedupeOrder` and `DedupeFirstOccurrences`) |
| RagChain.FirstIndex | backend/Rag/rag_chain.py:205-206 | the position of a name's first occurrence: it holds the name and no earlier position does |
| RagChain.DedupeFirstOccurrences | backend/Rag/rag_chain.py:205-206 | the de-duplicated names are input names, listed in increasing order of their first occurrences |
| RagChain.DedupeFirst | backend/Rag/rag_chain.py:205-206 | the first name survives de-duplication in first place |
| RagChain.DedupeIdempotentSuffix | backend/Rag/rag_chain.py:205-206 | names already seen add nothing |
| RagChain.FakeLlm | backend/Rag/rag_chain.py:193-218 | the stub's loops give its canned answer followed by the de-duplicated source names, or `none` |
| RagChain.CollectSources | backend/Rag/rag_chain.py:199-203 | the first loop collects the names of the tagged lines in order |
| RagChain.Unique | backend/Rag/rag_chain.py:205-206 | the `seen` comprehension is the order-preserving de-duplication |
| RagChain.Turns | backend/Rag/rag_chain.py:150-154 | one turn per message, in order, role defaulting to `user` and content to empty |
| RagChain.FormatHistory | backend/Rag/rag_chain.py:146-155 | the history loop gives the turns joined by newlines |
| RagChain.HistoryLines | backend/Rag/rag_chain.py:146-155 | turns without line breaks come out one per line |
| RagChain.Blocks | backend/Rag/rag_chain.py:257-259 | one block per retrieved document, in order |
| RagChain.Names | backend/Rag/rag_chain.py:258 | the documents' source names, `unknown` when absent, in retrieval order |
| RagChain.TagLineName | backend/Rag/rag_chain.py:202-258 | the stub reads back the name its tag line was written with |
| RagChain.TagLineSources | backend/Rag/rag_chain.py:202-258 | a tag line holds exactly its name as source |
| RagChain.BlockSources | backend/Rag/rag_chain.py:258 | a document's block lists its name once when its text holds no tag line |
| RagChain.ContextSources | backend/Rag/rag_chain.py:257-259 | the context lists the documents' names in retrieval order |
| RagChain.PlainHead | backend/Rag/rag_chain.py:159-170 | no line of the prompt's fixed head begins with `[` |
| RagChain.PlainTail | backend/Rag/rag_chain.py:180-185 | no line of the prompt's fixed tail begins with `[` |
| RagChain.PlainMiddle | backend/Rag/rag_chain.py:173-175 | the text between the history and the context holds no source line |
| RagChain.PlainQuestionLines | backend/Rag/rag_chain.py:177-179 | the close of the context ends with a line break, and the question's label is one line not beginning with `[` |
| RagChain.QuestionTail | backend/Rag/rag_chain.py:179-185 | the question line and what follows add no source |
| RagChain.FivePartSources | backend/Rag/rag_chain.py:158-185 | the sources of the laid-out prompt are those of the history then those of the context |
| RagChain.PromptSources | backend/Rag/rag_chain.py:158-185 | with a plain question, the prompt's sources are the history's then the context's |
| RagChain.BuildPrompt | backend/Rag/rag_chain.py:158-185 | the fixed head, the history, the context and the question laid out with line breaks between them (its sources are stated by `PromptSources`) |
| RagChain.StubListsRetrievedSources | backend/Rag/rag_chain.py:193-218 | end to end with the stub, the answer lists the retrieved documents' names, de-duplicated, in retrieval order (also lines 256-263) |
| RagChain.Chain.constructor | backend/Rag/rag_chain.py:225-242 | the chain keeps its configuration, retriever and model, with the retriever settings the configuration gives |
| RagChain.Chain.Invoke | backend/Rag/rag_chain.py:244-268 | a crisis question gets the crisis reply with no documents and nothing retrieved; any other gets the retrieved documents and the model's (or the stub's) answer to the built prompt |
| SettingsPage.RemoveAt | frontend/app/settings/page.tsx:147 | `filter((_, i) => i !== index)`: one entry shorter with the entries before the index kept and those after shifted down; an index outside the list changes nothing (also lines 219) |
| SettingsPage.RemoveAtPermutation | frontend/app/settings/page.tsx:147 | removal takes out exactly that occurrence and keeps the rest in order (also lines 219) |
| SettingsPage.ActivityNames | frontend/app/settings/page.tsx:82 | the names of the stored activities, in order |
| SettingsPage.ActivityNamesRoundTrip | frontend/app/settings/page.tsx:192-199 | the activities saved from a list read back as that list (also lines 237-244, 82) |
| SettingsPage.LoadedWhy | frontend/app/settings/page.tsx:56-63 | the remote why text when non-empty, else the locally stored one when non-empty, else the current text |
| SettingsPage.LoadedList | frontend/app/settings/page.tsx:70-84 | remote text present: its parsed array, or the current list when it is not an array or not JSON; otherwise the local names when there are any, else the current list |
| SettingsPage.LoadEffect | frontend/app/settings/page.tsx:45-92 | loading changes only the text, the list, the privacy flag (on iff `"true"` is stored) and clears the loading flag |
| SettingsPage.SaveWhyCases | frontend/app/settings/page.tsx:101-140 | invalid text is neither written nor saved; valid text is written sanitised, then shown and saved locally iff the write succeeds, and otherwise the text is kept |
| SettingsPage.BlurBlank | frontend/app/settings/page.tsx:145-163 | a blank entry is removed, keeping the others in order, and the shorter list is written; nothing is saved locally; only a thrown write restores the entry |
| SettingsPage.BlurText | frontend/app/settings/page.tsx:164-205 | invalid text changes no entry and writes nothing; valid text replaces exactly the entry, sanitised, and is kept and saved iff the write succeeds |
| SettingsPage.BlurAnswerCases | frontend/app/settings/page.tsx:164-205 | for a non-blank entry: invalid text changes no entry and writes nothing; valid text replaces exactly that entry and is saved iff the write succeeds, restored otherwise |
| SettingsPage.Blur | frontend/app/settings/page.tsx:142-205 | `handleUpdateReplacement`: a blank entry is removed and written, any other follows its validation (properties: `BlurBlank`, `BlurText`) |
| SettingsPage.BlurAnswer | frontend/app/settings/page.tsx:164-205 | the non-blank branch, given the validation result (properties: `BlurAnswerCases`) |
| SettingsPage.BlankRemovalIgnoresReturnedError | frontend/app/settings/page.tsx:149-161 | a write that returns an error is not a throw, so the local list stays without the entry |
| SettingsPage.AddBound | frontend/app/settings/page.tsx:207-213 | below the maximum one empty entry is appended, at the maximum nothing changes, so the list never exceeds it; nothing is written |
| SettingsPage.Add | frontend/app/settings/page.tsx:207-213 | `handleAddReplacement`: an empty entry, or the maximum alert when the list is full (properties: `AddBound`) |
| SettingsPage.RemoveCases | frontend/app/settings/page.tsx:215-250 | the list without the entry is written; on success it is kept and saved locally, on any failure the previous list comes back |
| SettingsPage.Remove | frontend/app/settings/page.tsx:215-250 | `handleRemoveReplacement`: the list without the entry is written, kept on success and restored on failure (properties: `RemoveCases`) |
| SettingsPage.SavedMatchesList | frontend/app/settings/page.tsx:237-244 | after a successful removal the saved activities read back as the page's list |
| SettingsPage.TogglePrivacyTwice | frontend/app/settings/page.tsx:252-256 | toggling twice restores the flag, and the stored text is `"true"` iff the flag is on |
| SettingsPage.DeleteGate | frontend/app/settings/page.tsx:297-320 | the delete request is sent iff a signed-in user typed exactly `DELETE`, otherwise nothing changes; the page removes the local onboarding store, drops the privacy value and signs out iff the delete also succeeds (also lines 679) |
| SettingsPage.DeleteAccount | frontend/app/settings/page.tsx:297-321 | `handleDeleteAccount` (properties: `DeleteGate`) |
| SettingsPage.Settings.constructor | frontend/app/settings/page.tsx:26-36 | the initial page: empty text and list, loading, no dialog |
| SettingsPage.Settings.LoadSettings | frontend/app/settings/page.tsx:45-98 | loading sets the page as the load rule says |
| SettingsPage.Settings.SetWhy | frontend/app/settings/page.tsx:369 | typing sets the why text |
| SettingsPage.Settings.HandleSaveWhy | frontend/app/settings/page.tsx:101-140 | the save as the save rule says |
| SettingsPage.Settings.SaveWhyOutcome | frontend/app/settings/page.tsx:104-139 | the save for a given validation result |
| SettingsPage.Settings.HandleEdit | frontend/app/settings/page.tsx:403-407 | typing into an entry stores the text at once |
| SettingsPage.Settings.HandleUpdateReplacement | frontend/app/settings/page.tsx:142-205 | leaving an entry runs the update rule (also lines 408) |
| SettingsPage.Settings.UpdateOutcome | frontend/app/settings/page.tsx:164-205 | the update for a given validation result |
| SettingsPage.Settings.HandleAddReplacement | frontend/app/settings/page.tsx:207-213 | the add rule |
| SettingsPage.Settings.HandleRemoveReplacement | frontend/app/settings/page.tsx:215-250 | the remove rule |
| SettingsPage.Settings.HandleTogglePrivacyMode | frontend/app/settings/page.tsx:252-256 | the toggle rule |
| SettingsPage.Settings.OpenDeleteConfirm | frontend/app/settings/page.tsx:499 | opens the first delete dialog |
| SettingsPage.Settings.CancelDeleteConfirm | frontend/app/settings/page.tsx:616 | closes the first dialog |
| SettingsPage.Settings.ContinueDelete | frontend/app/settings/page.tsx:626-628 | swaps the first dialog for the final one |
| SettingsPage.Settings.SetDeleteInput | frontend/app/settings/page.tsx:655 | typing sets the confirmation text |
| SettingsPage.Settings.CancelDeleteFinal | frontend/app/settings/page.tsx:665-667 | closes the final dialog and clears the confirmation text |
| SettingsPage.Settings.HandleDeleteAccount | frontend/app/settings/page.tsx:297-321 | the new state is the delete rule: on success the onboarding store is removed, the privacy value dropped and the page signed out; a failure only alerts |

## Left out

- Rendering: JSX, styles, animation and the urge-surfing wave, whose `Math.sin` is floating point.
- Timers: the 16 ms press sampling, the one-second intervals and the `setTimeout` delays. A delayed action happens in the same call, and elapsed time and ticks are inputs.
- Randomness and the clock: `Math.random` (method choice, mock replies, the mock crisis chance) and `Date.now` (ids, timestamps) are parameters.
- React closures: the source's stale-closure behaviour is modelled by the `…AsWritten` members; closures themselves are not.
- Network: Supabase and `fetch` results are inputs, one value per call.
- Storage: `localStorage`, `sessionStorage`, `JSON.parse` and `JSON.stringify` are parameters or outcomes. The key derivation from `navigator.userAgent` and the clock is an input string.
- Encryption.LocalStorage.ReadEncryptedStorage: a `getItem` that throws, caught at frontend/lib/encryption.ts:95-97, is not modelled; the read is an `Option` value.
- Foreign predicates: zod's `.email()` is the `isEmail` parameter, `encodeURIComponent` is the `encode` parameter.
- Text: lengths count Unicode scalar values rather than UTF-16 units, except in `Base64` and `Encryption`, which work on code units. Case folding is ASCII-only.
- PanicFlow.PressProgress: the percentage is a `real`, so floating-point rounding is not modelled.
- Dates: `Date.parse` results, message `createdAt` values (integer milliseconds) and the locale time-of-day text are inputs; `toLocale*` formatting is left out.
- Constants: the `EXERCISE` values come from `frontend/lib/constants.ts`, which is not part of this model. They are a parameter with bounds.
- PanicFlow: the crisis menu, exit-app action and re-engagement component are presentation and I/O.
- RagChain: `HashEmbeddings`, FAISS, the loaders, the text splitter, `_compute_dir_hash` and `build_or_load_vectorstore` (backend/Rag/rag_chain.py:20-48, 87-140) are external; the retriever and the LLM are parameters.
- PanicFlow.PanicSession.SuccessClose: the re-engagement flag is modelled as state only. Rendering is not modelled, and the prompt it guards never appears after a success close: `handleSuccessClose` calls `onClose()` first, the dashboard mounts the flow only while `panicOpen` holds (frontend/app/dashboard/page.tsx:101-109), the flow renders nothing when closed (frontend/components/PanicFlow.tsx:1117), and the effect at lines 66-71 clears the flag.
- RagChain.SplitLines: it differs from Python's `splitlines` on `\r\n` (it yields an extra empty piece between the two characters), on a final line break (it yields a final empty piece) and on the empty text (it yields `[""]` where Python yields `[]`). The first two can occur: the laid-out prompt ends with a line break, and the history or retrieved text may hold `\r\n`. The laid-out prompt is never empty, so the third does not. None of the differences changes the sources the stub lists, because every extra piece is empty and so never begins with `[SOURCE:`.
- BetaSignup.Post: the outer catch at frontend/app/api/beta-signup/route.ts:167-173 (an unexpected throw becomes 500) is not modelled.
- Dashboard: the `??` defaults on typed fields, the auth redirect to `/login` (frontend/app/dashboard/page.tsx:20-24) and the loading render are not modelled.
- Verify.CodeInput: the `maxLength={6}` attribute is modelled as a cut to six characters after the digit filter, whereas the browser cuts the raw text to six characters before `onChange` filters it; pasting `ab1234567` leaves `1234` in the browser and `123456` in the model. Typing one character at a time gives the same field in both.
- MockApi: `getMe`, `getSessions`, `getAddictionDetail` and `exportData` return constant or looked-up data and carry no stated property.
- Logging: the `console.error` calls on failure paths (for example frontend/lib/onboarding.ts:130 and frontend/app/settings/page.tsx:88) only write to the console, which is output, and are left out.
- SettingsPage: the load and the deletion name the privacy key as the literal `'urgease_privacy_mode'` (frontend/app/settings/page.tsx:85, 314), while the toggle writes under `STORAGE_KEYS.PRIVACY_MODE` (line 255), whose value is in `frontend/lib/constants.ts`, which is not part of this model. The model takes them to be one key: the deletion clears `storedPrivacy`, which the toggle writes, and the load's value is an input.
- SettingsPage: the deletion removes the literal key `'urgease_onboarding'` (frontend/app/settings/page.tsx:313), and `onboardingRemoved` takes this to be the key the onboarding store writes, `STORAGE_KEYS.ONBOARDING` (frontend/lib/onboarding.ts:52), whose value is in `frontend/lib/constants.ts`, which is not part of this model. The persisted zustand store uses a third spelling, `'urgeease-onboarding'` (frontend/lib/store.ts:87), which the deletion does not remove; the stores' `persist` middleware, and so that key, is not modelled.
- BetaSignup.ParseSignup: JSON numbers are modelled as integers (`JsValue.Num`), so a fractional `timestamp` such as `0.5`, which `z.number().positive()` accepts (frontend/app/api/beta-signup/route.ts:14), cannot be expressed; for integers the 400, bot (line 118) and insert decisions are those of the source.
- SettingsPage: `handleExportData` (frontend/app/settings/page.tsx:258-294) builds a Blob download, which is I/O.

## Findings

| source | as written | input that shows it | evidently intended | confidence | as-written member | corrected member |
|---|---|---|---|---|---|---|
| frontend/components/PanicFlow.tsx:126-189 | `handlePressStart` (line 126) is memoised with an empty dependency list. It calls the first render's `activatePanicButton` and `initializeMethod`, which sees `selectedMethod` as null and returns early, so no math problems are generated | open the flow with math sabotage chosen and hold the button for 2000 ms; the problem list stays empty and math sabotage can never complete | activation initialises the method that is selected, generating the subtraction problems | high; not executed | PanicFlow.MathFlowAsWritten | PanicFlow.MathFlow |
| frontend/components/ChatOnboarding.tsx:142 | the follow-up pluralises "activity" as `activityies`; the component posts that text (`FollowUpText`), while the saved-activity reply at line 244 uses the intended noun | any count other than one, such as 2 | `activities` | high; not executed | ChatOnboarding.FollowUpShown | ChatOnboarding.ActivityNoun |
| frontend/components/PanicFlow.tsx:882-884 | the environment field shows `'I am here'` when confirmed and `''` otherwise, so each keystroke's new value is `'' + c` or `'I am here' + c`, which never equals the phrase | typing `i am here` one character at a time leaves the reset unconfirmed; only pasting the whole phrase works | the field holds the typed text and confirms when it reads `i am here` in any case | medium; not executed | PanicFlow.TypingNeverConfirms | PanicFlow.TypingConfirms |
