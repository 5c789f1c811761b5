/**
 * The onboarding chat: four questions asked in order (main challenge, the "why", five
 * replacement activities, the environment reset), and a second mode that only collects
 * replacement activities until the user says they are done.
 *
 * The delays before each reply are collapsed: the reply, the next question and the end of the
 * conversation happen within the call that sent the message. Profile writes and onboarding
 * state updates are recorded, in order, as the values sent; `now` is the timestamp text.
 */
module ChatOnboarding {
  import opened Wrappers
  import opened JsText
  import opened Validation
  import opened Onboarding

  /** What the assistant says at each point of the conversation; `Words` gives the text. */
  datatype Line =
    | Question(step: nat)
    | ChallengeThanks | WhyThanks | FiveThanks | EnvironmentThanks
    | WhyRejected(result: ValidationResult)
    | ActivityRejected(result: ValidationResult)
    | Progress(count: nat)
    | Saved(activity: string, count: nat)
    | Welcome | FollowUp(count: nat) | Updated

  /** A chat bubble: a line of the assistant's, or the user's text. */
  datatype ChatMessage = Assistant(line: Line) | UserSays(content: string)

  datatype ChatMode = OnboardingMode | ReplacementPrompts

  /** The value written to one profile column: text, or a list sent as JSON. */
  datatype ProfileValue = Text(text: string) | Names(names: seq<string>)

  /** One `updateProfile(field, value)` call; `completed` is the `personalization_status`
      written beside it (`'completed'` on the last step, `'pending'` before). */
  datatype ProfileUpdate = ProfileUpdate(field: string, value: ProfileValue, completed: bool)

  /** The whole conversation: the mode, the step, the bubbles, the input box, the collected
      answers, whether `onComplete` has run, and what was written. */
  datatype Chat = Chat(
    mode: ChatMode,
    step: nat,
    messages: seq<ChatMessage>,
    input: string,
    challenge: Option<string>,
    why: Option<string>,
    replacements: seq<string>,
    environment: Option<string>,
    finished: bool,
    profile: seq<ProfileUpdate>,
    saved: seq<PartialState>)

  /** The steps, by their field. */
  const STEP_COUNT: nat := 4
  const CHALLENGE_STEP: nat := 0
  const WHY_STEP: nat := 1
  const REPLACEMENT_STEP: nat := 2
  const ENVIRONMENT_STEP: nat := 3

  /** The replacement step asks for this many activities. */
  const REPLACEMENTS_WANTED: nat := 5

  const QUESTIONS: seq<string> := [
    "Hi! I'm your UrgeEase Recovery Partner. I'm here to help personalize your experience. Let's start by understanding what you're working on. What's your main challenge?",
    "To make the Panic Button truly effective, I need to know what you're fighting for. If you could tell your future self one reason to stay strong, what would it be?",
    "Great! Now let's build your toolkit. What are 5 activities you can do instead when the urge hits? (You can add them one at a time)",
    "Last question: Have you done an environment reset? This means removing triggers from your immediate space (like moving your phone, blocking sites, etc.)"
  ]

  const CHALLENGE_RESPONSE := "Thank you for sharing. I understand this is important to you. Let's continue."
  const WHY_RESPONSE := "That's powerful. I'll make sure you see this when you need it most. Now let's build your toolkit."
  const FIVE_RESPONSE := "Perfect! You now have 5 powerful alternatives ready. One last thing..."
  const ENVIRONMENT_RESPONSE := "Excellent! Your UrgeEase partner is now fully personalized. You're all set. Let's get you to your dashboard."
  const WHY_FALLBACK := "Please enter a valid reason (10-2000 characters)."
  const ACTIVITY_FALLBACK := "Please enter a valid activity name (2-100 characters)."
  const REPLACEMENT_WELCOME := "Let's update your replacement activities! What activities help you when the urge hits? You can add new ones or modify existing ones. (Type them one at a time, or type 'done' when finished)"
  const UPDATED_RESPONSE := "Perfect! Your replacement activities have been updated. They'll be available in your Panic Button. Is there anything else I can help you with?"

  /** The text of each line, as the component words it; a rejection shows the validator's
      error, or the step's fallback when there is none. */
  function Words(l: Line): string {
    match l
    case Question(k) => if k < |QUESTIONS| then QUESTIONS[k] else ""
    case ChallengeThanks => CHALLENGE_RESPONSE
    case WhyThanks => WHY_RESPONSE
    case FiveThanks => FIVE_RESPONSE
    case EnvironmentThanks => ENVIRONMENT_RESPONSE
    case WhyRejected(v) => ErrorText(v, WHY_FALLBACK)
    case ActivityRejected(v) => ErrorText(v, ACTIVITY_FALLBACK)
    case Progress(n) => ProgressText(n)
    case Saved(a, n) => SavedText(a, n)
    case Welcome => REPLACEMENT_WELCOME
    case FollowUp(n) => FollowUpText(n)
    case Updated => UPDATED_RESPONSE
  }

  /** The words that end the replacement-prompts mode. */
  const DONE_WORDS: set<string> := {"done", "i'm done", "that's all"}

  /** `text || inputValue.trim()`. */
  function MessageText(text: Option<string>, input: string): (r: string)
    ensures text.Some? && text.value != "" ==> r == text.value
    ensures (text.None? || text.value == "") ==> r == Trim(input)
  {
    if text.Some? && text.value != "" then text.value else Trim(input)
  }

  /** The environment reset counts as done when the reply says so. */
  predicate EnvironmentDone(text: string) {
    Contains(Lower(text), "yes") || Contains(Lower(text), "i have")
  }

  /** The last step's update: the reset (its date only when done, and `undefined` otherwise)
      and onboarding marked complete. */
  function EnvironmentUpdate(done: bool, now: string): PartialState {
    EMPTY_PARTIAL.(
      environmentReset := Some(PartialEnvironmentReset(Some(done), Some(if done then Some(now) else None))),
      userSettings := Some(PartialUserSettings(None, None, Some(Some(true)), Some(Some(now)), None)))
  }

  function ProgressText(n: nat): string {
    "Great! That's " + NatToDecimal(n) + " of 5. What's another activity you can do?"
  }

  function SavedText(activity: string, n: nat): string {
    "Perfect! I've saved \"" + activity + "\". You now have " + NatToDecimal(n) + " replacement "
    + ActivityNoun(n) + ". Would you like to add another, or type \"done\" when you're finished."
  }

  /** The reply, then either the question of the next step or the end of the conversation. */
  function Advance(c: Chat, response: Line, next: nat): Chat
  {
    if next < STEP_COUNT then c.(step := next, messages := c.messages + [Assistant(response), Assistant(Question(next))])
    else c.(finished := true, messages := c.messages + [Assistant(response)])
  }

  function Say(c: Chat, response: Line): Chat {
    c.(messages := c.messages + [Assistant(response)])
  }

  function ChallengeReply(c: Chat, t: string): Chat {
    Advance(c.(challenge := Some(t), profile := c.profile + [ProfileUpdate("main_challenge", Text(t), false)]),
            ChallengeThanks, 1)
  }

  function WhyReply(c: Chat, t: string, now: string): Chat {
    WhyAnswer(c, ValidateWhyDocument(t), t, now)
  }

  /** The why step given the validation result `v` of the text `t`. */
  function WhyAnswer(c: Chat, v: ValidationResult, t: string, now: string): Chat {
    if !v.valid then Say(c, WhyRejected(v))
    else
      var w := SanitizedOr(v, t);
      Advance(c.(why := Some(w), profile := c.profile + [ProfileUpdate("why_document", Text(w), false)],
                 saved := c.saved + [WhyUpdate(w, now)]),
              WhyThanks, 2)
  }

  function ActivityReply(c: Chat, t: string, validate: bool): Chat {
    ActivityAnswer(c, ValidateReplacementActivity(t), t, validate)
  }

  /** The replacement step given the validation result `v` of the text `t`. */
  function ActivityAnswer(c: Chat, v: ValidationResult, t: string, validate: bool): Chat {
    if validate && !v.valid then Say(c, ActivityRejected(v))
    else
      var reps := c.replacements + [if validate then SanitizedOr(v, t) else t];
      if |reps| < REPLACEMENTS_WANTED then Advance(c.(replacements := reps), Progress(|reps|), 2)
      else
        Advance(c.(replacements := reps, profile := c.profile + [ProfileUpdate("replacement_behaviors", Names(reps), false)],
                   saved := c.saved + [ActivitiesUpdate(reps)]),
                FiveThanks, 3)
  }

  function EnvironmentReply(c: Chat, t: string, now: string): Chat {
    var done := EnvironmentDone(t);
    Advance(c.(environment := Some(t),
               profile := c.profile + [ProfileUpdate("environment_reset", Text(if done then "completed" else "pending"), true),
                                       ProfileUpdate("personalization_status", Text("completed"), true)],
               saved := c.saved + [EnvironmentUpdate(done, now)]),
            EnvironmentThanks, STEP_COUNT)
  }

  /** The step switch, after the user's bubble went in; `validate` is the quick-reply path,
      which validates a replacement activity where the typed path does not. */
  function StepReply(c: Chat, t: string, now: string, validate: bool): Chat {
    if c.step == CHALLENGE_STEP then ChallengeReply(c, t)
    else if c.step == WHY_STEP then WhyReply(c, t, now)
    else if c.step == REPLACEMENT_STEP then ActivityReply(c, t, validate)
    else if c.step == ENVIRONMENT_STEP then EnvironmentReply(c, t, now)
    else c
  }

  /** The replacement-prompts mode, after the user's bubble went in. */
  function ReplacementReply(c: Chat, t: string): Chat {
    if Trim(Lower(t)) in DONE_WORDS then Say(c, Updated).(finished := true)
    else ReplacementAnswer(c, ValidateReplacementActivity(t), t)
  }

  /** A replacement-prompts message that is not a done word, given its validation result. */
  function ReplacementAnswer(c: Chat, v: ValidationResult, t: string): Chat {
    if !v.valid then Say(c, ActivityRejected(v))
    else
      var a := SanitizedOr(v, t);
      var reps := c.replacements + [a];
      Say(c.(replacements := reps, profile := c.profile + [ProfileUpdate("replacement_behaviors", Names(reps), false)],
             saved := c.saved + [ActivitiesUpdate(reps)]),
          Saved(a, |reps|))
  }

  /** `handleSendMessage` with its message text resolved: a blank message is ignored; any
      other is posted, the box is cleared, and the mode's reply follows. */
  function Send(c: Chat, t: string, now: string): Chat {
    if t == "" then c
    else
      var c1 := c.(messages := c.messages + [UserSays(t)], input := "");
      if c.mode == ReplacementPrompts then ReplacementReply(c1, t) else StepReply(c1, t, now, false)
  }

  /** `handleQuickReply(reply)`: the trimmed reply, sent as typed text in the replacement
      mode; otherwise posted without clearing the box and answered with validation. */
  function QuickReply(c: Chat, reply: string, now: string): Chat {
    var t := Trim(reply);
    if t == "" then c
    else if c.mode == ReplacementPrompts then Send(c, t, now)
    else StepReply(c.(messages := c.messages + [UserSays(t)]), t, now, true)
  }

  /** The conversation's invariant: the step is one of the four. */
  predicate Good(c: Chat) {
    c.step < STEP_COUNT && (c.mode == ReplacementPrompts ==> c.step == 0)
  }

  // ---------------------------------------------------------------- one message

  /** `r` follows `c`: the step moved forward by at most one and stays one of the four, and
      nothing already said, written or collected is lost. */
  predicate Forward(c: Chat, r: Chat) {
    Good(r) && r.mode == c.mode && c.step <= r.step <= c.step + 1
    && c.messages < r.messages && c.profile <= r.profile && c.saved <= r.saved
    && c.replacements <= r.replacements
  }

  /** Each step's reply moves forward. */
  lemma StepForward(c: Chat, t: string, now: string, validate: bool)
    requires Good(c) && c.mode == OnboardingMode
    ensures Forward(c, StepReply(c, t, now, validate))
  {
    if c.step == CHALLENGE_STEP {
      ChallengeForward(c, t);
    } else if c.step == WHY_STEP {
      WhyForward(c, t, now);
    } else if c.step == REPLACEMENT_STEP {
      ActivityForward(c, t, validate);
    } else {
      EnvironmentForward(c, t, now);
    }
  }

  lemma ChallengeForward(c: Chat, t: string)
    requires Good(c) && c.mode == OnboardingMode && c.step == CHALLENGE_STEP
    ensures Forward(c, ChallengeReply(c, t))
  {
  }

  lemma WhyForward(c: Chat, t: string, now: string)
    requires Good(c) && c.mode == OnboardingMode && c.step == WHY_STEP
    ensures Forward(c, WhyReply(c, t, now))
  {
  }

  lemma ActivityForward(c: Chat, t: string, validate: bool)
    requires Good(c) && c.mode == OnboardingMode && c.step == REPLACEMENT_STEP
    ensures Forward(c, ActivityReply(c, t, validate))
  {
  }

  lemma EnvironmentForward(c: Chat, t: string, now: string)
    requires Good(c) && c.mode == OnboardingMode && c.step == ENVIRONMENT_STEP
    ensures Forward(c, EnvironmentReply(c, t, now))
  {
  }

  /** The challenge step always advances to the why step and records the answer. */
  lemma ChallengeAdvances(c: Chat, t: string, now: string, validate: bool)
    requires c.step == CHALLENGE_STEP
    ensures StepReply(c, t, now, validate).step == WHY_STEP
    ensures StepReply(c, t, now, validate).challenge == Some(t)
  {
  }

  /** The why step advances exactly when the text validates; then the sanitised text is kept
      and saved, and otherwise the validation error is posted and nothing else changes. */
  lemma WhyGate(c: Chat, t: string, now: string, validate: bool)
    requires c.step == WHY_STEP
    ensures var r := StepReply(c, t, now, validate);
            var v := ValidateWhyDocument(t);
            (r.step == REPLACEMENT_STEP <==> v.valid)
            && (v.valid ==> r.why == Some(v.sanitized.value) && r.saved == c.saved + [WhyUpdate(v.sanitized.value, now)])
            && (!v.valid ==> r == c.(messages := c.messages + [Assistant(WhyRejected(v))]))
  {
    var v := ValidateWhyDocument(t);
    if v.valid {
      WhyDocumentRule(t);
      assert |v.sanitized.value| >= 10;
    }
  }

  /** The replacement step appends the reply (sanitised on the quick-reply path, as typed
      otherwise) and advances exactly when the list reaches five; an invalid quick reply
      changes nothing but the bubbles. */
  lemma ReplacementGate(c: Chat, t: string, now: string, validate: bool)
    requires c.step == REPLACEMENT_STEP
    ensures var r := StepReply(c, t, now, validate);
            var v := ValidateReplacementActivity(t);
            (validate && !v.valid ==> r.replacements == c.replacements && r.step == REPLACEMENT_STEP)
            && (!validate ==> r.replacements == c.replacements + [t])
            && (validate && v.valid ==> r.replacements == c.replacements + [v.sanitized.value])
            && (r.step == ENVIRONMENT_STEP <==> (!validate || v.valid) && |c.replacements| + 1 >= REPLACEMENTS_WANTED)
            && (r.step == ENVIRONMENT_STEP ==> r.saved == c.saved + [ActivitiesUpdate(r.replacements)])
  {
    var v := ValidateReplacementActivity(t);
    if validate && v.valid {
      ActivityRule(t);
      assert |v.sanitized.value| >= 2;
    }
  }

  /** A typed activity is appended as typed, with no validation, and the step moves on
      exactly when the list reaches five. */
  lemma TypedActivity(c: Chat, t: string, now: string)
    requires c.step == REPLACEMENT_STEP
    ensures var r := StepReply(c, t, now, false);
            r.replacements == c.replacements + [t] && r.mode == c.mode
            && r.step == (if |c.replacements| + 1 >= REPLACEMENTS_WANTED then ENVIRONMENT_STEP else REPLACEMENT_STEP)
  {
  }

  /** Typing an activity at the replacement step appends it as typed. */
  lemma SendActivity(c: Chat, t: string, now: string)
    requires c.mode == OnboardingMode && c.step == REPLACEMENT_STEP && t != ""
    ensures var r := Send(c, t, now);
            r.replacements == c.replacements + [t] && r.mode == c.mode
            && r.step == (if |c.replacements| + 1 >= REPLACEMENTS_WANTED then ENVIRONMENT_STEP else REPLACEMENT_STEP)
  {
    var posted := c.(messages := c.messages + [UserSays(t)], input := "");
    assert Send(c, t, now) == StepReply(posted, t, now, false);
    TypedActivity(posted, t, now);
  }

  /** The environment step always ends the conversation; the reset counts as done exactly
      when the reply says "yes" or "i have". */
  lemma EnvironmentEnds(c: Chat, t: string, now: string, validate: bool)
    requires c.step == ENVIRONMENT_STEP
    ensures var r := StepReply(c, t, now, validate);
            r.finished && r.step == ENVIRONMENT_STEP && r.environment == Some(t)
            && r.saved == c.saved + [EnvironmentUpdate(EnvironmentDone(t), now)]
  {
  }

  /** Overlaying the last step's update marks onboarding complete and records the reset as
      the reply said, whatever the state before. */
  lemma EnvironmentUpdateEffect(s: OnboardingState, done: bool, now: string)
    ensures var m := Merge(s, EnvironmentUpdate(done, now));
            m.userSettings.onboardingCompleted == Some(true)
            && m.userSettings.onboardingCompletedAt == Some(now)
            && m.environmentReset == EnvironmentReset(done, if done then Some(now) else None)
            && m.whyDocument == s.whyDocument && m.triggerLogs == s.triggerLogs
            && m.replacementActivities == s.replacementActivities
            && m.userSettings.behaviorType == s.userSettings.behaviorType
  {
  }

  /** The replacement-prompts reply keeps the mode and the step and adds a bubble. */
  lemma ReplacementForward(c: Chat, t: string)
    requires Good(c) && c.mode == ReplacementPrompts
    ensures Forward(c, ReplacementReply(c, t))
  {
    if Trim(Lower(t)) in DONE_WORDS {
    } else if !ValidateReplacementActivity(t).valid {
    } else {
    }
  }

  /** A blank message is ignored; any other is posted first and the box cleared, and the
      conversation moves forward. */
  lemma SendPosts(c: Chat, t: string, now: string)
    requires Good(c)
    ensures t == "" ==> Send(c, t, now) == c
    ensures t != "" ==> Forward(c, Send(c, t, now))
                        && Send(c, t, now).messages[|c.messages|] == UserSays(t)
                        && Send(c, t, now).input == ""
  {
    if t != "" {
      var c1 := c.(messages := c.messages + [UserSays(t)], input := "");
      assert c1.messages[|c.messages|] == UserSays(t);
      if c.mode == ReplacementPrompts {
        ReplacementForward(c1, t);
      } else {
        StepForward(c1, t, now, false);
      }
    }
  }

  /** In the replacement-prompts mode, a done word ends the session without adding; invalid
      text is refused; valid text is appended sanitised and the list saved. */
  lemma ReplacementModeCases(c: Chat, t: string)
    ensures Trim(Lower(t)) in DONE_WORDS ==>
              ReplacementReply(c, t).finished && ReplacementReply(c, t).replacements == c.replacements
    ensures Trim(Lower(t)) !in DONE_WORDS && !ValidateReplacementActivity(t).valid ==>
              ReplacementReply(c, t).replacements == c.replacements && ReplacementReply(c, t).saved == c.saved
    ensures Trim(Lower(t)) !in DONE_WORDS && ValidateReplacementActivity(t).valid ==>
              (var a := ValidateReplacementActivity(t).sanitized.value;
               ReplacementReply(c, t).replacements == c.replacements + [a]
               && ReplacementReply(c, t).saved == c.saved + [ActivitiesUpdate(c.replacements + [a])])
  {
    if Trim(Lower(t)) !in DONE_WORDS && ValidateReplacementActivity(t).valid {
      ActivityRule(t);
      assert |ValidateReplacementActivity(t).sanitized.value| >= 2;
    }
  }

  // ---------------------------------------------------------------- many messages

  /** Sending several typed messages, in order. */
  function SendAll(c: Chat, ts: seq<string>, now: string): Chat
    decreases |ts|
  {
    if ts == [] then c else SendAll(Send(c, ts[0], now), ts[1..], now)
  }

  /** Over any run of typed messages the step never moves back and the invariant holds. */
  lemma {:induction false} ForwardOnly(c: Chat, ts: seq<string>, now: string)
    requires Good(c)
    ensures Good(SendAll(c, ts, now)) && SendAll(c, ts, now).step >= c.step
    ensures SendAll(c, ts, now).mode == c.mode
    decreases |ts|
  {
    if ts != [] {
      var c1 := Send(c, ts[0], now);
      if ts[0] != "" && c.mode == OnboardingMode {
        StepForward(c.(messages := c.messages + [UserSays(ts[0])], input := ""), ts[0], now, false);
      }
      ForwardOnly(c1, ts[1..], now);
    }
  }

  /** Typed activities are all collected, as typed, and the step moves on exactly with the
      fifth. */
  lemma {:induction false} FiveActivities(c: Chat, ts: seq<string>, now: string)
    requires c.mode == OnboardingMode && c.step == REPLACEMENT_STEP
    requires |c.replacements| + |ts| == REPLACEMENTS_WANTED && ts != []
    requires forall i :: 0 <= i < |ts| ==> ts[i] != ""
    ensures SendAll(c, ts, now).step == ENVIRONMENT_STEP
    ensures SendAll(c, ts, now).replacements == c.replacements + ts
    decreases |ts|
  {
    var c1 := FiveStep(c, ts, now);
    if |ts| > 1 {
      var rest := ts[1..];
      forall i | 0 <= i < |rest|
        ensures rest[i] != ""
      {
        assert rest[i] == ts[i + 1];
      }
      FiveActivities(c1, rest, now);
      AppendHead(c.replacements, ts);
    }
  }

  lemma AppendHead<T>(a: seq<T>, ts: seq<T>)
    requires ts != []
    ensures (a + [ts[0]]) + ts[1..] == a + ts
  {
    assert ts == [ts[0]] + ts[1..];
  }

  /** The first of the typed activities, as the state it leads to. */
  lemma FiveStep(c: Chat, ts: seq<string>, now: string) returns (c1: Chat)
    requires c.mode == OnboardingMode && c.step == REPLACEMENT_STEP && ts != [] && ts[0] != ""
    ensures SendAll(c, ts, now) == SendAll(c1, ts[1..], now)
    ensures c1.replacements == c.replacements + [ts[0]] && c1.mode == c.mode
    ensures c1.step == (if |c.replacements| + 1 >= REPLACEMENTS_WANTED then ENVIRONMENT_STEP else REPLACEMENT_STEP)
  {
    c1 := Send(c, ts[0], now);
    SendActivity(c, ts[0], now);
  }

  // ---------------------------------------------------------------- the component

  /** The follow-up shown when the user already has activities, as the component words it. */
  function FollowUpText(n: nat): string {
    "I see you currently have " + NatToDecimal(n) + " replacement " + ActivityNounAsWritten(n)
    + ". Would you like to add more or modify them?"
  }

  /** The follow-up as intended, with the noun the saved-activity reply uses. */
  function FollowUpIntended(n: nat): string {
    "I see you currently have " + NatToDecimal(n) + " replacement " + ActivityNoun(n)
    + ". Would you like to add more or modify them?"
  }

  /** The noun as the follow-up builds it: `activity` followed by `ies` unless there is
      exactly one. */
  function ActivityNounAsWritten(n: nat): string {
    "activity" + (if n != 1 then "ies" else "")
  }

  /** The noun as intended: the plural replaces the final `y`. */
  function ActivityNoun(n: nat): (r: string)
    ensures n == 1 ==> r == "activity"
    ensures n != 1 ==> r == "activities"
  {
    "activit" + (if n != 1 then "ies" else "y")
  }

  /** The follow-up as written says `activityies` for any count but one. */
  lemma FollowUpMisspelt(n: nat)
    requires n != 1
    ensures ActivityNounAsWritten(n) == "activityies" && ActivityNounAsWritten(n) != ActivityNoun(n)
  {
    assert ActivityNoun(n)[7] == 'i' && ActivityNounAsWritten(n)[7] == 'y';
  }

  /** The follow-up bubble the component posts reads as intended for one activity only; for
      any other count it is one character longer than the intended text. */
  lemma FollowUpShown(n: nat)
    ensures n == 1 ==> FollowUpText(n) == FollowUpIntended(n)
    ensures n != 1 ==> |FollowUpText(n)| == |FollowUpIntended(n)| + 1 && FollowUpText(n) != FollowUpIntended(n)
  {
    if n != 1 {
      FollowUpMisspelt(n);
    }
  }

  /** A non-blank message is posted with the box cleared, then answered by the mode's reply. */
  lemma SendPosted(c: Chat, posted: Chat, t: string, now: string)
    requires t != "" && posted == c.(messages := c.messages + [UserSays(t)], input := "")
    ensures c.mode == ReplacementPrompts ==> Send(c, t, now) == ReplacementReply(posted, t)
    ensures c.mode != ReplacementPrompts ==> Send(c, t, now) == StepReply(posted, t, now, false)
  {
  }

  /** The replacement-prompts mode never changes the step. */
  lemma ReplacementKeepsStep(c: Chat, t: string)
    ensures ReplacementReply(c, t).step == c.step && ReplacementReply(c, t).mode == c.mode
  {
  }

  /** A non-blank quick reply is sent as typed text in the replacement mode, and otherwise
      posted without clearing the box and answered with validation. */
  lemma QuickReplyCases(c: Chat, reply: string, now: string)
    requires Trim(reply) != ""
    ensures c.mode == ReplacementPrompts ==> QuickReply(c, reply, now) == Send(c, Trim(reply), now)
    ensures c.mode != ReplacementPrompts ==>
              QuickReply(c, reply, now) == StepReply(c.(messages := c.messages + [UserSays(Trim(reply))]), Trim(reply), now, true)
  {
  }

  /** The chat component's state. */
  class Conversation {
    const mode: ChatMode
    var step: nat
    var messages: seq<ChatMessage>
    var input: string
    var challenge: Option<string>
    var why: Option<string>
    var replacements: seq<string>
    var environment: Option<string>
    var finished: bool
    var profile: seq<ProfileUpdate>
    var saved: seq<PartialState>

    function Snapshot(): Chat
      reads this
    {
      Chat(mode, step, messages, input, challenge, why, replacements, environment, finished, profile, saved)
    }

    predicate Valid()
      reads this
    {
      Good(Snapshot())
    }

    /** Mounting: the first question, or the replacement welcome followed, when the user
        already has activities (`existing`, the parsed remote list), by a count of them. */
    constructor(mode: ChatMode, existing: Option<seq<string>>)
      ensures Valid() && this.mode == mode && step == 0 && input == "" && !finished
      ensures mode == OnboardingMode ==> messages == [Assistant(Question(0))] && replacements == []
      ensures mode == ReplacementPrompts ==>
                if existing.Some? && existing.value != [] then
                  replacements == existing.value
                  && messages == [Assistant(Welcome), Assistant(FollowUp(|existing.value|))]
                else replacements == [] && messages == [Assistant(Welcome)]
      ensures challenge.None? && why.None? && environment.None? && profile == [] && saved == []
    {
      this.mode := mode;
      step := 0;
      input := "";
      challenge, why, environment := None, None, None;
      finished := false;
      profile, saved := [], [];
      replacements := [];
      if mode == ReplacementPrompts {
        messages := [Assistant(Welcome)];
        if existing.Some? && existing.value != [] {
          replacements := existing.value;
          messages := messages + [Assistant(FollowUp(|existing.value|))];
        }
      } else {
        messages := [Assistant(Question(0))];
      }
    }

    /** Typing in the box. */
    method SetInput(value: string)
      modifies this
      ensures Snapshot() == old(Snapshot()).(input := value)
    {
      input := value;
    }

    /** "Skip to Dashboard". */
    method Skip()
      modifies this
      ensures Snapshot() == old(Snapshot()).(finished := true)
    {
      finished := true;
    }

    /** `handleSendMessage(text)`. */
    method SendMessage(text: Option<string>, now: string)
      requires Valid()
      modifies this
      ensures Valid()
      ensures Snapshot() == Send(old(Snapshot()), MessageText(text, old(input)), now)
    {
      var t := MessageText(text, input);
      SendText(t, now);
    }

    /** `handleSendMessage` once its text is resolved. */
    method SendText(t: string, now: string)
      requires Valid()
      modifies this
      ensures Valid()
      ensures Snapshot() == Send(old(Snapshot()), t, now)
    {
      if t == "" {
        return;
      }
      ghost var before := Snapshot();
      messages := messages + [UserSays(t)];
      input := "";
      ghost var posted := Snapshot();
      SendPosted(before, posted, t, now);
      if mode == ReplacementPrompts {
        ReplacementKeepsStep(posted, t);
        ReplacementTurn(t);
      } else {
        StepForward(posted, t, now, false);
        StepTurn(t, now, false);
      }
    }

    /** `handleQuickReply(reply)`. */
    method QuickReplyClick(reply: string, now: string)
      requires Valid()
      modifies this
      ensures Valid()
      ensures Snapshot() == QuickReply(old(Snapshot()), reply, now)
    {
      var t := Trim(reply);
      if t == "" {
        return;
      }
      QuickReplyCases(Snapshot(), reply, now);
      if mode == ReplacementPrompts {
        SendText(t, now);
      } else {
        PostQuickReply(t, now);
      }
    }

    /** The quick reply posted outside the replacement mode: the box keeps its text and the
        answer is validated. */
    method PostQuickReply(t: string, now: string)
      requires Valid() && mode != ReplacementPrompts
      modifies this
      ensures Valid()
      ensures Snapshot() == StepReply(old(Snapshot()).(messages := old(messages) + [UserSays(t)]), t, now, true)
    {
      messages := messages + [UserSays(t)];
      ghost var posted := Snapshot();
      StepForward(posted, t, now, true);
      StepTurn(t, now, true);
    }

    /** The replacement-prompts branch of `handleSendMessage`. */
    method ReplacementTurn(t: string)
      modifies this
      ensures Snapshot() == ReplacementReply(old(Snapshot()), t)
    {
      ghost var c := Snapshot();
      if Trim(Lower(t)) in DONE_WORDS {
        messages := messages + [Assistant(Updated)];
        finished := true;
        assert Snapshot() == Say(c, Updated).(finished := true);
        return;
      }
      var v := ValidateReplacementActivity(t);
      ReplacementOutcome(v, t);
      assert Snapshot() == ReplacementAnswer(c, v, t);
    }

    /** A replacement-prompts message that is not a done word, once validated. */
    method ReplacementOutcome(v: ValidationResult, t: string)
      modifies this
      ensures Snapshot() == ReplacementAnswer(old(Snapshot()), v, t)
    {
      if !v.valid {
        messages := messages + [Assistant(ActivityRejected(v))];
        return;
      }
      var a := SanitizedOr(v, t);
      var reps := replacements + [a];
      replacements := reps;
      profile := profile + [ProfileUpdate("replacement_behaviors", Names(reps), false)];
      saved := saved + [ActivitiesUpdate(reps)];
      messages := messages + [Assistant(Saved(a, |reps|))];
    }

    /** The step switch of `handleSendMessage` and `handleQuickReply`. */
    method StepTurn(t: string, now: string, validate: bool)
      modifies this
      ensures Snapshot() == StepReply(old(Snapshot()), t, now, validate)
    {
      if step == CHALLENGE_STEP {
        ChallengeTurn(t);
      } else if step == WHY_STEP {
        WhyTurn(t, now);
      } else if step == REPLACEMENT_STEP {
        ActivityTurn(t, validate);
      } else if step == ENVIRONMENT_STEP {
        EnvironmentTurn(t, now);
      }
    }

    /** The common tail: the reply, then the next question or the end. */
    method Conclude(response: Line, nextStep: nat)
      modifies this
      ensures Snapshot() == Advance(old(Snapshot()), response, nextStep)
    {
      if nextStep < STEP_COUNT {
        step := nextStep;
        messages := messages + [Assistant(response), Assistant(Question(nextStep))];
      } else {
        messages := messages + [Assistant(response)];
        finished := true;
      }
    }

    method ChallengeTurn(t: string)
      modifies this
      ensures Snapshot() == ChallengeReply(old(Snapshot()), t)
    {
      challenge := Some(t);
      profile := profile + [ProfileUpdate("main_challenge", Text(t), false)];
      Conclude(ChallengeThanks, 1);
    }

    method WhyTurn(t: string, now: string)
      modifies this
      ensures Snapshot() == WhyReply(old(Snapshot()), t, now)
    {
      var v := ValidateWhyDocument(t);
      WhyOutcome(v, t, now);
    }

    method WhyOutcome(v: ValidationResult, t: string, now: string)
      modifies this
      ensures Snapshot() == WhyAnswer(old(Snapshot()), v, t, now)
    {
      if !v.valid {
        messages := messages + [Assistant(WhyRejected(v))];
        return;
      }
      var w := SanitizedOr(v, t);
      why := Some(w);
      profile := profile + [ProfileUpdate("why_document", Text(w), false)];
      saved := saved + [WhyUpdate(w, now)];
      Conclude(WhyThanks, 2);
    }

    method ActivityTurn(t: string, validate: bool)
      modifies this
      ensures Snapshot() == ActivityReply(old(Snapshot()), t, validate)
    {
      var v := ValidateReplacementActivity(t);
      ActivityOutcome(v, t, validate);
    }

    method ActivityOutcome(v: ValidationResult, t: string, validate: bool)
      modifies this
      ensures Snapshot() == ActivityAnswer(old(Snapshot()), v, t, validate)
    {
      if validate && !v.valid {
        messages := messages + [Assistant(ActivityRejected(v))];
        return;
      }
      var reps := replacements + [if validate then SanitizedOr(v, t) else t];
      replacements := reps;
      if |reps| < REPLACEMENTS_WANTED {
        Conclude(Progress(|reps|), 2);
      } else {
        profile := profile + [ProfileUpdate("replacement_behaviors", Names(reps), false)];
        saved := saved + [ActivitiesUpdate(reps)];
        Conclude(FiveThanks, 3);
      }
    }

    method EnvironmentTurn(t: string, now: string)
      modifies this
      ensures Snapshot() == EnvironmentReply(old(Snapshot()), t, now)
    {
      environment := Some(t);
      var done := EnvironmentDone(t);
      profile := profile + [ProfileUpdate("environment_reset", Text(if done then "completed" else "pending"), true),
                            ProfileUpdate("personalization_status", Text("completed"), true)];
      saved := saved + [EnvironmentUpdate(done, now)];
      Conclude(EnvironmentThanks, STEP_COUNT);
    }
  }
}
