/**
 * The dashboard's derived values and its two overlays. The onboarding state is re-read
 * whenever the panic flow is not open; the days since onboarding, the number of panic uses
 * and the last three logs are computed from it; the body shows only when neither the panic
 * flow nor the chat is open.
 *
 * The clock (`now`, in milliseconds), the parse of the stored completion date and the
 * local time-of-day text of a log are inputs.
 */
module Dashboard {
  import opened Wrappers
  import opened JsText
  import opened Onboarding

  const DAY_MS: nat := 1000 * 60 * 60 * 24

  /** `daysSinceOnboarding`: `parsed` is the completion date's time, `None` when the date
      does not parse. */
  function DaysSince(state: Option<OnboardingState>, parsed: Option<int>, now: int): (r: nat)
    ensures state.None? || state.value.userSettings.onboardingCompletedAt.None? ==> r == 0
    ensures state.Some? && state.value.userSettings.onboardingCompletedAt == Some("") ==> r == 0
    ensures parsed.None? ==> r == 0
    ensures r > 0 ==> parsed.Some? && r * DAY_MS <= now - parsed.value < (r + 1) * DAY_MS
  {
    if state.None? then 0
    else
      var at := state.value.userSettings.onboardingCompletedAt;
      if at.None? || at.value == "" then 0
      else if parsed.None? then 0
      else
        var days := (now - parsed.value) / DAY_MS;
        if days < 0 then 0 else days
  }

  /** When the date is known and not in the future, the count is the number of whole days
      elapsed since it. */
  lemma DaysSinceWhole(state: OnboardingState, t: int, now: int)
    requires state.userSettings.onboardingCompletedAt.Some? && state.userSettings.onboardingCompletedAt.value != ""
    requires t <= now
    ensures var d := DaysSince(Some(state), Some(t), now);
            d * DAY_MS <= now - t < (d + 1) * DAY_MS
  {
  }

  /** A date after `now` counts as day zero. */
  lemma DaysSinceFuture(state: OnboardingState, t: int, now: int)
    requires now < t
    ensures DaysSince(Some(state), Some(t), now) == 0
  {
  }

  /** `panicUses`. */
  function PanicUses(state: Option<OnboardingState>): (r: nat)
    ensures state.Some? ==> r == |state.value.triggerLogs|
    ensures state.None? ==> r == 0
  {
    if state.None? then 0 else |state.value.triggerLogs|
  }

  /** `logs.slice(-3)`. */
  function LastThree<T>(logs: seq<T>): (r: seq<T>)
    ensures |r| == if |logs| < 3 then |logs| else 3
    ensures forall i :: 0 <= i < |r| ==> r[i] == logs[|logs| - |r| + i]
  {
    if |logs| <= 3 then logs else logs[|logs| - 3..]
  }

  /** The last three are a suffix of the log list: the most recent entries, in their order. */
  lemma LastThreeSuffix<T>(logs: seq<T>, entry: T)
    ensures logs == logs[..|logs| - |LastThree(logs)|] + LastThree(logs)
    ensures LastThree(logs + [entry])[|LastThree(logs + [entry])| - 1] == entry
  {
  }

  /** One insight card. */
  datatype Insight = Insight(intensity: int, emotion: string, timeOfDay: string)

  /** `patternInsights`; `timeOfDay` gives a log's local time text, or `Unknown`. */
  function Insights(state: Option<OnboardingState>, timeOfDay: TriggerLog -> string): (r: seq<Insight>)
    ensures var recent := RecentActivity(state);
            |r| == |recent|
            && forall i :: 0 <= i < |r| ==>
                 r[i] == Insight(recent[i].intensity, recent[i].emotion, timeOfDay(recent[i]))
  {
    var recent := RecentActivity(state);
    seq(|recent|, i requires 0 <= i < |recent| => Insight(recent[i].intensity, recent[i].emotion, timeOfDay(recent[i])))
  }

  /** `recentActivity`. */
  function RecentActivity(state: Option<OnboardingState>): (r: seq<TriggerLog>)
    ensures state.None? ==> r == []
    ensures state.Some? ==> r == LastThree(state.value.triggerLogs)
  {
    if state.None? then [] else LastThree(state.value.triggerLogs)
  }

  /** `day` or `days`, `time` or `times`: the plural unless the count is exactly one. */
  function Counted(n: nat, noun: string): (r: string)
    ensures r == NatToDecimal(n) + " " + noun || r == NatToDecimal(n) + " " + noun + "s"
    ensures (r == NatToDecimal(n) + " " + noun) <==> n == 1
  {
    NatToDecimal(n) + " " + noun + (if n != 1 then "s" else "")
  }

  /** The usage lines: none before the first day; the panic line only once it was used. */
  function UsageLines(days: nat, uses: nat): (r: seq<string>)
    ensures days == 0 <==> r == []
    ensures days > 0 ==> r[0] == "You've been using UrgeEase for " + Counted(days, "day")
    ensures days > 0 ==> (|r| == 2 <==> uses > 0) && |r| <= 2
    ensures |r| == 2 ==> r[1] == "You've used the panic button " + Counted(uses, "time")
  {
    if days == 0 then []
    else
      ["You've been using UrgeEase for " + Counted(days, "day")]
      + (if uses > 0 then ["You've used the panic button " + Counted(uses, "time")] else [])
  }

  // ---------------------------------------------------------------- the overlays

  /** The page's state. */
  datatype Page = Page(state: Option<OnboardingState>, panicOpen: bool, chatOpen: bool)

  /** The re-read effect, run on mount and whenever the panic flag changes; `stored` is what
      reading the storage gives, `None` when the read throws. */
  function Refresh(p: Page, stored: Option<OnboardingState>): Page {
    if p.panicOpen then p else p.(state := stored)
  }

  function OpenPanic(p: Page): Page {
    p.(panicOpen := true)
  }

  /** Closing the panic flow shows the page again with a fresh read. */
  function ClosePanic(p: Page, stored: Option<OnboardingState>): Page {
    Refresh(p.(panicOpen := false), stored)
  }

  function OpenChat(p: Page): Page {
    p.(chatOpen := true)
  }

  /** The chat's `onComplete`. */
  function CloseChat(p: Page): Page {
    p.(chatOpen := false)
  }

  /** The chat's panic button: the chat closes and the panic flow opens. */
  function PanicFromChat(p: Page): Page {
    p.(chatOpen := false, panicOpen := true)
  }

  predicate ShowsBody(p: Page) {
    !p.panicOpen && !p.chatOpen
  }

  /** The chat's panic button swaps the chat for the panic flow, keeping the state read
      before; closing the flow then shows the body with the state just read. */
  lemma PanicFromChatThenClose(p: Page, stored: Option<OnboardingState>)
    requires p.chatOpen && !p.panicOpen
    ensures var q := PanicFromChat(p);
            q.panicOpen && !q.chatOpen && !ShowsBody(q) && q.state == p.state
            && Refresh(q, stored) == q
    ensures ShowsBody(ClosePanic(PanicFromChat(p), stored))
            && ClosePanic(PanicFromChat(p), stored).state == stored
  {
  }

  /** While the panic flow is open the state is not re-read, so the counts the page shows
      afterwards come from the read made on closing. */
  lemma CountsAfterPanic(p: Page, during: Option<OnboardingState>, after: Option<OnboardingState>)
    requires !p.chatOpen
    ensures Refresh(OpenPanic(p), during).state == p.state
    ensures PanicUses(ClosePanic(OpenPanic(p), after).state) == PanicUses(after)
  {
  }
}
