/**
 * The persisted onboarding state: its record types, the default state, the overlay of a
 * partial state (a shallow spread with three nested spreads), the append-only trigger log,
 * and the reads and writes that go through the obfuscated storage.
 *
 * A partial state gives a value for each key it holds: `Some(v)` is a key present with value
 * `v`, `None` a key absent. A nested record that is absent, or `undefined`, spreads nothing.
 */
module Onboarding {
  import opened Wrappers
  import opened Base64
  import opened Encryption

  datatype BehaviorType = Phone | Scrolling | Gaming | OtherBehavior

  /** `UserSettingsState`: every field may be undefined. */
  datatype UserSettings = UserSettings(
    behaviorType: Option<BehaviorType>,
    behaviorLabel: Option<string>,
    onboardingCompleted: Option<bool>,
    onboardingCompletedAt: Option<string>,
    disclaimerAccepted: Option<bool>)

  /** `WhyDocument`; `lastShownAt` is `None` when undefined or `null`. */
  datatype WhyDocument = WhyDocument(text: string, createdAt: Option<string>, lastShownAt: Option<string>)

  datatype Category = Physical | Cognitive | Social

  datatype ReplacementActivity = ReplacementActivity(id: int, category: Category, name: string)

  datatype EnvironmentReset = EnvironmentReset(completed: bool, completedAt: Option<string>)

  datatype Halt = Hungry | Angry | Lonely | Tired | Bored

  datatype Location = Home | Work | Bed | OtherLocation

  datatype Outcome = Succeeded | Lapsed

  /** `TriggerLog`: one logged urge. */
  datatype TriggerLog = TriggerLog(
    timestamp: int,
    intensity: int,
    emotion: string,
    whatHelped: string,
    notes: Option<string>,
    halt: Option<seq<Halt>>,
    location: Option<Location>,
    precursorEvent: Option<string>,
    outcome: Option<Outcome>,
    methodUsed: Option<string>)

  datatype OnboardingState = OnboardingState(
    userSettings: UserSettings,
    whyDocument: WhyDocument,
    replacementActivities: seq<ReplacementActivity>,
    environmentReset: EnvironmentReset,
    triggerLogs: seq<TriggerLog>)

  /** Partial records, for spreading. */
  datatype PartialUserSettings = PartialUserSettings(
    behaviorType: Option<Option<BehaviorType>>,
    behaviorLabel: Option<Option<string>>,
    onboardingCompleted: Option<Option<bool>>,
    onboardingCompletedAt: Option<Option<string>>,
    disclaimerAccepted: Option<Option<bool>>)

  datatype PartialWhyDocument = PartialWhyDocument(
    text: Option<string>, createdAt: Option<Option<string>>, lastShownAt: Option<Option<string>>)

  datatype PartialEnvironmentReset = PartialEnvironmentReset(completed: Option<bool>, completedAt: Option<Option<string>>)

  datatype PartialState = PartialState(
    userSettings: Option<PartialUserSettings>,
    whyDocument: Option<PartialWhyDocument>,
    replacementActivities: Option<seq<ReplacementActivity>>,
    environmentReset: Option<PartialEnvironmentReset>,
    triggerLogs: Option<seq<TriggerLog>>)

  const EMPTY_PARTIAL := PartialState(None, None, None, None, None)

  /** `defaultState`. */
  const DEFAULT_STATE := OnboardingState(
    UserSettings(None, None, Some(false), None, Some(false)),
    WhyDocument("", None, None),
    [],
    EnvironmentReset(false, None),
    [])

  /** The default state has nothing done and nothing recorded. */
  lemma DefaultStateShape()
    ensures DEFAULT_STATE.userSettings.onboardingCompleted == Some(false)
    ensures DEFAULT_STATE.userSettings.disclaimerAccepted == Some(false)
    ensures DEFAULT_STATE.whyDocument.text == "" && DEFAULT_STATE.whyDocument.lastShownAt.None?
    ensures DEFAULT_STATE.replacementActivities == [] && DEFAULT_STATE.triggerLogs == []
    ensures !DEFAULT_STATE.environmentReset.completed
  {
  }

  /** `{...current, ...given}` for one key. */
  function Spread<T>(current: T, given: Option<T>): (r: T)
    ensures given.Some? ==> r == given.value
    ensures given.None? ==> r == current
  {
    match given
    case Some(v) => v
    case None => current
  }

  function MergeUserSettings(current: UserSettings, given: Option<PartialUserSettings>): UserSettings {
    match given
    case None => current
    case Some(p) =>
      UserSettings(
        Spread(current.behaviorType, p.behaviorType),
        Spread(current.behaviorLabel, p.behaviorLabel),
        Spread(current.onboardingCompleted, p.onboardingCompleted),
        Spread(current.onboardingCompletedAt, p.onboardingCompletedAt),
        Spread(current.disclaimerAccepted, p.disclaimerAccepted))
  }

  function MergeWhyDocument(current: WhyDocument, given: Option<PartialWhyDocument>): WhyDocument {
    match given
    case None => current
    case Some(p) =>
      WhyDocument(Spread(current.text, p.text), Spread(current.createdAt, p.createdAt), Spread(current.lastShownAt, p.lastShownAt))
  }

  function MergeEnvironmentReset(current: EnvironmentReset, given: Option<PartialEnvironmentReset>): EnvironmentReset {
    match given
    case None => current
    case Some(p) => EnvironmentReset(Spread(current.completed, p.completed), Spread(current.completedAt, p.completedAt))
  }

  /** The overlay both `safeParse` and `updateOnboardingState` perform: the lists are replaced
      wholesale, the three nested records are merged key by key. */
  function Merge(current: OnboardingState, partial: PartialState): OnboardingState {
    OnboardingState(
      MergeUserSettings(current.userSettings, partial.userSettings),
      MergeWhyDocument(current.whyDocument, partial.whyDocument),
      Spread(current.replacementActivities, partial.replacementActivities),
      MergeEnvironmentReset(current.environmentReset, partial.environmentReset),
      Spread(current.triggerLogs, partial.triggerLogs))
  }

  /** What the overlay does, key by key: a given list replaces the current one, an absent key
      keeps the current value, and a nested key the partial does not give survives. */
  lemma MergeEffect(current: OnboardingState, partial: PartialState)
    ensures var m := Merge(current, partial);
            (partial.triggerLogs.Some? ==> m.triggerLogs == partial.triggerLogs.value)
            && (partial.triggerLogs.None? ==> m.triggerLogs == current.triggerLogs)
            && (partial.replacementActivities.Some? ==> m.replacementActivities == partial.replacementActivities.value)
            && (partial.replacementActivities.None? ==> m.replacementActivities == current.replacementActivities)
            && (partial.userSettings.None? ==> m.userSettings == current.userSettings)
            && (partial.whyDocument.None? ==> m.whyDocument == current.whyDocument)
            && (partial.environmentReset.None? ==> m.environmentReset == current.environmentReset)
            && (partial.whyDocument.Some? && partial.whyDocument.value.text.None? ==> m.whyDocument.text == current.whyDocument.text)
            && (partial.whyDocument.Some? && partial.whyDocument.value.text.Some? ==> m.whyDocument.text == partial.whyDocument.value.text.value)
            && (partial.userSettings.Some? && partial.userSettings.value.onboardingCompleted.None? ==>
                  m.userSettings.onboardingCompleted == current.userSettings.onboardingCompleted)
            && (partial.environmentReset.Some? && partial.environmentReset.value.completed.None? ==>
                  m.environmentReset.completed == current.environmentReset.completed)
  {
  }

  /** Overlaying the empty partial changes nothing. */
  lemma MergeEmpty(current: OnboardingState)
    ensures Merge(current, EMPTY_PARTIAL) == current
  {
  }

  /** Overlaying the same partial twice is the same as once. */
  lemma MergeIdempotent(current: OnboardingState, partial: PartialState)
    ensures Merge(Merge(current, partial), partial) == Merge(current, partial)
  {
  }

  /** Every key of a state, as a partial. */
  function AsPartial(s: OnboardingState): PartialState {
    var u := s.userSettings;
    var w := s.whyDocument;
    var e := s.environmentReset;
    PartialState(
      Some(PartialUserSettings(Some(u.behaviorType), Some(u.behaviorLabel), Some(u.onboardingCompleted),
                               Some(u.onboardingCompletedAt), Some(u.disclaimerAccepted))),
      Some(PartialWhyDocument(Some(w.text), Some(w.createdAt), Some(w.lastShownAt))),
      Some(s.replacementActivities),
      Some(PartialEnvironmentReset(Some(e.completed), Some(e.completedAt))),
      Some(s.triggerLogs))
  }

  /** A partial holding every key replaces the whole state: a saved state parses back to
      itself over the defaults. */
  lemma MergeComplete(current: OnboardingState, s: OnboardingState)
    ensures Merge(current, AsPartial(s)) == s
  {
  }

  /** `safeParse(value)`. `decode` is `JSON.parse` read as a partial state: `None` when it
      throws, or when it yields `null` (whose `userSettings` read throws too); a JSON value
      that is not an object spreads no state key. */
  function SafeParse(value: Option<seq<Unit>>, decode: seq<Unit> -> Option<PartialState>): (r: OnboardingState)
    ensures value.None? || value == Some([]) ==> r == DEFAULT_STATE
    ensures value.Some? && value.value != [] && decode(value.value).None? ==> r == DEFAULT_STATE
    ensures value.Some? && value.value != [] && decode(value.value).Some? ==>
              r == Merge(DEFAULT_STATE, decode(value.value).value)
  {
    match value
    case None => DEFAULT_STATE
    case Some(v) =>
      if v == [] then DEFAULT_STATE
      else
        match decode(v)
        case None => DEFAULT_STATE
        case Some(p) => Merge(DEFAULT_STATE, p)
  }

  /** Parsing a stored serialisation that decodes to every key of a state gives that state. */
  lemma SafeParseRoundTrip(text: seq<Unit>, decode: seq<Unit> -> Option<PartialState>, s: OnboardingState)
    requires text != [] && decode(text) == Some(AsPartial(s))
    ensures SafeParse(Some(text), decode) == s
  {
    MergeComplete(DEFAULT_STATE, s);
  }

  /** The text `readOnboardingState` hands to `safeParse`: the storage wrapper's value, or,
      when that is `null` or empty, the raw item. */
  function StoredText(items: map<string, seq<Unit>>, key: string, env: KeyEnvironment): (r: Option<seq<Unit>>)
    ensures key !in items ==> r.None?
  {
    match StoredValue(StorageItem(items, key), env)
    case Some(v) => if v != [] then Some(v) else StorageItem(items, key)
    case None => StorageItem(items, key)
  }

  /** `readOnboardingState()`. Off the browser it is the default state. */
  method ReadOnboardingState(storage: LocalStorage, key: string, inBrowser: bool, env: KeyEnvironment,
                             decode: seq<Unit> -> Option<PartialState>)
    returns (s: OnboardingState)
    ensures !inBrowser ==> s == DEFAULT_STATE
    ensures inBrowser ==> s == SafeParse(StoredText(storage.items, key, env), decode)
  {
    if !inBrowser {
      return DEFAULT_STATE;
    }
    var stored := storage.ReadEncryptedStorage(key, inBrowser, env);
    if stored.Some? && stored.value != [] {
      s := SafeParse(stored, decode);
    } else {
      s := SafeParse(StorageItem(storage.items, key), decode);
    }
  }

  /** `saveOnboardingState(state)`: returns `state` on every path. The obfuscated write is
      tried first; only when it reports failure is the plain serialisation written, and
      `plainQuotaExceeded` is `setItem` throwing there. */
  method SaveOnboardingState(storage: LocalStorage, key: string, state: OnboardingState, serialized: seq<Unit>,
                             inBrowser: bool, env: KeyEnvironment, quotaExceeded: bool, plainQuotaExceeded: bool)
    returns (r: OnboardingState)
    modifies storage
    ensures r == state
    ensures !inBrowser ==> storage.items == old(storage.items)
    ensures inBrowser && !quotaExceeded ==> storage.items == old(storage.items)[key := EncryptedOrPlain(serialized, env)]
    ensures inBrowser && quotaExceeded && !plainQuotaExceeded ==> storage.items == old(storage.items)[key := serialized]
    ensures inBrowser && quotaExceeded && plainQuotaExceeded ==> storage.items == old(storage.items)
  {
    if !inBrowser {
      return state;
    }
    var ok := storage.WriteEncryptedStorage(key, serialized, inBrowser, env, quotaExceeded);
    if !ok && !plainQuotaExceeded {
      storage.items := storage.items[key := serialized];
    }
    return state;
  }

  /** `updateOnboardingState(partial)`: the stored state with the partial overlaid, saved
      under the same four write outcomes as `saveOnboardingState`. */
  method UpdateOnboardingState(storage: LocalStorage, key: string, partial: PartialState, inBrowser: bool,
                               env: KeyEnvironment, decode: seq<Unit> -> Option<PartialState>,
                               serialize: OnboardingState -> seq<Unit>, quotaExceeded: bool, plainQuotaExceeded: bool)
    returns (r: OnboardingState)
    modifies storage
    ensures r == Merge(if inBrowser then SafeParse(StoredText(old(storage.items), key, env), decode) else DEFAULT_STATE, partial)
    ensures !inBrowser ==> storage.items == old(storage.items)
    ensures inBrowser && !quotaExceeded ==> storage.items == old(storage.items)[key := EncryptedOrPlain(serialize(r), env)]
    ensures inBrowser && quotaExceeded && !plainQuotaExceeded ==> storage.items == old(storage.items)[key := serialize(r)]
    ensures inBrowser && quotaExceeded && plainQuotaExceeded ==> storage.items == old(storage.items)
  {
    var current := ReadOnboardingState(storage, key, inBrowser, env, decode);
    var merged := Merge(current, partial);
    r := SaveOnboardingState(storage, key, merged, serialize(merged), inBrowser, env, quotaExceeded, plainQuotaExceeded);
  }

  /** `{...current, triggerLogs: [...current.triggerLogs, entry]}`. */
  function WithTriggerLog(current: OnboardingState, entry: TriggerLog): (r: OnboardingState)
    ensures r.triggerLogs == current.triggerLogs + [entry] && |r.triggerLogs| == |current.triggerLogs| + 1
    ensures r.userSettings == current.userSettings && r.whyDocument == current.whyDocument
    ensures r.replacementActivities == current.replacementActivities && r.environmentReset == current.environmentReset
  {
    current.(triggerLogs := current.triggerLogs + [entry])
  }

  /** Appending is an overlay of the extended list, and earlier entries keep their places. */
  lemma AppendIsOverlay(current: OnboardingState, entry: TriggerLog)
    ensures WithTriggerLog(current, entry) == Merge(current, EMPTY_PARTIAL.(triggerLogs := Some(current.triggerLogs + [entry])))
    ensures forall i :: 0 <= i < |current.triggerLogs| ==> WithTriggerLog(current, entry).triggerLogs[i] == current.triggerLogs[i]
  {
  }

  /** `appendTriggerLog(entry)`: the stored state with the entry appended, saved under the
      same four write outcomes as `saveOnboardingState`. */
  method AppendTriggerLog(storage: LocalStorage, key: string, entry: TriggerLog, inBrowser: bool,
                          env: KeyEnvironment, decode: seq<Unit> -> Option<PartialState>,
                          serialize: OnboardingState -> seq<Unit>, quotaExceeded: bool, plainQuotaExceeded: bool)
    returns (r: OnboardingState)
    modifies storage
    ensures r == WithTriggerLog(if inBrowser then SafeParse(StoredText(old(storage.items), key, env), decode) else DEFAULT_STATE, entry)
    ensures !inBrowser ==> storage.items == old(storage.items)
    ensures inBrowser && !quotaExceeded ==> storage.items == old(storage.items)[key := EncryptedOrPlain(serialize(r), env)]
    ensures inBrowser && quotaExceeded && !plainQuotaExceeded ==> storage.items == old(storage.items)[key := serialize(r)]
    ensures inBrowser && quotaExceeded && plainQuotaExceeded ==> storage.items == old(storage.items)
  {
    var current := ReadOnboardingState(storage, key, inBrowser, env, decode);
    var next := WithTriggerLog(current, entry);
    r := SaveOnboardingState(storage, key, next, serialize(next), inBrowser, env, quotaExceeded, plainQuotaExceeded);
  }

  /** The saved list: ids 1..n in list order, every one physical. */
  function Activities(names: seq<string>): (r: seq<ReplacementActivity>)
    ensures |r| == |names|
    ensures forall i :: 0 <= i < |names| ==> r[i] == ReplacementActivity(i + 1, Physical, names[i])
  {
    seq(|names|, i requires 0 <= i < |names| => ReplacementActivity(i + 1, Physical, names[i]))
  }

  /** The overlay written when a why text is saved: the text, created `now`, never shown. */
  function WhyUpdate(text: string, now: string): PartialState {
    EMPTY_PARTIAL.(whyDocument := Some(PartialWhyDocument(Some(text), Some(Some(now)), Some(None))))
  }

  /** The overlay written when the activity list is saved: the whole list, replaced. */
  function ActivitiesUpdate(names: seq<string>): PartialState {
    EMPTY_PARTIAL.(replacementActivities := Some(Activities(names)))
  }

  /** Overlaying a saved list replaces the activities with ids 1..n, one per name. */
  lemma ActivitiesUpdateEffect(s: OnboardingState, names: seq<string>)
    ensures var m := Merge(s, ActivitiesUpdate(names));
            |m.replacementActivities| == |names|
            && (forall i :: 0 <= i < |names| ==>
                  (m.replacementActivities[i].id == i + 1 && m.replacementActivities[i].name == names[i]
                   && m.replacementActivities[i].category == Physical))
            && m.userSettings == s.userSettings && m.whyDocument == s.whyDocument
  {
  }

  /** Overlaying a saved why text sets the document to that text, created `now` and never
      shown, and leaves everything else as it was. */
  lemma WhyUpdateEffect(s: OnboardingState, text: string, now: string)
    ensures var m := Merge(s, WhyUpdate(text, now));
            m.whyDocument == WhyDocument(text, Some(now), None)
            && m.userSettings == s.userSettings && m.replacementActivities == s.replacementActivities
            && m.environmentReset == s.environmentReset && m.triggerLogs == s.triggerLogs
  {
  }
}
