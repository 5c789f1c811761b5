/**
 * The settings page: the "why" text and the replacement-activity list, edited locally and
 * written to the user's profile, with each failed write reverting the local copy; the
 * privacy toggle; and the two-stage account deletion gated on typing `DELETE`.
 *
 * Each remote call is an input (`Remote`): it succeeds, returns an error, or throws. The
 * profile writes the page sends and the onboarding-state overlays it saves are recorded in
 * order, as are the alerts it shows; `now` is the timestamp text. Each handler is modelled
 * as one step: the awaited calls and the state updates around them happen within it.
 */
module SettingsPage {
  import opened Wrappers
  import opened JsText
  import opened Validation
  import opened Onboarding

  /** How an awaited remote call ended. */
  datatype Remote = RemoteOk | RemoteError | RemoteThrew

  /** One call to the profile table. */
  datatype ProfileWrite = WhyWrite(text: string) | ListWrite(names: seq<string>) | DeleteUser

  /** What `JSON.parse` made of the stored activity list. */
  datatype Parsed = NotJson | NotArray | JsonArray(items: seq<string>)

  const VALIDATION_FAILED := "Please check your input and try again."
  const SAVE_SUCCESS := "Saved successfully!"
  const SAVE_FAILED := "Failed to save. Please try again."
  const UPDATE_FAILED := "Failed to update. Please try again."
  const DELETE_FAILED := "Failed to delete. Please try again."
  const ACCOUNT_DELETE_FAILED := "Failed to delete account. Please contact support."
  const DELETE_WORD := "DELETE"

  /** The page's state. `maxActivities` is `EXERCISE.REPLACEMENT_ACTIVITIES_MAX`, whose value
      lives outside this model; `storedPrivacy` is what the page last wrote under the privacy
      key; `onboardingRemoved` records that the local onboarding store was removed, and
      `signedOut` the end of a successful deletion. */
  datatype Page = Page(
    signedIn: bool,
    maxActivities: nat,
    why: string,
    replacements: seq<string>,
    privacyMode: bool,
    loading: bool,
    showDeleteConfirm: bool,
    showDeleteFinal: bool,
    deleteInput: string,
    alerts: seq<string>,
    writes: seq<ProfileWrite>,
    saved: seq<PartialState>,
    storedPrivacy: Option<string>,
    onboardingRemoved: bool,
    signedOut: bool)

  // ---------------------------------------------------------------- list edits

  /** `list.filter((_, i) => i !== index)`. */
  function RemoveAt(s: seq<string>, index: int): (r: seq<string>)
    ensures 0 <= index < |s| ==> |r| == |s| - 1
    ensures !(0 <= index < |s|) ==> r == s
    ensures 0 <= index < |s| ==> forall j :: 0 <= j < |r| ==> r[j] == if j < index then s[j] else s[j + 1]
  {
    if 0 <= index < |s| then s[..index] + s[index + 1..] else s
  }

  /** Removing an entry takes exactly that occurrence out and keeps the rest in order: the
      removed entry and the result make up the original list. */
  lemma RemoveAtPermutation(s: seq<string>, index: int)
    requires 0 <= index < |s|
    ensures multiset(RemoveAt(s, index)) + multiset{s[index]} == multiset(s)
    ensures RemoveAt(s, index)[..index] == s[..index] && RemoveAt(s, index)[index..] == s[index + 1..]
  {
    assert s == s[..index] + [s[index]] + s[index + 1..];
  }

  /** The names of the locally saved activities, in order. */
  function ActivityNames(acts: seq<ReplacementActivity>): (r: seq<string>)
    ensures |r| == |acts| && forall i :: 0 <= i < |acts| ==> r[i] == acts[i].name
  {
    seq(|acts|, i requires 0 <= i < |acts| => acts[i].name)
  }

  /** The saved overlay of a list brings its names back. */
  lemma ActivityNamesRoundTrip(s: OnboardingState, names: seq<string>)
    ensures ActivityNames(Merge(s, ActivitiesUpdate(names)).replacementActivities) == names
  {
    ActivitiesUpdateEffect(s, names);
  }

  // ---------------------------------------------------------------- loading

  /** The why text after loading: the remote `why_document` when it is non-empty, else the
      local why text when non-empty, else what the page held. */
  function LoadedWhy(remote: Option<string>, local: OnboardingState, current: string): (r: string)
    ensures remote.Some? && remote.value != "" ==> r == remote.value
    ensures (remote.None? || remote.value == "") && local.whyDocument.text != "" ==> r == local.whyDocument.text
    ensures (remote.None? || remote.value == "") && local.whyDocument.text == "" ==> r == current
  {
    if remote.Some? && remote.value != "" then remote.value
    else if local.whyDocument.text != "" then local.whyDocument.text
    else current
  }

  /** The list after loading: the remote text's array when it holds a non-empty text that
      parses to one, nothing new when it holds a text that does not, and, when it holds
      none, the local activity names if there are any. */
  function LoadedList(remote: Option<string>, parsed: Parsed, local: OnboardingState, current: seq<string>): (r: seq<string>)
    ensures remote.Some? && remote.value != "" ==> r == (if parsed.JsonArray? then parsed.items else current)
    ensures (remote.None? || remote.value == "") && local.replacementActivities != [] ==>
              r == ActivityNames(local.replacementActivities)
    ensures (remote.None? || remote.value == "") && local.replacementActivities == [] ==> r == current
  {
    if remote.Some? && remote.value != "" then
      if parsed.JsonArray? then parsed.items else current
    else if |local.replacementActivities| > 0 then ActivityNames(local.replacementActivities)
    else current
  }

  /** `loadSettings()` for a signed-in user; `parsed` is what the stored list text parses
      to, and `privacy` the stored privacy flag text. */
  function Load(p: Page, remoteWhy: Option<string>, remoteList: Option<string>, parsed: Parsed,
                local: OnboardingState, privacy: Option<string>): Page
  {
    if !p.signedIn then p
    else
      p.(why := LoadedWhy(remoteWhy, local, p.why),
         replacements := LoadedList(remoteList, parsed, local, p.replacements),
         privacyMode := privacy == Some("true"),
         loading := false)
  }

  /** Loading touches only the text, the list, the privacy flag and the loading flag, and the
      privacy mode is on exactly when `"true"` was stored. */
  lemma LoadEffect(p: Page, remoteWhy: Option<string>, remoteList: Option<string>, parsed: Parsed,
                   local: OnboardingState, privacy: Option<string>)
    requires p.signedIn
    ensures var r := Load(p, remoteWhy, remoteList, parsed, local, privacy);
            (r.privacyMode <==> privacy == Some("true")) && !r.loading
            && r == p.(why := r.why, replacements := r.replacements, privacyMode := r.privacyMode, loading := false)
  {
  }

  // ---------------------------------------------------------------- the why text

  /** `handleSaveWhy()`. */
  function SaveWhy(p: Page, remote: Remote, now: string): Page {
    if !p.signedIn then p else SaveWhyAnswer(p, ValidateWhyDocument(p.why), remote, now)
  }

  /** The save, given the validation result `v` of the current text. A returned error is
      thrown, so both failures restore the text the save started from. */
  function SaveWhyAnswer(p: Page, v: ValidationResult, remote: Remote, now: string): Page {
    if !v.valid then p.(alerts := p.alerts + [ErrorText(v, VALIDATION_FAILED)])
    else
      var w := SanitizedOr(v, p.why);
      var sent := p.(writes := p.writes + [WhyWrite(w)]);
      if remote == RemoteOk then sent.(saved := p.saved + [WhyUpdate(w, now)], alerts := p.alerts + [SAVE_SUCCESS], why := w)
      else sent.(alerts := p.alerts + [SAVE_FAILED], why := p.why)
  }

  /** Invalid text is neither written nor saved; valid text is written sanitised, and the
      page shows and saves it exactly when the write succeeds, keeping its text otherwise. */
  lemma SaveWhyCases(p: Page, remote: Remote, now: string)
    requires p.signedIn
    ensures var v := ValidateWhyDocument(p.why);
            var r := SaveWhy(p, remote, now);
            (!v.valid ==> r.writes == p.writes && r.saved == p.saved && r.why == p.why)
            && (v.valid ==> r.writes == p.writes + [WhyWrite(v.sanitized.value)])
            && (v.valid && remote == RemoteOk ==>
                  r.why == v.sanitized.value && r.saved == p.saved + [WhyUpdate(v.sanitized.value, now)])
            && (v.valid && remote != RemoteOk ==> r.why == p.why && r.saved == p.saved)
            && r.replacements == p.replacements
  {
    var v := ValidateWhyDocument(p.why);
    if v.valid {
      WhyDocumentRule(p.why);
      assert |v.sanitized.value| >= 10;
    }
  }

  // ---------------------------------------------------------------- one activity

  /** The entry's input changing: the typed text is stored at once. */
  function Edit(p: Page, index: nat, value: string): Page
    requires index < |p.replacements|
  {
    p.(replacements := p.replacements[index := value])
  }

  /** `handleUpdateReplacement(index, value)`, run when the entry loses focus. */
  function Blur(p: Page, index: nat, value: string, remote: Remote): Page
    requires index < |p.replacements|
  {
    if !p.signedIn then p
    else
      var t := Trim(value);
      if t == "" then
        var updated := RemoveAt(p.replacements, index);
        p.(writes := p.writes + [ListWrite(updated)],
           replacements := if remote == RemoteThrew then p.replacements else updated)
      else BlurAnswer(p, index, ValidateReplacementActivity(t), t, remote)
  }

  /** A non-blank entry, given the validation result `v` of its trimmed text `t`. Putting
      the entry's current value back at its own index leaves the list as it is. */
  function BlurAnswer(p: Page, index: nat, v: ValidationResult, t: string, remote: Remote): Page
    requires index < |p.replacements|
  {
    if !v.valid then
      p.(alerts := p.alerts + [ErrorText(v, VALIDATION_FAILED)], replacements := p.replacements[index := p.replacements[index]])
    else
      var updated := p.replacements[index := SanitizedOr(v, t)];
      var sent := p.(writes := p.writes + [ListWrite(updated)]);
      if remote == RemoteOk then sent.(replacements := updated, saved := p.saved + [ActivitiesUpdate(updated)])
      else sent.(replacements := p.replacements, alerts := p.alerts + [UPDATE_FAILED])
  }

  /** A blank entry is removed, keeping the others in order, and the shorter list is written;
      nothing is saved locally and only a thrown write puts the entry back. */
  lemma BlurBlank(p: Page, index: nat, value: string, remote: Remote)
    requires p.signedIn && index < |p.replacements| && Trim(value) == ""
    ensures var r := Blur(p, index, value, remote);
            r.writes == p.writes + [ListWrite(RemoveAt(p.replacements, index))]
            && r.saved == p.saved
            && r.replacements == (if remote == RemoteThrew then p.replacements else RemoveAt(p.replacements, index))
  {
  }

  /** Invalid text changes no entry and writes nothing; valid text replaces exactly the
      entry at `index`, sanitised, and is kept and saved exactly when the write succeeds. */
  lemma BlurText(p: Page, index: nat, value: string, remote: Remote)
    requires p.signedIn && index < |p.replacements| && Trim(value) != ""
    ensures var v := ValidateReplacementActivity(Trim(value));
            var r := Blur(p, index, value, remote);
            (!v.valid ==> r.replacements == p.replacements && r.writes == p.writes && r.saved == p.saved)
            && (v.valid && remote == RemoteOk ==>
                  |r.replacements| == |p.replacements| && r.replacements[index] == v.sanitized.value
                  && (forall j :: 0 <= j < |p.replacements| && j != index ==> r.replacements[j] == p.replacements[j])
                  && r.saved == p.saved + [ActivitiesUpdate(r.replacements)])
            && (v.valid && remote != RemoteOk ==> r.replacements == p.replacements && r.saved == p.saved)
  {
    var t := Trim(value);
    var v := ValidateReplacementActivity(t);
    assert Blur(p, index, value, remote) == BlurAnswer(p, index, v, t, remote);
    if v.valid {
      ActivityRule(t);
      assert |v.sanitized.value| >= 2;
    }
    BlurAnswerCases(p, index, v, t, remote);
  }

  /** The three outcomes of a non-blank entry, for a validation result whose valid case
      carries non-empty sanitised text. */
  lemma BlurAnswerCases(p: Page, index: nat, v: ValidationResult, t: string, remote: Remote)
    requires index < |p.replacements|
    requires v.valid ==> v.sanitized.Some? && v.sanitized.value != ""
    ensures var r := BlurAnswer(p, index, v, t, remote);
            (!v.valid ==> r.replacements == p.replacements && r.writes == p.writes && r.saved == p.saved)
            && (v.valid && remote == RemoteOk ==>
                  |r.replacements| == |p.replacements| && r.replacements[index] == v.sanitized.value
                  && (forall j :: 0 <= j < |p.replacements| && j != index ==> r.replacements[j] == p.replacements[j])
                  && r.saved == p.saved + [ActivitiesUpdate(r.replacements)])
            && (v.valid && remote != RemoteOk ==> r.replacements == p.replacements && r.saved == p.saved)
  {
    if !v.valid {
      assert p.replacements[index := p.replacements[index]] == p.replacements;
    }
  }

  /** Only a thrown write restores a removed blank entry: a write that returns an error
      leaves the local list without the entry while the profile still has it. */
  lemma BlankRemovalIgnoresReturnedError(p: Page, index: nat, value: string)
    requires p.signedIn && index < |p.replacements| && Trim(value) == ""
    ensures Blur(p, index, value, RemoteError).replacements == RemoveAt(p.replacements, index)
    ensures |Blur(p, index, value, RemoteError).replacements| == |p.replacements| - 1
  {
  }

  // ---------------------------------------------------------------- the list

  /** The alert shown when the list is full. */
  function MaximumAlert(max: nat): string {
    "Maximum " + NatToDecimal(max) + " replacement activities allowed."
  }

  /** `handleAddReplacement()`. */
  function Add(p: Page): Page {
    if |p.replacements| >= p.maxActivities then p.(alerts := p.alerts + [MaximumAlert(p.maxActivities)])
    else p.(replacements := p.replacements + [""])
  }

  /** Adding appends one empty entry below the maximum and changes nothing but the alerts at
      or above it, so adding never takes the list past the maximum. */
  lemma AddBound(p: Page)
    ensures |p.replacements| < p.maxActivities ==> Add(p).replacements == p.replacements + [""]
    ensures |p.replacements| >= p.maxActivities ==> Add(p).replacements == p.replacements
    ensures |p.replacements| <= p.maxActivities ==> |Add(p).replacements| <= p.maxActivities
    ensures Add(p).writes == p.writes && Add(p).saved == p.saved
  {
  }

  /** `handleRemoveReplacement(index)`: both failures restore the list. */
  function Remove(p: Page, index: int, remote: Remote): Page {
    if !p.signedIn then p
    else
      var updated := RemoveAt(p.replacements, index);
      var sent := p.(writes := p.writes + [ListWrite(updated)]);
      if remote == RemoteOk then sent.(replacements := updated, saved := p.saved + [ActivitiesUpdate(updated)])
      else sent.(replacements := p.replacements, alerts := p.alerts + [DELETE_FAILED])
  }

  /** Removing writes the list without the entry; on success the page keeps and saves it,
      and on failure the list is as it was. */
  lemma RemoveCases(p: Page, index: int, remote: Remote)
    requires p.signedIn
    ensures var r := Remove(p, index, remote);
            r.writes == p.writes + [ListWrite(RemoveAt(p.replacements, index))]
            && (remote == RemoteOk ==>
                  r.replacements == RemoveAt(p.replacements, index) && r.saved == p.saved + [ActivitiesUpdate(r.replacements)])
            && (remote != RemoteOk ==> r.replacements == p.replacements && r.saved == p.saved)
  {
  }

  /** After any successful list write the last saved overlay holds exactly the page's list. */
  lemma SavedMatchesList(p: Page, index: int, s: OnboardingState)
    requires p.signedIn
    ensures ActivityNames(Merge(s, Remove(p, index, RemoteOk).saved[|p.saved|]).replacementActivities)
            == Remove(p, index, RemoteOk).replacements
  {
    ActivityNamesRoundTrip(s, RemoveAt(p.replacements, index));
  }

  // ---------------------------------------------------------------- privacy and deletion

  /** `handleTogglePrivacyMode()`: the flag flips and its new value is stored as text. */
  function TogglePrivacy(p: Page): Page {
    p.(privacyMode := !p.privacyMode, storedPrivacy := Some(if !p.privacyMode then "true" else "false"))
  }

  /** Toggling twice restores the flag, and what is stored always reads back as the flag. */
  lemma TogglePrivacyTwice(p: Page)
    ensures TogglePrivacy(TogglePrivacy(p)).privacyMode == p.privacyMode
    ensures (TogglePrivacy(p).storedPrivacy == Some("true")) <==> TogglePrivacy(p).privacyMode
  {
  }

  /** `handleDeleteAccount()`: only with the word typed exactly; success removes the local
      onboarding store and the privacy value and signs out, any failure alerts. */
  function DeleteAccount(p: Page, remote: Remote): Page {
    if !p.signedIn || p.deleteInput != DELETE_WORD then p
    else
      var sent := p.(writes := p.writes + [DeleteUser]);
      if remote == RemoteOk then sent.(onboardingRemoved := true, storedPrivacy := None, signedOut := true)
      else sent.(alerts := p.alerts + [ACCOUNT_DELETE_FAILED])
  }

  /** The delete request is sent exactly when a signed-in user typed `DELETE`, and the page
      clears the local onboarding store and the privacy value and signs out exactly when it
      also succeeds. */
  lemma DeleteGate(p: Page, remote: Remote)
    requires !p.signedOut
    ensures var r := DeleteAccount(p, remote);
            (r.writes == p.writes + [DeleteUser] <==> p.signedIn && p.deleteInput == DELETE_WORD)
            && (!(p.signedIn && p.deleteInput == DELETE_WORD) ==> r == p)
            && (r.signedOut <==> p.signedIn && p.deleteInput == DELETE_WORD && remote == RemoteOk)
            && r.onboardingRemoved == (r.signedOut || p.onboardingRemoved)
            && r.storedPrivacy == (if r.signedOut then None else p.storedPrivacy)
  {
    if !(p.signedIn && p.deleteInput == DELETE_WORD) {
      assert |DeleteAccount(p, remote).writes| == |p.writes|;
    }
  }

  /** The page's state, updated by its handlers. */
  class Settings {
    const signedIn: bool
    const maxActivities: nat
    var why: string
    var replacements: seq<string>
    var privacyMode: bool
    var loading: bool
    var showDeleteConfirm: bool
    var showDeleteFinal: bool
    var deleteInput: string
    var alerts: seq<string>
    var writes: seq<ProfileWrite>
    var saved: seq<PartialState>
    var storedPrivacy: Option<string>
    var onboardingRemoved: bool
    var signedOut: bool

    function Snapshot(): Page
      reads this
    {
      Page(signedIn, maxActivities, why, replacements, privacyMode, loading, showDeleteConfirm, showDeleteFinal,
           deleteInput, alerts, writes, saved, storedPrivacy, onboardingRemoved, signedOut)
    }

    /** Mounting: empty text and list, privacy off, loading, no dialog open. */
    constructor(signedIn: bool, maxActivities: nat)
      ensures Snapshot() == Page(signedIn, maxActivities, "", [], false, true, false, false, "", [], [], [], None, false, false)
    {
      this.signedIn := signedIn;
      this.maxActivities := maxActivities;
      why, replacements, privacyMode, loading := "", [], false, true;
      showDeleteConfirm, showDeleteFinal, deleteInput := false, false, "";
      alerts, writes, saved, storedPrivacy, onboardingRemoved, signedOut := [], [], [], None, false, false;
    }

    method LoadSettings(remoteWhy: Option<string>, remoteList: Option<string>, parsed: Parsed,
                        local: OnboardingState, privacy: Option<string>)
      modifies this
      ensures Snapshot() == Load(old(Snapshot()), remoteWhy, remoteList, parsed, local, privacy)
    {
      if !signedIn {
        return;
      }
      why := LoadedWhy(remoteWhy, local, why);
      replacements := LoadedList(remoteList, parsed, local, replacements);
      privacyMode := privacy == Some("true");
      loading := false;
    }

    /** Typing in the why box. */
    method SetWhy(value: string)
      modifies this
      ensures Snapshot() == old(Snapshot()).(why := value)
    {
      why := value;
    }

    method HandleSaveWhy(remote: Remote, now: string)
      modifies this
      ensures Snapshot() == SaveWhy(old(Snapshot()), remote, now)
    {
      if !signedIn {
        return;
      }
      var v := ValidateWhyDocument(why);
      SaveWhyOutcome(v, remote, now);
    }

    method SaveWhyOutcome(v: ValidationResult, remote: Remote, now: string)
      modifies this
      ensures Snapshot() == SaveWhyAnswer(old(Snapshot()), v, remote, now)
    {
      if !v.valid {
        alerts := alerts + [ErrorText(v, VALIDATION_FAILED)];
        return;
      }
      var previous := why;
      var sanitized := SanitizedOr(v, why);
      writes := writes + [WhyWrite(sanitized)];
      if remote == RemoteOk {
        saved := saved + [WhyUpdate(sanitized, now)];
        alerts := alerts + [SAVE_SUCCESS];
        why := sanitized;
      } else {
        why := previous;
        alerts := alerts + [SAVE_FAILED];
      }
    }

    method HandleEdit(index: nat, value: string)
      requires index < |replacements|
      modifies this
      ensures Snapshot() == Edit(old(Snapshot()), index, value)
    {
      replacements := replacements[index := value];
    }

    method HandleUpdateReplacement(index: nat, value: string, remote: Remote)
      requires index < |replacements|
      modifies this
      ensures Snapshot() == Blur(old(Snapshot()), index, value, remote)
    {
      if !signedIn {
        return;
      }
      var t := Trim(value);
      if t == "" {
        var previous := replacements;
        var updated := RemoveAt(replacements, index);
        replacements := updated;
        writes := writes + [ListWrite(updated)];
        if remote == RemoteThrew {
          replacements := previous;
        }
        return;
      }
      var v := ValidateReplacementActivity(t);
      UpdateOutcome(index, v, t, remote);
    }

    method UpdateOutcome(index: nat, v: ValidationResult, t: string, remote: Remote)
      requires index < |replacements|
      modifies this
      ensures Snapshot() == BlurAnswer(old(Snapshot()), index, v, t, remote)
    {
      if !v.valid {
        alerts := alerts + [ErrorText(v, VALIDATION_FAILED)];
        var updated := replacements;
        updated := updated[index := replacements[index]];
        replacements := updated;
        return;
      }
      var previous := replacements;
      var updated := replacements[index := SanitizedOr(v, t)];
      replacements := updated;
      writes := writes + [ListWrite(updated)];
      if remote == RemoteOk {
        saved := saved + [ActivitiesUpdate(updated)];
      } else {
        replacements := previous;
        alerts := alerts + [UPDATE_FAILED];
      }
    }

    method HandleAddReplacement()
      modifies this
      ensures Snapshot() == Add(old(Snapshot()))
    {
      if |replacements| >= maxActivities {
        alerts := alerts + [MaximumAlert(maxActivities)];
        return;
      }
      replacements := replacements + [""];
    }

    method HandleRemoveReplacement(index: int, remote: Remote)
      modifies this
      ensures Snapshot() == Remove(old(Snapshot()), index, remote)
    {
      if !signedIn {
        return;
      }
      var previous := replacements;
      var updated := RemoveAt(replacements, index);
      replacements := updated;
      writes := writes + [ListWrite(updated)];
      if remote == RemoteOk {
        saved := saved + [ActivitiesUpdate(updated)];
      } else {
        replacements := previous;
        alerts := alerts + [DELETE_FAILED];
      }
    }

    method HandleTogglePrivacyMode()
      modifies this
      ensures Snapshot() == TogglePrivacy(old(Snapshot()))
    {
      var newValue := !privacyMode;
      privacyMode := newValue;
      storedPrivacy := Some(if newValue then "true" else "false");
    }

    /** "Delete Account": the first dialog opens. */
    method OpenDeleteConfirm()
      modifies this
      ensures Snapshot() == old(Snapshot()).(showDeleteConfirm := true)
    {
      showDeleteConfirm := true;
    }

    /** The first dialog's Cancel. */
    method CancelDeleteConfirm()
      modifies this
      ensures Snapshot() == old(Snapshot()).(showDeleteConfirm := false)
    {
      showDeleteConfirm := false;
    }

    /** The first dialog's Continue: the second dialog replaces it. */
    method ContinueDelete()
      modifies this
      ensures Snapshot() == old(Snapshot()).(showDeleteConfirm := false, showDeleteFinal := true)
    {
      showDeleteConfirm := false;
      showDeleteFinal := true;
    }

    /** Typing in the second dialog. */
    method SetDeleteInput(value: string)
      modifies this
      ensures Snapshot() == old(Snapshot()).(deleteInput := value)
    {
      deleteInput := value;
    }

    /** The second dialog's Cancel: it closes and the typed word is cleared. */
    method CancelDeleteFinal()
      modifies this
      ensures Snapshot() == old(Snapshot()).(showDeleteFinal := false, deleteInput := "")
    {
      showDeleteFinal := false;
      deleteInput := "";
    }

    method HandleDeleteAccount(remote: Remote)
      modifies this
      ensures Snapshot() == DeleteAccount(old(Snapshot()), remote)
    {
      if !signedIn || deleteInput != DELETE_WORD {
        return;
      }
      writes := writes + [DeleteUser];
      if remote != RemoteOk {
        alerts := alerts + [ACCOUNT_DELETE_FAILED];
        return;
      }
      onboardingRemoved := true;
      storedPrivacy := None;
      signedOut := true;
    }
  }
}
