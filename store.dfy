/**
 * The three persisted client stores: authentication, preferences and the onboarding flag.
 * Each store is an object whose actions replace some of its fields.
 */
module Store {
  import opened Wrappers
  import opened AuthTypes

  datatype Theme = Light | Dark | SystemTheme
  datatype Tone = Calm | Direct

  datatype Preferences = Preferences(preferredMode: Mode, tone: Tone, theme: Theme)

  /** `OnboardingData`: the mode and tone are recorded when onboarding completes. */
  datatype OnboardingData = OnboardingData(completed: bool, preferredMode: Option<Mode>, tone: Option<Tone>)

  /** `useAuthStore`. */
  class AuthStore {
    var token: Option<string>
    var user: Option<User>

    /** A token is held exactly when a user is. */
    predicate Valid()
      reads this
    {
      token.Some? <==> user.Some?
    }

    constructor()
      ensures Valid() && token == None && user == None
    {
      token := None;
      user := None;
    }

    /** `login(token, user)`. */
    method Login(t: string, u: User)
      modifies this
      ensures Valid() && token == Some(t) && user == Some(u)
    {
      token := Some(t);
      user := Some(u);
    }

    /** `logout()`. */
    method Logout()
      modifies this
      ensures Valid() && token == None && user == None
    {
      token := None;
      user := None;
    }
  }

  const DEFAULT_PREFERENCES := Preferences(Chat, Calm, SystemTheme)

  /** `usePreferencesStore`. */
  class PreferencesStore {
    var preferences: Preferences

    constructor()
      ensures preferences == DEFAULT_PREFERENCES
    {
      preferences := DEFAULT_PREFERENCES;
    }

    /** `setTheme(theme)`: only the theme changes. */
    method SetTheme(theme: Theme)
      modifies this
      ensures preferences.theme == theme
      ensures preferences.preferredMode == old(preferences.preferredMode) && preferences.tone == old(preferences.tone)
    {
      preferences := preferences.(theme := theme);
    }

    /** `setPreferredMode(mode)`: only the mode changes. */
    method SetPreferredMode(mode: Mode)
      modifies this
      ensures preferences.preferredMode == mode
      ensures preferences.theme == old(preferences.theme) && preferences.tone == old(preferences.tone)
    {
      preferences := preferences.(preferredMode := mode);
    }

    /** `setTone(tone)`: only the tone changes. */
    method SetTone(tone: Tone)
      modifies this
      ensures preferences.tone == tone
      ensures preferences.theme == old(preferences.theme) && preferences.preferredMode == old(preferences.preferredMode)
    {
      preferences := preferences.(tone := tone);
    }
  }

  /** `useOnboardingStore`. */
  class OnboardingStore {
    var onboardingData: OnboardingData

    constructor()
      ensures !onboardingData.completed && onboardingData.preferredMode.None? && onboardingData.tone.None?
    {
      onboardingData := OnboardingData(false, None, None);
    }

    /** `completeOnboarding({preferredMode, tone})`: completed, with exactly that mode and tone. */
    method CompleteOnboarding(mode: Mode, tone: Tone)
      modifies this
      ensures onboardingData == OnboardingData(true, Some(mode), Some(tone))
    {
      onboardingData := OnboardingData(true, Some(mode), Some(tone));
    }
  }

  /** Setting the three preferences in turn gives exactly those preferences, whatever came
      before: no setter disturbs another's field. */
  method SetAll(store: PreferencesStore, mode: Mode, tone: Tone, theme: Theme)
    modifies store
    ensures store.preferences == Preferences(mode, tone, theme)
  {
    store.SetTone(tone);
    store.SetTheme(theme);
    store.SetPreferredMode(mode);
  }
}
