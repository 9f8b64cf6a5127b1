/** Screen navigation of the application shell (App.tsx): which screen is current, the
    settings loaded or saved, and the conversation history handed to a new session. */
module App {
  import opened Wrappers
  import opened Types

  datatype Screen = Welcome | Settings | Session

  /** The screen component renderScreen returns, with the props it reads from the state. */
  datatype View =
    | WelcomeView(hasSettings: bool)
    | SettingsView(currentSettings: Option<UserSettings>)
    | SessionView(userSettings: UserSettings, history: seq<ChatMessage>)

  /** renderScreen (lines 47-63): the session screen is rendered only when settings exist;
      'session' without settings falls back to the welcome screen. */
  function ScreenView(screen: Screen, settings: Option<UserSettings>, history: seq<ChatMessage>): (v: View)
    ensures v.SessionView? <==> screen == Session && settings.Some?
    ensures v.SessionView? ==> v.userSettings == settings.value && v.history == history
    ensures v.SettingsView? <==> screen == Settings
    ensures v.SettingsView? ==> v.currentSettings == settings
    ensures v.WelcomeView? ==> v.hasSettings == settings.Some?
  {
    match screen
    case Settings => SettingsView(settings)
    case Session => if settings.Some? then SessionView(settings.value, history) else WelcomeView(false)
    case Welcome => WelcomeView(settings.Some?)
  }

  class Shell {
    var currentScreen: Screen
    var userSettings: Option<UserSettings>
    var conversationHistory: seq<ChatMessage>
    /** The history last written to storage by saveHistory. */
    var savedHistory: Option<seq<ChatMessage>>

    /** Lines 11-13: the first screen is the welcome screen, with no settings and an empty
        history. */
    constructor ()
      ensures currentScreen == Welcome && userSettings == None && conversationHistory == []
      ensures savedHistory == None
    {
      currentScreen := Welcome;
      userSettings := None;
      conversationHistory := [];
      savedHistory := None;
    }

    /** Lines 15-22: stored settings are adopted only when present; the stored history
        always replaces the one in memory. */
    method Mount(storedSettings: Option<UserSettings>, storedHistory: seq<ChatMessage>)
      modifies this
      ensures userSettings == (if storedSettings.Some? then storedSettings else old(userSettings))
      ensures conversationHistory == storedHistory
      ensures currentScreen == old(currentScreen) && savedHistory == old(savedHistory)
    {
      if storedSettings.Some? {
        userSettings := storedSettings;
      }
      conversationHistory := storedHistory;
    }

    /** Lines 24-30: start a session when settings exist, otherwise ask for them. */
    method StartSession()
      modifies this
      ensures currentScreen == (if userSettings.Some? then Session else Settings)
      ensures userSettings == old(userSettings) && conversationHistory == old(conversationHistory)
      ensures savedHistory == old(savedHistory)
    {
      if userSettings.Some? {
        currentScreen := Session;
      } else {
        currentScreen := Settings;
      }
    }

    /** Lines 32-34. */
    method ShowSettings()
      modifies this
      ensures currentScreen == Settings
      ensures userSettings == old(userSettings) && conversationHistory == old(conversationHistory)
      ensures savedHistory == old(savedHistory)
    {
      currentScreen := Settings;
    }

    /** Lines 36-39: saved settings are kept and the welcome screen returns. */
    method SettingsSaved(settings: UserSettings)
      modifies this
      ensures userSettings == Some(settings) && currentScreen == Welcome
      ensures conversationHistory == old(conversationHistory) && savedHistory == old(savedHistory)
    {
      userSettings := Some(settings);
      currentScreen := Welcome;
    }

    /** Lines 41-45: the final history is persisted, replaces the one in memory, and the
        welcome screen returns. */
    method SessionEnd(finalHistory: seq<ChatMessage>)
      modifies this
      ensures savedHistory == Some(finalHistory) && conversationHistory == finalHistory
      ensures currentScreen == Welcome && userSettings == old(userSettings)
    {
      savedHistory := Some(finalHistory);
      conversationHistory := finalHistory;
      currentScreen := Welcome;
    }

    /** Lines 47-63: the view for the current state. */
    method RenderScreen() returns (v: View)
      ensures v == ScreenView(currentScreen, userSettings, conversationHistory)
    {
      match currentScreen
      case Settings =>
        v := SettingsView(userSettings);
      case Session =>
        if userSettings.Some? {
          v := SessionView(userSettings.value, conversationHistory);
        } else {
          v := WelcomeView(false);
        }
      case Welcome =>
        v := WelcomeView(userSettings.Some?);
    }
  }

  /** Starting a session always renders a screen the state can back: the session screen
      with the stored settings, or the settings screen when there are none. */
  lemma StartRendersSessionOrSettings(settings: Option<UserSettings>, history: seq<ChatMessage>)
    ensures var v := ScreenView(if settings.Some? then Session else Settings, settings, history);
            && (settings.Some? ==> v == SessionView(settings.value, history))
            && (settings.None? ==> v == SettingsView(None))
  {
  }
}
