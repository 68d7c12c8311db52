/**
 * The settings page: a draft of the preferences the user edits, the language, theme and time
 * zone in force (held by their providers), and the save that applies the draft.
 */
module SettingsPage {
  import opened Storage
  import opened Notifications
  import Language
  import Theme
  import Timezone

  datatype NotificationPrefs = NotificationPrefs(email: bool, desktop: bool, security: bool, resources: bool)

  /** `sessionTimeout` is the number the input parsed. */
  datatype SecurityPrefs = SecurityPrefs(twoFactor: bool, sessionTimeout: int, passwordPolicy: string)

  datatype SystemPrefs = SystemPrefs(language: string, timezone: string, theme: string)

  /** The page's `settings` draft. */
  datatype Draft = Draft(notifications: NotificationPrefs, security: SecurityPrefs, system: SystemPrefs)

  const DefaultNotifications := NotificationPrefs(true, true, true, false)
  const DefaultSecurity := SecurityPrefs(true, 30, "strong")

  /** `hasChanges`: the draft's language, theme or time zone differs from the one in force. */
  predicate HasChanges(draft: SystemPrefs, applied: SystemPrefs) {
    draft.language != applied.language || draft.theme != applied.theme || draft.timezone != applied.timezone
  }

  /** A value `handleSave` hands to a provider. */
  datatype Push = PushLanguage(language: string) | PushTheme(theme: string) | PushTimezone(timezone: string)

  /** The values `handleSave` hands on: each of the three only when the draft differs from the
    * value in force, in the order language, theme, time zone. */
  function Pushes(draft: SystemPrefs, applied: SystemPrefs): seq<Push> {
    (if draft.language != applied.language then [PushLanguage(draft.language)] else []) +
    (if draft.theme != applied.theme then [PushTheme(draft.theme)] else []) +
    (if draft.timezone != applied.timezone then [PushTimezone(draft.timezone)] else [])
  }

  /** The values in force after the pushes are taken. */
  function Take(applied: SystemPrefs, pushes: seq<Push>): SystemPrefs
    decreases |pushes|
  {
    if pushes == [] then applied
    else
      var rest := Take(applied, pushes[..|pushes| - 1]);
      match pushes[|pushes| - 1]
      case PushLanguage(l) => rest.(language := l)
      case PushTheme(t) => rest.(theme := t)
      case PushTimezone(z) => rest.(timezone := z)
  }

  /** Saving hands on nothing exactly when there is nothing to save; taking what it hands on
    * makes the values in force equal the draft, so nothing is left to save; and it hands on
    * at most one value of each kind. */
  lemma SaveSpec(draft: SystemPrefs, applied: SystemPrefs)
    ensures Pushes(draft, applied) == [] <==> !HasChanges(draft, applied)
    ensures Take(applied, Pushes(draft, applied)) == draft
    ensures !HasChanges(draft, Take(applied, Pushes(draft, applied)))
    ensures |Pushes(draft, applied)| <= 3
  {
    var l: seq<Push> := if draft.language != applied.language then [PushLanguage(draft.language)] else [];
    var t: seq<Push> := if draft.theme != applied.theme then [PushTheme(draft.theme)] else [];
    var z: seq<Push> := if draft.timezone != applied.timezone then [PushTimezone(draft.timezone)] else [];
    TakeAppend(applied, l, t);
    TakeAppend(applied, l + t, z);
    assert Pushes(draft, applied) == l + t + z;
  }

  /** Taking a list of pushes in two parts is taking the whole list. */
  lemma {:induction false} TakeAppend(applied: SystemPrefs, a: seq<Push>, b: seq<Push>)
    ensures Take(applied, a + b) == Take(Take(applied, a), b)
    decreases |b|
  {
    if b == [] {
      assert a + b == a;
    } else {
      TakeAppend(applied, a, b[..|b| - 1]);
      assert (a + b)[..|a + b| - 1] == a + b[..|b| - 1];
    }
  }

  /** `getThemeLabel`: the label of each theme, and 'Escuro' for any other value. */
  function ThemeLabel(theme: string): string {
    if theme == "light" then "Claro"
    else if theme == "auto" then "Automático (Sistema)"
    else "Escuro"
  }

  /** Only `'light'` and `'auto'` have their own labels; every other value reads as dark. */
  lemma ThemeLabelSpec(theme: string)
    ensures ThemeLabel(theme) == "Escuro" <==> theme != "light" && theme != "auto"
    ensures ThemeLabel("dark") == "Escuro"
  {
  }

  /** The success notification of a save; its text is looked up in the language in force before
    * the save, with a fixed fallback for an empty lookup. */
  function SavedNotification(language: string): NewNotification {
    var text := Language.Translate(language, "settings.saveSuccess");
    NewNotification("Configurações Salvas", if text != "" then text else "Configurações salvas com sucesso!", Success)
  }

  /** The page's state together with the providers it reads and drives, which all keep their
    * values in one store. */
  class SettingsView {
    var settings: Draft
    var isBackupModalOpen: bool
    const language: Language.LanguageProvider
    const theme: Theme.ThemeProvider
    const timezone: Timezone.TimezoneProvider
    const center: NotificationCenter
    const store: Store

    /** The providers share the page's store. */
    predicate Valid()
      reads this, language, theme, timezone
    {
      language.store == store && theme.store == store && timezone.store == store
    }

    /** The values in force. */
    function Applied(): SystemPrefs
      reads language, theme, timezone
    {
      SystemPrefs(language.language, timezone.timezone, theme.theme)
    }

    function Changed(): bool
      reads this, language, theme, timezone
    {
      HasChanges(settings.system, Applied())
    }

    /** The draft starts from the default switches and the values in force. */
    constructor (language: Language.LanguageProvider, theme: Theme.ThemeProvider,
                 timezone: Timezone.TimezoneProvider, center: NotificationCenter, store: Store)
      requires language.store == store && theme.store == store && timezone.store == store
      ensures Valid() && !Changed()
      ensures settings == Draft(DefaultNotifications, DefaultSecurity, Applied())
      ensures !isBackupModalOpen
      ensures this.language == language && this.theme == theme && this.timezone == timezone
      ensures this.center == center && this.store == store
    {
      this.language := language;
      this.theme := theme;
      this.timezone := timezone;
      this.center := center;
      this.store := store;
      settings := Draft(DefaultNotifications, DefaultSecurity,
        SystemPrefs(language.language, timezone.timezone, theme.theme));
      isBackupModalOpen := false;
    }

    /** `handleSave`: each changed value is handed to its provider (which stores it), then one
      * success notification is added. The values in force then equal the draft. */
    method HandleSave(systemDark: bool, id: string, timestamp: string)
      requires Valid()
      modifies language, theme, timezone, store, center
      ensures Valid() && !Changed()
      ensures Applied() == Take(old(Applied()), Pushes(settings.system, old(Applied())))
      ensures store.items == Stored(old(store.items), settings.system, old(Applied()))
      ensures center.notifications == Add(old(center.notifications), SavedNotification(old(language.language)), id, timestamp)
      ensures theme.theme != old(theme.theme) ==> theme.Applied(systemDark)
    {
      var before := Applied();
      var message := SavedNotification(language.language);
      if settings.system.language != language.language {
        language.ChangeLanguage(settings.system.language);
      }
      if settings.system.theme != theme.theme {
        theme.SetTheme(settings.system.theme, systemDark);
      }
      if settings.system.timezone != timezone.timezone {
        timezone.SetTimezone(settings.system.timezone);
      }
      center.AddNotification(message, id, timestamp);
      SaveSpec(settings.system, before);
    }

    /** The save button: disabled, and so without effect, when nothing changed. */
    method ClickSave(systemDark: bool, id: string, timestamp: string)
      requires Valid()
      modifies language, theme, timezone, store, center
      ensures Valid() && !Changed()
      ensures !old(Changed()) ==> store.items == old(store.items) && center.notifications == old(center.notifications)
      ensures old(Changed()) ==> center.notifications == Add(old(center.notifications), SavedNotification(old(language.language)), id, timestamp)
    {
      if Changed() {
        HandleSave(systemDark, id, timestamp);
      }
    }

    method HandleLanguageChange(newLanguage: string)
      modifies this
      ensures settings == old(settings).(system := old(settings.system).(language := newLanguage))
      ensures isBackupModalOpen == old(isBackupModalOpen)
    {
      settings := settings.(system := settings.system.(language := newLanguage));
    }

    method HandleThemeChange(newTheme: string)
      modifies this
      ensures settings == old(settings).(system := old(settings.system).(theme := newTheme))
      ensures isBackupModalOpen == old(isBackupModalOpen)
    {
      settings := settings.(system := settings.system.(theme := newTheme));
    }

    method HandleTimezoneChange(newTimezone: string)
      modifies this
      ensures settings == old(settings).(system := old(settings.system).(timezone := newTimezone))
      ensures isBackupModalOpen == old(isBackupModalOpen)
    {
      settings := settings.(system := settings.system.(timezone := newTimezone));
    }

    /** A notification switch: it is kept in the draft only and never changes `hasChanges`. */
    method SetNotificationPrefs(prefs: NotificationPrefs)
      modifies this
      ensures settings == old(settings).(notifications := prefs)
      ensures Changed() == old(Changed())
      ensures isBackupModalOpen == old(isBackupModalOpen)
    {
      settings := settings.(notifications := prefs);
    }

    /** A security setting: kept in the draft only, it never changes `hasChanges`. */
    method SetSecurityPrefs(prefs: SecurityPrefs)
      modifies this
      ensures settings == old(settings).(security := prefs)
      ensures Changed() == old(Changed())
      ensures isBackupModalOpen == old(isBackupModalOpen)
    {
      settings := settings.(security := prefs);
    }

    method OpenBackupModal()
      modifies this
      ensures isBackupModalOpen && settings == old(settings)
    {
      isBackupModalOpen := true;
    }

    method CloseBackupModal()
      modifies this
      ensures !isBackupModalOpen && settings == old(settings)
    {
      isBackupModalOpen := false;
    }
  }

  /** The store after a save: each changed value written under its key. */
  function Stored(items: map<string, string>, draft: SystemPrefs, applied: SystemPrefs): map<string, string> {
    var afterLanguage := if draft.language != applied.language then items[LanguageKey := draft.language] else items;
    var afterTheme := if draft.theme != applied.theme then afterLanguage[ThemeKey := draft.theme] else afterLanguage;
    if draft.timezone != applied.timezone then afterTheme[TimezoneKey := draft.timezone] else afterTheme
  }

  /** A save touches only the three preference keys, and leaves the store as it was when nothing
    * changed. */
  lemma StoredSpec(items: map<string, string>, draft: SystemPrefs, applied: SystemPrefs)
    ensures forall k :: k != LanguageKey && k != ThemeKey && k != TimezoneKey ==>
      (k in Stored(items, draft, applied) <==> k in items) &&
      (k in items ==> Stored(items, draft, applied)[k] == items[k])
    ensures !HasChanges(draft, applied) ==> Stored(items, draft, applied) == items
    ensures draft.language != applied.language ==> Stored(items, draft, applied)[LanguageKey] == draft.language
  {
    KeysAreDistinct();
  }
}
