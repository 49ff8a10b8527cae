/**
 * The settings service (Services/SettingsService.cs): the theme flag and the
 * language, each raising its change event only when the value really
 * changes, and the mapping of the theme flag onto the application's theme
 * variant.
 */
module Settings {

  /** Avalonia's `ThemeVariant`. */
  datatype ThemeVariant = Default | Light | Dark

  /** The part of the Avalonia application the settings write. */
  class Application {
    var requestedThemeVariant: ThemeVariant

    constructor()
      ensures requestedThemeVariant == Default
    {
      requestedThemeVariant := Default;
    }
  }

  /** The variant a theme flag stands for. */
  function VariantFor(isDarkTheme: bool): (v: ThemeVariant)
    ensures v == Dark <==> isDarkTheme
    ensures v == Light <==> !isDarkTheme
  {
    if isDarkTheme then Dark else Light
  }

  const DefaultIsDarkTheme := true
  const DefaultLanguage := "de"

  class SettingsService {
    var isDarkTheme: bool
    var language: string
    /** The payloads of the `ThemeChanged` events raised so far, oldest first. */
    var themeChanged: seq<bool>
    /** The payloads of the `LanguageChanged` events raised so far, oldest first. */
    var languageChanged: seq<string>

    /**
     * The events tell the history of the settings. The theme starts dark and
     * every event flips it, so the payloads alternate light, dark, light, ...
     * and the flag is dark exactly after an even number of events. Every
     * language event names a language different from the one before it,
     * starting from the default, and the last one is the current language.
     */
    ghost predicate Valid()
      reads this
    {
      && (forall i :: 0 <= i < |themeChanged| ==> themeChanged[i] == (i % 2 == 1))
      && isDarkTheme == (|themeChanged| % 2 == 0)
      && (languageChanged == [] ==> language == DefaultLanguage)
      && (languageChanged != [] ==> language == languageChanged[|languageChanged| - 1])
      && (languageChanged != [] ==> languageChanged[0] != DefaultLanguage)
      && (forall i :: 0 < i < |languageChanged| ==> languageChanged[i] != languageChanged[i - 1])
    }

    constructor()
      ensures Valid()
      ensures isDarkTheme && language == "de" && themeChanged == [] && languageChanged == []
    {
      isDarkTheme := DefaultIsDarkTheme;
      language := DefaultLanguage;
      themeChanged := [];
      languageChanged := [];
    }

    /** The `IsDarkTheme` setter: one `ThemeChanged` event carrying the new value, on a change only. */
    method SetIsDarkTheme(value: bool)
      requires Valid()
      modifies this
      ensures Valid()
      ensures isDarkTheme == value
      ensures themeChanged == if old(isDarkTheme) != value then old(themeChanged) + [value] else old(themeChanged)
      ensures language == old(language) && languageChanged == old(languageChanged)
    {
      if isDarkTheme != value {
        isDarkTheme := value;
        themeChanged := themeChanged + [value];
      }
    }

    /** The `Language` setter: any string is taken, with one `LanguageChanged` event on a change only. */
    method SetLanguage(value: string)
      requires Valid()
      modifies this
      ensures Valid()
      ensures language == value
      ensures languageChanged == if old(language) != value then old(languageChanged) + [value] else old(languageChanged)
      ensures isDarkTheme == old(isDarkTheme) && themeChanged == old(themeChanged)
    {
      if language != value {
        language := value;
        languageChanged := languageChanged + [value];
      }
    }

    /** `ApplyTheme`: Dark for the dark flag, Light otherwise. */
    method ApplyTheme(application: Application)
      modifies application
      ensures application.requestedThemeVariant == VariantFor(isDarkTheme)
    {
      if isDarkTheme {
        application.requestedThemeVariant := Dark;
      } else {
        application.requestedThemeVariant := Light;
      }
    }
  }

  /**
   * In a valid history the theme flag can be read off the events alone: the
   * default when there are none, else the last payload.
   */
  lemma ThemeFollowsLastEvent(themeChanged: seq<bool>, isDarkTheme: bool)
    requires forall i :: 0 <= i < |themeChanged| ==> themeChanged[i] == (i % 2 == 1)
    requires isDarkTheme == (|themeChanged| % 2 == 0)
    ensures themeChanged == [] ==> isDarkTheme == DefaultIsDarkTheme
    ensures themeChanged != [] ==> isDarkTheme == themeChanged[|themeChanged| - 1]
    ensures forall i :: 0 < i < |themeChanged| ==> themeChanged[i] != themeChanged[i - 1]
  {
  }
}
