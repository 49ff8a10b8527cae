/**
 * The translation service (Services/LocalizationService.cs): two fixed
 * tables, a lookup that falls back from the current language to English and
 * then to the key, and a language setter that raises `LanguageChanged` only
 * for a real change to a known language.
 */
module Localization {

  /** The English table. */
  const English: map<string, string> := map[
    "AppTitle" := "RealSnag Media Downloader",
    "EnterLink" := "Enter Link:",
    "MediaMetadata" := "Media metadata will appear here after you paste the link",
    "SelectFormat" := "Select Format:",
    "Status" := "Status:",
    "Idle" := "Idle",
    "Downloading" := "Downloading...",
    "Complete" := "Complete",
    "Error" := "Error",
    "Logs" := "Logs:",
    "Download" := "Download",
    "Cancel" := "Cancel",
    "ClearLogs" := "Clear Logs",
    "ErrorValidLink" := "Error: Please enter a valid media link.",
    "DownloadCancelled" := "Download cancelled by user.",
    "NoActiveDownload" := "No active download to cancel.",
    "DownloadCancelledError" := "Download operation was cancelled.",
    "ErrorDuringDownload" := "Error during download:",
    "ErrorFetchingMetadata" := "Error fetching metadata:",
    "Settings" := "Settings",
    "Theme" := "Theme",
    "DarkTheme" := "Dark",
    "LightTheme" := "Light",
    "Language" := "Language",
    "English" := "English",
    "German" := "Deutsch"
  ]

  /** The German table. */
  const German: map<string, string> := map[
    "AppTitle" := "RealSnag Media Downloader",
    "EnterLink" := "Link eingeben:",
    "MediaMetadata" := "Medien-Metadaten werden hier angezeigt, nachdem Sie den Link eingefügt haben",
    "SelectFormat" := "Format wählen:",
    "Status" := "Status:",
    "Idle" := "Bereit",
    "Downloading" := "Lädt herunter...",
    "Complete" := "Abgeschlossen",
    "Error" := "Fehler",
    "Logs" := "Logs:",
    "Download" := "Herunterladen",
    "Cancel" := "Abbrechen",
    "ClearLogs" := "Logs leeren",
    "ErrorValidLink" := "Fehler: Bitte geben Sie einen gültigen Medien-Link ein.",
    "DownloadCancelled" := "Download vom Benutzer abgebrochen.",
    "NoActiveDownload" := "Kein aktiver Download zum Abbrechen.",
    "DownloadCancelledError" := "Download-Vorgang wurde abgebrochen.",
    "ErrorDuringDownload" := "Fehler beim Download:",
    "ErrorFetchingMetadata" := "Fehler beim Abrufen der Metadaten:",
    "Settings" := "Einstellungen",
    "Theme" := "Design",
    "DarkTheme" := "Dunkel",
    "LightTheme" := "Hell",
    "Language" := "Sprache",
    "English" := "English",
    "German" := "Deutsch"
  ]

  const Translations: map<string, map<string, string>> := map["en" := English, "de" := German]

  /** The language a new service starts in. */
  const InitialLanguage := "de"

  /** The two tables translate the same keys. */
  lemma TablesHaveSameKeys()
    ensures English.Keys == German.Keys
  {
  }

  class LocalizationService {
    const translations: map<string, map<string, string>>
    var currentLanguage: string
    /** The payloads of the `LanguageChanged` events raised so far, oldest first. */
    var languageChanged: seq<string>

    /**
     * The tables are the fixed ones, the current language has a table, and
     * the events tell the history of the language: each one names a language
     * different from the one before it, starting from the initial language,
     * and the last one is the current language.
     */
    ghost predicate Valid()
      reads this
    {
      && translations == Translations
      && currentLanguage in translations
      && (languageChanged == [] ==> currentLanguage == InitialLanguage)
      && (languageChanged != [] ==> currentLanguage == languageChanged[|languageChanged| - 1])
      && (languageChanged != [] ==> languageChanged[0] != InitialLanguage)
      && (forall i :: 0 < i < |languageChanged| ==> languageChanged[i] != languageChanged[i - 1])
      && (forall i :: 0 <= i < |languageChanged| ==> languageChanged[i] in translations)
    }

    constructor()
      ensures Valid()
      ensures currentLanguage == "de" && languageChanged == []
    {
      translations := Translations;
      currentLanguage := InitialLanguage;
      languageChanged := [];
    }

    /**
     * `GetString`: the current language's translation, else the English
     * one, else the key itself; the lookup never fails.
     */
    function GetString(key: string): (r: string)
      reads this
      ensures currentLanguage in translations && key in translations[currentLanguage]
              ==> r == translations[currentLanguage][key]
      ensures !(currentLanguage in translations && key in translations[currentLanguage])
              && "en" in translations && key in translations["en"]
              ==> r == translations["en"][key]
      ensures (forall t <- translations.Values :: key !in t) ==> r == key
    {
      if currentLanguage in translations && key in translations[currentLanguage] then
        translations[currentLanguage][key]
      else if "en" in translations && key in translations["en"] then
        translations["en"][key]
      else
        key
    }

    /** `AvailableLanguages`: the languages that have a table. */
    function AvailableLanguages(): (languages: set<string>)
      reads this
      ensures Valid() ==> languages == {"en", "de"}
    {
      translations.Keys
    }

    /** The `CurrentLanguage` getter: always one of the languages that have a table. */
    function CurrentLanguage(): (language: string)
      reads this
      ensures Valid() ==> language in AvailableLanguages() && (language == "en" || language == "de")
    {
      currentLanguage
    }

    /**
     * The `CurrentLanguage` setter: a different language that has a table
     * becomes current and raises one event carrying it; anything else
     * changes nothing and raises nothing.
     */
    method SetCurrentLanguage(value: string)
      requires Valid()
      modifies this
      ensures Valid()
      ensures old(currentLanguage) != value && value in translations ==>
        currentLanguage == value && languageChanged == old(languageChanged) + [value]
      ensures !(old(currentLanguage) != value && value in translations) ==>
        currentLanguage == old(currentLanguage) && languageChanged == old(languageChanged)
    {
      if currentLanguage != value && value in translations {
        currentLanguage := value;
        languageChanged := languageChanged + [value];
      }
    }
  }

  /**
   * With the fixed tables the English fallback is never taken: a known key is
   * translated into the current language, and an unknown key comes back as
   * it is.
   */
  lemma LookupUsesCurrentLanguage(service: LocalizationService, key: string)
    requires service.Valid()
    ensures key in English ==> service.GetString(key) == Translations[service.currentLanguage][key]
    ensures key !in English ==> service.GetString(key) == key
  {
    TablesHaveSameKeys();
  }

  /**
   * A lookup shows the key itself exactly when the key is unknown or the
   * current language translates it to itself, so the key fallback cannot be
   * told from a hit; "English" is such a key in both tables.
   */
  lemma KeyShownAsItself(service: LocalizationService, key: string)
    requires service.Valid()
    ensures service.GetString(key) == key
            <==> key !in English || Translations[service.currentLanguage][key] == key
    ensures service.GetString("English") == "English"
  {
    LookupUsesCurrentLanguage(service, key);
    LookupUsesCurrentLanguage(service, "English");
  }
}
