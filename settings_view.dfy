/**
 * The settings page of `src/ui/settings_view.py`: the cache-size text's unit, the export
 * file-format choice, the language switch and the export-format choice. The page's
 * `QSettings` are a string map; the JSON settings file is the `Settings` store, and the
 * language is the `LanguageManager` model.
 */
module SettingsView {
  import opened Wrappers
  import opened Json
  import Settings
  import LanguageManager

  const KiB := 1024
  const MiB := 1024 * KiB
  const GiB := 1024 * MiB
  const TiB := 1024 * GiB

  /** The unit `format_size` names and the power of 1024 the size is divided by before it is printed with one decimal. */
  datatype SizeText = SizeText(unit: string, divisor: nat)

  const Units: seq<string> := ["B", "KB", "MB", "GB"]

  /** The divisor in force at each step of the loop: 1024 to the power of the units passed. */
  const Divisors: seq<nat> := [1, KiB, MiB, GiB, TiB]

  /**
   * `format_size`: the first unit at which the size, divided by 1024 once per unit
   * passed, is below 1024; TB when none is. Dividing by 1024 is exact, so each test is
   * `size < 1024^(k+1)`.
   */
  method FormatSize(size: int) returns (r: SizeText)
    ensures r.unit == "B" <==> size < KiB
    ensures r.unit == "KB" <==> KiB <= size < MiB
    ensures r.unit == "MB" <==> MiB <= size < GiB
    ensures r.unit == "GB" <==> GiB <= size < TiB
    ensures r.unit == "TB" <==> size >= TiB
    ensures r.divisor == (if size < KiB then 1 else if size < MiB then KiB else if size < GiB then MiB else if size < TiB then GiB else TiB)
  {
    var divisor := 1;
    var i := 0;
    while i < |Units|
      invariant 0 <= i <= |Units|
      invariant divisor == Divisors[i]
      invariant i > 0 ==> size >= divisor
    {
      if size < 1024 * divisor {
        return SizeText(Units[i], divisor);
      }
      divisor := divisor * 1024;
      i := i + 1;
    }
    return SizeText("TB", divisor);
  }

  /** The radio button a file-format change comes from. */
  datatype Radio = TxtRadio | CsvRadio | JsonRadio | OtherButton

  /** The file format a radio button stands for; anything unknown counts as TXT. */
  function FileFormatOf(button: Radio): (f: string)
    ensures f in {"txt", "csv", "json"}
    ensures f == "txt" <==> button == TxtRadio || button == OtherButton
  {
    match button
    case TxtRadio => "txt"
    case CsvRadio => "csv"
    case JsonRadio => "json"
    case OtherButton => "txt"
  }

  class SettingsView {
    /** The page's `QSettings`. */
    var qsettings: map<string, string>
    const store: Settings.SettingsStore
    const languages: LanguageManager.LanguageManager
    /** `update_ui_texts` runs after a switch. */
    var textUpdates: nat

    constructor(qsettings: map<string, string>, store: Settings.SettingsStore, languages: LanguageManager.LanguageManager)
      ensures this.qsettings == qsettings && this.store == store && this.languages == languages && textUpdates == 0
    {
      this.qsettings := qsettings;
      this.store := store;
      this.languages := languages;
      textUpdates := 0;
    }

    /**
     * `on_file_format_changed`: TXT also writes `export_use_txt` "true" and CSV "false",
     * JSON leaves it alone; the format goes to `export_file_format` in both stores.
     */
    method OnFileFormatChanged(button: Radio)
      modifies this`qsettings, store
      ensures var f := FileFormatOf(button);
        && qsettings == (if f == "txt" then old(qsettings)["export_use_txt" := "true"]
                         else if f == "csv" then old(qsettings)["export_use_txt" := "false"]
                         else old(qsettings))["export_file_format" := f]
        && store.file == Settings.Holds(Obj(Settings.Loaded(old(store.file), Settings.Defaults)["export_file_format" := Str(f)]))
    {
      var f := FileFormatOf(button);
      if f == "txt" {
        qsettings := qsettings["export_use_txt" := "true"];
      } else if f == "csv" {
        qsettings := qsettings["export_use_txt" := "false"];
      }
      qsettings := qsettings["export_file_format" := f];
      store.SetSetting("export_file_format", Str(f));
    }

    /**
     * `change_language`: nothing when the language is already the current one; otherwise
     * it is saved to both stores, the manager switches and the texts are redone.
     */
    method ChangeLanguage(language: string, locale: Option<string>)
      modifies this`qsettings, this`textUpdates, store, languages`currentLanguage, languages`savedLanguage, languages`emitted
      ensures Some(language) == old(languages.currentLanguage) ==>
        && qsettings == old(qsettings) && store.file == old(store.file) && textUpdates == old(textUpdates)
        && languages.currentLanguage == old(languages.currentLanguage) && languages.emitted == old(languages.emitted)
      ensures Some(language) != old(languages.currentLanguage) ==>
        && qsettings == old(qsettings)["language" := language]
        && store.file == Settings.Holds(Obj(Settings.Loaded(old(store.file), Settings.Defaults)["language" := Str(language)]))
        && languages.currentLanguage == Some(LanguageManager.EffectiveLanguage(language, locale))
        && textUpdates == old(textUpdates) + 1
    {
      if Some(language) != languages.currentLanguage {
        store.SetSetting("language", Str(language));
        qsettings := qsettings["language" := language];
        languages.SetLanguage(language, locale);
        textUpdates := textUpdates + 1;
      }
    }

    /** `on_export_format_changed`: a non-empty key is stored as `export_format` in both stores; no key changes nothing. */
    method OnExportFormatChanged(key: Option<string>)
      modifies this`qsettings, store
      ensures key.Some? && key.value != "" ==>
        && qsettings == old(qsettings)["export_format" := key.value]
        && store.file == Settings.Holds(Obj(Settings.Loaded(old(store.file), Settings.Defaults)["export_format" := Str(key.value)]))
      ensures !(key.Some? && key.value != "") ==> qsettings == old(qsettings) && store.file == old(store.file)
    {
      if key.Some? && key.value != "" {
        qsettings := qsettings["export_format" := key.value];
        store.SetSetting("export_format", Str(key.value));
      }
    }
  }

  /** After a file-format change the JSON settings read back that format, and the other keys as before. */
  lemma FileFormatReadsBack(file: Settings.SettingsFile, button: Radio, other: string, default: Value)
    requires other != "export_file_format"
    ensures var written := Settings.Holds(Obj(Settings.Loaded(file, Settings.Defaults)["export_file_format" := Str(FileFormatOf(button))]));
      && Settings.Lookup(written, "export_file_format", default) == Str(FileFormatOf(button))
      && Settings.Lookup(written, other, default) == Settings.Lookup(file, other, default)
  {
    Settings.SetThenGet(file, "export_file_format", Str(FileFormatOf(button)), other, default);
  }
}

/**
 * The older settings page of `views/settings_view.py`: the same size units, a stored
 * 'custom' export format replaced by the default, a TXT/CSV flag, and the language switch.
 */
module LegacySettingsView {
  import opened Wrappers
  import LanguageManager

  const DefaultFormat := "name-artists"

  /** The export format the page shows for the stored one: a missing or 'custom' format is the default. */
  function ShownFormat(stored: Option<string>): (f: string)
    ensures f != "custom"
    ensures stored.Some? && stored.value != "custom" ==> f == stored.value
  {
    if stored.None? || stored.value == "custom" then DefaultFormat else stored.value
  }

  class LegacySettingsView {
    var qsettings: map<string, string>
    const languages: LanguageManager.LanguageManager

    constructor(qsettings: map<string, string>, languages: LanguageManager.LanguageManager)
      ensures this.qsettings == qsettings && this.languages == languages
    {
      this.qsettings := qsettings;
      this.languages := languages;
    }

    /**
     * Reading the export format on building or retranslating the page: a stored 'custom'
     * is replaced by 'name-artists' and written back; any other value is left as it is.
     */
    method RefreshExportFormat() returns (shown: string)
      modifies this`qsettings
      ensures var stored := if "export_format" in old(qsettings) then Some(old(qsettings)["export_format"]) else None;
        && shown == ShownFormat(stored)
        && qsettings == if stored == Some("custom") then old(qsettings)["export_format" := DefaultFormat] else old(qsettings)
      ensures "export_format" in qsettings ==> qsettings["export_format"] != "custom"
    {
      var current := if "export_format" in qsettings then qsettings["export_format"] else DefaultFormat;
      if current == "custom" {
        current := DefaultFormat;
        qsettings := qsettings["export_format" := current];
      }
      shown := current;
    }

    /** `on_file_format_changed`: `export_use_txt` is "true" exactly when the TXT radio was clicked. */
    method OnFileFormatChanged(txtClicked: bool)
      modifies this`qsettings
      ensures qsettings == old(qsettings)["export_use_txt" := if txtClicked then "true" else "false"]
    {
      qsettings := qsettings["export_use_txt" := if txtClicked then "true" else "false"];
    }

    /** `on_export_format_changed`: a non-empty key is stored as `export_format`. */
    method OnExportFormatChanged(key: Option<string>)
      modifies this`qsettings
      ensures qsettings == if key.Some? && key.value != "" then old(qsettings)["export_format" := key.value] else old(qsettings)
    {
      if key.Some? && key.value != "" {
        qsettings := qsettings["export_format" := key.value];
      }
    }

    /** `change_language`: the manager switches only to a language other than the current one. */
    method ChangeLanguage(language: string, locale: Option<string>)
      modifies languages`currentLanguage, languages`savedLanguage, languages`emitted
      ensures Some(language) == old(languages.currentLanguage) ==>
        languages.currentLanguage == old(languages.currentLanguage) && languages.emitted == old(languages.emitted)
        && languages.savedLanguage == old(languages.savedLanguage)
      ensures Some(language) != old(languages.currentLanguage) ==>
        languages.currentLanguage == Some(LanguageManager.EffectiveLanguage(language, locale))
    {
      if Some(language) != languages.currentLanguage {
        languages.SetLanguage(language, locale);
      }
    }
  }
}
