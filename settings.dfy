/**
 * The JSON settings store of `src/config/settings.py`: the settings file is a field
 * holding its state (missing, unreadable, or parsed JSON), and loading fills every
 * default key the file lacks. The merge is shared with the start-up settings of
 * `main.py` (module `MainSettings`).
 */
module Settings {
  import opened Json

  /** The settings file on disk. */
  datatype SettingsFile = Missing | Unreadable | Holds(content: Value)

  /** `DEFAULT_SETTINGS`. */
  const Defaults: map<string, Value> := map[
    "language" := Str("auto"),
    "window_width" := Int(1000),
    "window_height" := Int(780),
    "window_x" := Int(100),
    "window_y" := Int(100),
    "sidebar_collapsed" := Bool(false),
    "log_level" := Str("info")]

  /** The stored settings with every missing default key added. */
  function Merge(stored: map<string, Value>, defaults: map<string, Value>): map<string, Value>
  {
    map k | k in stored.Keys + defaults.Keys :: if k in stored then stored[k] else defaults[k]
  }

  /**
   * The merged dict holds every stored key with its stored value, every default key, and
   * nothing else; a default applies only where the file has no value. Merging is idempotent.
   */
  lemma MergeMeaning(stored: map<string, Value>, defaults: map<string, Value>)
    ensures Merge(stored, defaults).Keys == stored.Keys + defaults.Keys
    ensures forall k :: k in stored ==> Merge(stored, defaults)[k] == stored[k]
    ensures forall k :: k in defaults && k !in stored ==> Merge(stored, defaults)[k] == defaults[k]
    ensures Merge(Merge(stored, defaults), defaults) == Merge(stored, defaults)
    ensures Merge(map[], defaults) == defaults
  {
  }

  /**
   * The loop `for key, value in DEFAULT_SETTINGS.items(): if key not in settings: ...`,
   * over the default keys in any order.
   */
  method FillDefaults(stored: map<string, Value>, defaults: map<string, Value>) returns (r: map<string, Value>)
    ensures r == Merge(stored, defaults)
  {
    r := stored;
    var todo := defaults.Keys;
    while todo != {}
      invariant todo <= defaults.Keys
      invariant r.Keys == stored.Keys + (defaults.Keys - todo)
      invariant forall k :: k in r ==> r[k] == if k in stored then stored[k] else defaults[k]
      decreases todo
    {
      var k :| k in todo;
      ghost var done := defaults.Keys - todo;
      if k !in r {
        r := r[k := defaults[k]];
      }
      todo := todo - {k};
      assert defaults.Keys - todo == done + {k};
    }
    MergeOf(stored, defaults, r);
  }

  /** A map with the merged keys and, at each, the stored value or else the default is the merge. */
  lemma MergeOf(stored: map<string, Value>, defaults: map<string, Value>, r: map<string, Value>)
    requires r.Keys == stored.Keys + defaults.Keys
    requires forall k :: k in r ==> r[k] == if k in stored then stored[k] else defaults[k]
    ensures r == Merge(stored, defaults)
  {
  }

  /** What loading gives for a file: its dict merged with the defaults, otherwise the defaults. */
  function Loaded(file: SettingsFile, defaults: map<string, Value>): map<string, Value>
  {
    if file.Holds? && file.content.Obj? then Merge(file.content.fields, defaults) else defaults
  }

  /** `settings.get(key, default)` on the loaded settings. */
  function Lookup(file: SettingsFile, key: string, default: Value): Value
  {
    Get(Loaded(file, Defaults), key, default)
  }

  /**
   * `get_setting(k, d)` gives the file's value, else the default setting, and `d` only
   * when neither has `k`; with no usable file it gives the defaults.
   */
  lemma LookupMeaning(file: SettingsFile, key: string, default: Value)
    ensures file.Holds? && file.content.Obj? && key in file.content.fields ==> Lookup(file, key, default) == file.content.fields[key]
    ensures !(file.Holds? && file.content.Obj? && key in file.content.fields) && key in Defaults ==> Lookup(file, key, default) == Defaults[key]
    ensures Lookup(file, key, default) == default <== !(file.Holds? && file.content.Obj? && key in file.content.fields) && key !in Defaults
    ensures !file.Holds? ==> Loaded(file, Defaults) == Defaults
  {
  }

  /**
   * After `set_setting(k, v)` the key reads back as `v` and every other key reads as
   * before; the written file holds the merged settings.
   */
  lemma SetThenGet(file: SettingsFile, key: string, value: Value, other: string, default: Value)
    requires other != key
    ensures var written := Holds(Obj(Loaded(file, Defaults)[key := value]));
      && Lookup(written, key, default) == value
      && Lookup(written, other, default) == Lookup(file, other, default)
  {
  }

  /** Loading after `save_settings(s)` gives `s` merged with the defaults, and re-saving what was loaded changes nothing. */
  lemma SaveLoadRoundTrip(s: map<string, Value>, file: SettingsFile)
    ensures Loaded(Holds(Obj(s)), Defaults) == Merge(s, Defaults)
    ensures Loaded(Holds(Obj(Loaded(file, Defaults))), Defaults) == Loaded(file, Defaults)
  {
  }

  class SettingsStore {
    var file: SettingsFile

    constructor(file: SettingsFile)
      ensures this.file == file
    {
      this.file := file;
    }

    /** `load_settings`. */
    method LoadSettings() returns (r: map<string, Value>)
      ensures r == Loaded(file, Defaults)
    {
      if file.Holds? && file.content.Obj? {
        r := FillDefaults(file.content.fields, Defaults);
      } else {
        r := Defaults;
      }
    }

    /** `save_settings`. */
    method SaveSettings(settings: map<string, Value>)
      modifies this
      ensures file == Holds(Obj(settings))
    {
      file := Holds(Obj(settings));
    }

    /** `get_setting`. */
    method GetSetting(key: string, default: Value) returns (r: Value)
      ensures r == Lookup(file, key, default)
    {
      var settings := LoadSettings();
      r := Get(settings, key, default);
    }

    /** `set_setting`: read, update one key, write back. */
    method SetSetting(key: string, value: Value)
      modifies this
      ensures file == Holds(Obj(Loaded(old(file), Defaults)[key := value]))
    {
      var settings := LoadSettings();
      settings := settings[key := value];
      SaveSettings(settings);
    }
  }
}

/** The start-up settings of `main.py`: another file with its own defaults and the same merge. */
module MainSettings {
  import opened Json
  import Settings

  /** `default_settings` of `main.py`. */
  const MainDefaults: map<string, Value> := map[
    "window_width" := Int(1200),
    "window_height" := Int(780),
    "window_x" := Int(100),
    "window_y" := Int(100),
    "sidebar_collapsed" := Bool(false)]

  /** `load_settings` of `main.py`: no file or a failed read gives the defaults, a file is merged with them. */
  method LoadSettings(file: Settings.SettingsFile) returns (r: map<string, Value>)
    ensures r == Settings.Loaded(file, MainDefaults)
    ensures !file.Holds? ==> r == MainDefaults
    ensures r.Keys >= MainDefaults.Keys
    ensures file.Holds? && file.content.Obj? ==> forall k :: k in file.content.fields ==> k in r && r[k] == file.content.fields[k]
  {
    if file.Holds? && file.content.Obj? {
      r := Settings.FillDefaults(file.content.fields, MainDefaults);
    } else {
      r := MainDefaults;
    }
  }

  /** Loading after `save_settings(s)` gives `s` merged with the defaults. */
  lemma SaveLoadRoundTrip(s: map<string, Value>)
    ensures Settings.Loaded(Settings.Holds(Obj(s)), MainDefaults) == Settings.Merge(s, MainDefaults)
    ensures forall k :: k in MainDefaults && k !in s ==> Settings.Loaded(Settings.Holds(Obj(s)), MainDefaults)[k] == MainDefaults[k]
  {
  }
}
