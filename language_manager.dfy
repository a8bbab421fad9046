/**
 * The translation tables and language choice of `src/utils/language_manager.py`. The
 * loaded locale files are a parameter (language code to parsed JSON); the system locale
 * is a parameter too, None when there is none or reading it raises. The `language`
 * setting the manager writes is recorded in `savedLanguage`, and the emitted
 * `language_changed` signals in `emitted`.
 */
module LanguageManager {
  import opened Wrappers
  import opened Json
  import Strings

  const Supported: seq<string> := ["zh_CN", "en_US"]
  const DefaultLanguage := "en_US"

  // ---------------------------------------------------------------- get_text

  /** The value reached by following `keys` through nested dicts, None at the first missing segment. */
  function Walk(v: Value, keys: seq<string>): Option<Value>
    decreases |keys|
  {
    if |keys| == 0 then Some(v)
    else if v.Obj? && keys[0] in v.fields then Walk(v.fields[keys[0]], keys[1..])
    else None
  }

  /** Walking one more segment continues from where the shorter walk ended. */
  lemma {:induction false} WalkSnoc(v: Value, keys: seq<string>, k: string)
    ensures Walk(v, keys + [k]) ==
      match Walk(v, keys)
      case None => None
      case Some(w) => if w.Obj? && k in w.fields then Some(w.fields[k]) else None
    decreases |keys|
  {
    if |keys| > 0 {
      assert (keys + [k])[1..] == keys[1..] + [k];
      if v.Obj? && keys[0] in v.fields {
        WalkSnoc(v.fields[keys[0]], keys[1..], k);
      }
    } else {
      assert keys + [k] == [k];
      assert Walk(v, [k][1..]) == Some(v) by { assert [k][1..] == []; }
    }
  }

  /** What `get_text` returns: the default when no language is set, the walk is cut short or ends at a falsy value. */
  function TextOf(current: Option<string>, translations: map<string, Value>, key: string, default: Value): Value
  {
    if current.None? || current.value == "" then default
    else
      match Walk(Get(translations, current.value, Obj(map[])), Strings.Split(key, '.'))
      case None => default
      case Some(v) => if Truthy(v) then v else default
  }

  /** Nested dicts holding `leaf` under the path `keys`. */
  function Nest(keys: seq<string>, leaf: Value): Value
    decreases |keys|
  {
    if |keys| == 0 then leaf else Obj(map[keys[0] := Nest(keys[1..], leaf)])
  }

  lemma {:induction false} WalkNest(keys: seq<string>, leaf: Value)
    ensures Walk(Nest(keys, leaf), keys) == Some(leaf)
    decreases |keys|
  {
    if |keys| > 0 {
      WalkNest(keys[1..], leaf);
    }
  }

  /** Splitting segments joined with '.' gives the segments back when none holds a '.'. */
  lemma {:induction false} SplitJoin(segments: seq<string>)
    requires |segments| >= 1
    requires forall i :: 0 <= i < |segments| ==> '.' !in segments[i]
    ensures Strings.Split(Strings.Join(".", segments), '.') == segments
    decreases |segments|
  {
    if |segments| > 1 {
      var rest := Strings.Join(".", segments[1..]);
      assert Strings.Join(".", segments) == segments[0] + ['.'] + rest;
      Strings.SplitAfter(segments[0], '.', rest);
      SplitJoin(segments[1..]);
      assert segments == [segments[0]] + segments[1..];
    } else {
      assert Strings.Join(".", segments) == segments[0];
      assert Strings.IndexOf(segments[0], '.') == |segments[0]|;
    }
  }

  /**
   * A dotted key finds the text stored under its segments in the current language's
   * table, a segment missing anywhere on the way gives the default, and so does an empty
   * text; no language set gives the default.
   */
  lemma GetTextMeaning(lang: string, translations: map<string, Value>, segments: seq<string>, text: string, default: Value)
    requires lang != "" && |segments| >= 1
    requires forall i :: 0 <= i < |segments| ==> '.' !in segments[i]
    ensures var key := Strings.Join(".", segments);
      && TextOf(Some(lang), translations[lang := Nest(segments, Str(text))], key, default) == (if text == "" then default else Str(text))
      && TextOf(None, translations, key, default) == default
      && (lang !in translations ==> TextOf(Some(lang), translations, key, default) == default)
  {
    SplitJoin(segments);
    WalkNest(segments, Str(text));
  }

  /** A path ending at a non-empty dict returns that dict rather than a text. */
  lemma GetTextOfSection(lang: string, translations: map<string, Value>, key: string, default: Value)
    requires lang != "" && lang in translations
    requires var w := Walk(translations[lang], Strings.Split(key, '.')); w.Some? && w.value.Obj? && w.value.fields != map[]
    ensures TextOf(Some(lang), translations, key, default) == Walk(translations[lang], Strings.Split(key, '.')).value
  {
  }

  // ---------------------------------------------------------------- languages

  /** `_get_system_detected_language`. */
  function DetectLanguage(locale: Option<string>): (r: string)
    ensures r in Supported
    ensures r == "zh_CN" <==> locale.Some? && (Strings.StartsWith(locale.value, "zh_") || Strings.StartsWith(locale.value, "zh-"))
  {
    if locale.Some? && locale.value != "" && (Strings.StartsWith(locale.value, "zh_") || Strings.StartsWith(locale.value, "zh-")) then "zh_CN"
    else if locale.Some? && locale.value != "" && (Strings.StartsWith(locale.value, "en_") || Strings.StartsWith(locale.value, "en-")) then "en_US"
    else DefaultLanguage
  }

  /** `_load_language_from_settings`: the language in force at start-up for the stored setting. */
  function InitialLanguage(setting: string, locale: Option<string>): (r: string)
    ensures r in Supported
    ensures setting == "auto" ==> r == DetectLanguage(locale)
    ensures setting != "auto" && setting in Supported ==> r == setting
    ensures setting != "auto" && setting !in Supported ==> r == DefaultLanguage
  {
    if setting == "auto" then DetectLanguage(locale)
    else if setting in Supported then setting
    else DefaultLanguage
  }

  /** The language `set_language(code)` switches to. */
  function EffectiveLanguage(code: string, locale: Option<string>): (r: string)
    ensures r in Supported
    ensures code == "auto" ==> r == DetectLanguage(locale)
    ensures code != "auto" ==> r == if code in Supported then code else DefaultLanguage
  {
    if code == "auto" then DetectLanguage(locale)
    else if code in Supported then code
    else DefaultLanguage
  }

  class LanguageManager {
    var currentLanguage: Option<string>
    var translations: map<string, Value>
    /** The last value `set_language` wrote to the `language` setting, if any. */
    var savedLanguage: Option<string>
    /** The `language_changed` signals emitted, in order. */
    var emitted: seq<string>

    /**
     * `__init__`: each supported language gets its locale file's content, or an empty
     * table when no file loads, and the start-up language follows the stored setting.
     */
    constructor(files: map<string, Value>, setting: string, locale: Option<string>)
      ensures translations.Keys == set l | l in Supported
      ensures forall l :: l in Supported ==> translations[l] == Get(files, l, Obj(map[]))
      ensures currentLanguage == Some(InitialLanguage(setting, locale))
      ensures savedLanguage.None? && emitted == []
    {
      var tables: map<string, Value> := map[];
      var i := 0;
      while i < |Supported|
        invariant 0 <= i <= |Supported|
        invariant tables.Keys == set l | l in Supported[..i]
        invariant forall l :: l in Supported[..i] ==> tables[l] == Get(files, l, Obj(map[]))
      {
        var lang := Supported[i];
        tables := tables[lang := Get(files, lang, Obj(map[]))];
        i := i + 1;
      }
      assert Supported[..i] == Supported;
      translations := tables;
      currentLanguage := Some(InitialLanguage(setting, locale));
      savedLanguage := None;
      emitted := [];
    }

    /** `get_text`, walking the key's segments one at a time. */
    method GetText(key: string, default: Value) returns (r: Value)
      ensures r == TextOf(currentLanguage, translations, key, default)
    {
      if currentLanguage.None? || currentLanguage.value == "" {
        return default;
      }
      var table := Get(translations, currentLanguage.value, Obj(map[]));
      var keys := Strings.Split(key, '.');
      var value := table;
      var i := 0;
      while i < |keys|
        invariant 0 <= i <= |keys|
        invariant Walk(table, keys[..i]) == Some(value)
      {
        WalkSnoc(table, keys[..i], keys[i]);
        assert keys[..i + 1] == keys[..i] + [keys[i]];
        if value.Obj? && keys[i] in value.fields {
          value := value.fields[keys[i]];
        } else {
          assert Walk(table, keys[..i + 1]).None?;
          WalkPrefixNone(table, keys, i + 1);
          return default;
        }
        i := i + 1;
      }
      assert keys[..i] == keys;
      return if Truthy(value) then value else default;
    }

    /**
     * `set_language`. 'auto' is saved as it is and switches to the detected language; any
     * other code is replaced by en_US when unsupported, and is saved only when it changes
     * the language. A signal goes out exactly when the language changes.
     */
    method SetLanguage(code: string, locale: Option<string>)
      modifies this`currentLanguage, this`savedLanguage, this`emitted
      ensures currentLanguage == Some(EffectiveLanguage(code, locale))
      ensures var changed := old(currentLanguage) != Some(EffectiveLanguage(code, locale));
        && emitted == old(emitted) + (if changed then [EffectiveLanguage(code, locale)] else [])
        && savedLanguage == if code == "auto" then Some("auto") else if changed then Some(EffectiveLanguage(code, locale)) else old(savedLanguage)
    {
      if code == "auto" {
        savedLanguage := Some("auto");
        var systemLang := DetectLanguage(locale);
        if currentLanguage != Some(systemLang) {
          currentLanguage := Some(systemLang);
          emitted := emitted + [systemLang];
        }
        return;
      }
      var c := code;
      if c !in Supported {
        c := DefaultLanguage;
      }
      if currentLanguage != Some(c) {
        currentLanguage := Some(c);
        savedLanguage := Some(c);
        emitted := emitted + [c];
      }
    }
  }

  /** A walk cut short at a prefix stays cut short over the whole path. */
  lemma {:induction false} WalkPrefixNone(v: Value, keys: seq<string>, n: nat)
    requires n <= |keys| && Walk(v, keys[..n]).None?
    ensures Walk(v, keys).None?
    decreases |keys|
  {
    if n > 0 {
      assert keys[..n][1..] == keys[1..][..n - 1];
      if v.Obj? && keys[0] in v.fields {
        WalkPrefixNone(v.fields[keys[0]], keys[1..], n - 1);
      }
    }
  }
}
