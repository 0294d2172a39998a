/** Translation lookup (translations.py): the current language, how it is loaded
    from and saved to the settings table, and the fallback rules of `get`. */
module Translations {
  import opened Base
  import opened Tables

  /** The language codes TRANSLATIONS has tables for. */
  const Languages: set<string> := {"en", "fa"}

  /** `TRANSLATIONS.get(lang, TRANSLATIONS['en']).get(key, default or key)`: the
      language's table, or the English one for an unknown language; the key's entry,
      or else a non-empty default, or else the key itself. */
  function Lookup(tables: map<string, map<string, string>>, lang: string, key: string,
                  default: Option<string>): string
    requires "en" in tables
  {
    var table := if lang in tables then tables[lang] else tables["en"];
    if key in table then table[key]
    else if default.Some? && default.value != "" then default.value
    else key
  }

  /** The three fallback rules of `get`. */
  lemma LookupFallbacks(tables: map<string, map<string, string>>, lang: string, key: string,
                        default: Option<string>)
    requires "en" in tables
    ensures lang in tables && key in tables[lang] ==> Lookup(tables, lang, key, default) == tables[lang][key]
    ensures lang !in tables ==> Lookup(tables, lang, key, default) == Lookup(tables, "en", key, default)
    ensures (lang in tables ==> key !in tables[lang]) && (lang !in tables ==> key !in tables["en"]) ==>
              Lookup(tables, lang, key, default) == (if default.Some? && default.value != "" then default.value else key)
  {
  }

  predicate IsLanguageSetting(s: Setting) { s.key == "language" }

  /** `UPDATE settings SET value = ? WHERE key = 'language'`. */
  function SaveLanguage(settings: seq<Setting>, code: string): seq<Setting>
  {
    UpdateWhere(settings, IsLanguageSetting, (s: Setting) => s.(value := code))
  }

  /** Saving the language keeps every key, changes only the language row's value,
      and a later load reads the saved code back. */
  lemma SaveThenLoad(settings: seq<Setting>, code: string)
    requires Unique(settings, KeyOf)
    ensures var r := SaveLanguage(settings, code);
            && |r| == |settings|
            && (forall i :: 0 <= i < |settings| ==> r[i].key == settings[i].key)
            && (forall i :: 0 <= i < |settings| && settings[i].key != "language" ==> r[i] == settings[i])
            && (SettingIndex(settings, "language").Some? ==>
                  SettingIndex(r, "language") == SettingIndex(settings, "language")
                  && r[SettingIndex(r, "language").value].value == code)
  {
    var r := SaveLanguage(settings, code);
    assert forall i :: 0 <= i < |settings| ==>
      r[i] == if IsLanguageSetting(settings[i]) then settings[i].(value := code) else settings[i];
    var a := SettingIndex(settings, "language");
    if a.Some? {
      var b := SettingIndex(r, "language");
      assert r[a.value].key == "language";
      assert b.Some?;
      assert settings[b.value].key == "language";
      assert a.value == b.value;
    }
  }

  /** The language a fresh translator starts in: 'fa' unless a 'language' setting
      exists, whose stored value is then taken as it is. */
  function StartingLanguage(settings: seq<Setting>): string
  {
    match SettingIndex(settings, "language")
    case None => "fa"
    case Some(k) => settings[k].value
  }

  class Translator {
    var currentLanguage: string
    const tables: map<string, map<string, string>>

    ghost predicate Valid()
      reads this
    {
      tables.Keys == Languages
    }

    /** `__init__` followed by `load_language_from_db`. */
    constructor (tables: map<string, map<string, string>>, settings: seq<Setting>)
      requires tables.Keys == Languages
      ensures Valid() && this.tables == tables
      ensures currentLanguage == StartingLanguage(settings)
      ensures SettingIndex(settings, "language").None? ==> currentLanguage == "fa"
    {
      this.tables := tables;
      currentLanguage := "fa";
      var stored := SettingIndex(settings, "language");
      if stored.Some? {
        currentLanguage := settings[stored.value].value;
      }
    }

    /** `set_language`: a code with a table becomes current and is saved to the
        settings; any other code is ignored. */
    method SetLanguage(code: string, db: Db)
      requires Valid() && db.Valid()
      modifies this`currentLanguage, db`settings
      ensures Valid() && db.Valid()
      ensures code in Languages ==> currentLanguage == code && db.settings == SaveLanguage(old(db.settings), code)
      ensures code in Languages ==> (IsRtl() <==> code == "fa")
      ensures code !in Languages ==> currentLanguage == old(currentLanguage) && db.settings == old(db.settings)
    {
      if code in tables {
        currentLanguage := code;
        db.settings := UpdateWhere(db.settings, IsLanguageSetting, (s: Setting) => s.(value := code));
        assert forall i :: 0 <= i < |db.settings| ==> KeyOf(db.settings[i]) == KeyOf(old(db.settings)[i]);
      }
    }

    /** `get`. */
    function Get(key: string, default: Option<string>): (r: string)
      requires Valid()
      reads this
      ensures currentLanguage in tables && key in tables[currentLanguage] ==> r == tables[currentLanguage][key]
      ensures currentLanguage !in tables ==> r == Lookup(tables, "en", key, default)
    {
      Lookup(tables, currentLanguage, key, default)
    }

    /** `is_rtl`: only Persian is written right to left, so a right-to-left
        translator is in a language that has a table. */
    predicate IsRtl(): (b: bool)
      reads this
      ensures b ==> currentLanguage in Languages
    {
      currentLanguage == "fa"
    }
  }
}
