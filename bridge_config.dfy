/**
 * The bridge's two files (bridge/config.py): `config.json`, written once the
 * browser sends the settings, and `state.json`, a small key/value map
 * holding the sync watermark and the chosen language. Each accessor of the
 * state reads the whole file, changes one key and writes it all back.
 */
module BridgeConfig {
  import opened Common
  import opened PyValue

  // ---------------------------------------------------------------- state.json

  /** What `state.json` holds: no file, text that does not decode as JSON, or a JSON object. */
  datatype StateFile = NoFile | Undecodable | Stored(data: map<string, Json>)

  const LastSyncKey := "last_sync_at"
  const LanguageKey := "language"

  /** `_load_state`: a missing or undecodable file reads as the empty map. */
  function LoadState(f: StateFile): (m: map<string, Json>)
    ensures f.Stored? ==> m == f.data
    ensures !f.Stored? ==> m == map[]
  {
    if f.Stored? then f.data else map[]
  }

  /** `lang if lang in ("uk", "en") else "uk"`. */
  function NormalLanguage(lang: string): (r: string)
    ensures r == "uk" || r == "en"
    ensures r == lang <==> lang == "uk" || lang == "en"
  {
    if lang == "uk" || lang == "en" then lang else "uk"
  }

  /** `state.get("language", "uk") or "uk"`. */
  function LanguageOf(state: map<string, Json>): (r: Json)
    ensures Truthy(r)
    ensures LanguageKey in state && Truthy(state[LanguageKey]) ==> r == state[LanguageKey]
    ensures !(LanguageKey in state && Truthy(state[LanguageKey])) ==> r == JStr("uk")
  {
    Or(if LanguageKey in state then state[LanguageKey] else JStr("uk"), JStr("uk"))
  }

  class StateStore {
    var file: StateFile

    constructor (file: StateFile)
      ensures this.file == file
    {
      this.file := file;
    }

    /** `load_last_sync()`: the stored value, `None` (null) when there is none. */
    method LoadLastSync() returns (r: Json)
      ensures r == Get(LoadState(file), LastSyncKey)
    {
      var data := LoadState(file);
      r := Get(data, LastSyncKey);
    }

    /** `save_last_sync(iso)`: read the state, set the watermark, write the state back. */
    method SaveLastSync(iso: string)
      modifies this
      ensures file == Stored(LoadState(old(file))[LastSyncKey := JStr(iso)])
    {
      var data := LoadState(file);
      data := data[LastSyncKey := JStr(iso)];
      file := Stored(data);
    }

    /** `has_saved_language()`. */
    method HasSavedLanguage() returns (r: bool)
      ensures r <==> LanguageKey in LoadState(file)
    {
      var data := LoadState(file);
      r := LanguageKey in data;
    }

    /** `get_language()`. */
    method GetLanguage() returns (r: Json)
      ensures r == LanguageOf(LoadState(file))
    {
      var data := LoadState(file);
      r := Or(if LanguageKey in data then data[LanguageKey] else JStr("uk"), JStr("uk"));
    }

    /** `save_language(lang)`: read the state, set the language (only "uk" or "en"), write the state back. */
    method SaveLanguage(lang: string)
      modifies this
      ensures file == Stored(LoadState(old(file))[LanguageKey := JStr(NormalLanguage(lang))])
    {
      var data := LoadState(file);
      data := data[LanguageKey := JStr(if lang == "uk" || lang == "en" then lang else "uk")];
      file := Stored(data);
    }
  }

  /** Saving the watermark then loading it gives it back, and every other key keeps its value. */
  lemma SaveThenLoadLastSync(f: StateFile, iso: string)
    ensures var g := Stored(LoadState(f)[LastSyncKey := JStr(iso)]);
      && Get(LoadState(g), LastSyncKey) == JStr(iso)
      && LanguageOf(LoadState(g)) == LanguageOf(LoadState(f))
      && (LanguageKey in LoadState(g) <==> LanguageKey in LoadState(f))
      && forall k :: k != LastSyncKey ==> Get(LoadState(g), k) == Get(LoadState(f), k)
  {
  }

  /** Saving a language then reading it gives its normal form; the watermark and every other key keep their values. */
  lemma SaveThenGetLanguage(f: StateFile, lang: string)
    ensures var g := Stored(LoadState(f)[LanguageKey := JStr(NormalLanguage(lang))]);
      && LanguageOf(LoadState(g)) == JStr(NormalLanguage(lang))
      && LanguageKey in LoadState(g)
      && forall k :: k != LanguageKey ==> Get(LoadState(g), k) == Get(LoadState(f), k)
  {
  }

  /** A missing or undecodable state has no watermark, no saved language, and reads as Ukrainian. */
  lemma MissingStateIsEmpty(f: StateFile)
    requires !f.Stored?
    ensures Get(LoadState(f), LastSyncKey) == JNull
    ensures LanguageKey !in LoadState(f) && LanguageOf(LoadState(f)) == JStr("uk")
  {
  }

  // ---------------------------------------------------------------- config.json

  datatype ConfigFile = NoConfig | CorruptConfig | ConfigStored(data: map<string, Json>)

  /** What `load_config()` gives: `FileNotFoundError`, a JSON decoding error, or the object. */
  datatype ConfigLoad = NotFound | DecodeError | Loaded(config: map<string, Json>)

  class ConfigStore {
    var file: ConfigFile

    constructor (file: ConfigFile)
      ensures this.file == file
    {
      this.file := file;
    }

    /** `save_config(config)`: replace the file. */
    method SaveConfig(config: map<string, Json>)
      modifies this
      ensures file == ConfigStored(config)
    {
      file := ConfigStored(config);
    }

    /** `load_config()`. */
    method LoadConfig() returns (r: ConfigLoad)
      ensures file.NoConfig? <==> r == NotFound
      ensures file.CorruptConfig? <==> r == DecodeError
      ensures file.ConfigStored? ==> r == Loaded(file.data)
    {
      match file
      case NoConfig => r := NotFound;
      case CorruptConfig => r := DecodeError;
      case ConfigStored(data) => r := Loaded(data);
    }
  }
}
