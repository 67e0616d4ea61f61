/** The server's runtime settings (`runtime_settings` in server.py): the
    defaults of the `Settings` model, the merge with `settings.json` at start
    up, the normalisation of the address keys and the `POST /api/settings`
    update rule. */
module RuntimeSettings {
  import opened Wrappers
  import opened Text
  import opened JsonValue
  import opened UrlNormalization
  import opened Maps

  /** A settings dictionary: every value the server keeps is a string. */
  type Settings = map<string, string>

  const OllamaUrlKey: string := "ollama_url"
  const RemoteUrlKey: string := "remote_url"
  const CloudPathKey: string := "cloud_storage_path"

  /** `Settings().model_dump()` with no environment variables set. */
  const DefaultSettings: Settings := map[
    "openai_key" := "",
    "openai_model" := "gpt-4o-mini",
    OllamaUrlKey := "http://localhost:11434",
    "ollama_model" := "llama3.1",
    RemoteUrlKey := "",
    "tailscale_ip" := "",
    "system_instructions" := "",
    CloudPathKey := DefaultCloudStoragePath
  ]

  /** The three keys with their own normaliser are different keys. */
  lemma KeysDistinct()
    ensures OllamaUrlKey != RemoteUrlKey && OllamaUrlKey != CloudPathKey && RemoteUrlKey != CloudPathKey
  {
    assert OllamaUrlKey[0] == 'o' && RemoteUrlKey[0] == 'r' && CloudPathKey[0] == 'c';
  }


  /** Python's `d.get(key, default)` on a settings dictionary. */
  function Get(s: Settings, key: string, default: string): string {
    if key in s then s[key] else default
  }

  /** The string-valued entries of a stored JSON object; nothing for any
      other document (`stored.items()` raises on a non-object and the loader
      keeps the defaults). */
  function StoredStrings(content: Json): (r: Settings)
    ensures forall k :: k in r <==> content.JObj? && k in content.fields && content.fields[k].JStr?
    ensures forall k :: k in r ==> content.fields[k] == JStr(r[k])
  {
    match content
    case JObj(fields) => map k | k in fields && fields[k].JStr? :: fields[k].s
    case _ => map[]
  }

  /** `_load_runtime_settings()`: the defaults, overridden and extended by the
      string values of a stored object. */
  function MergeStored(file: JsonFile): (r: Settings)
    ensures DefaultSettings.Keys <= r.Keys
    ensures forall k :: k in r ==>
      if file.Stored? && k in StoredStrings(file.content) then r[k] == StoredStrings(file.content)[k]
      else k in DefaultSettings && r[k] == DefaultSettings[k]
  {
    if file.Stored? then DefaultSettings + StoredStrings(file.content) else DefaultSettings
  }

  /** The string-valued entries of `fields` among the keys `done`. */
  function StringsAmong(fields: map<string, Json>, done: set<string>): (r: Settings)
    ensures forall k :: k in r <==> k in done && k in fields && fields[k].JStr?
  {
    map k | k in done && k in fields && fields[k].JStr? :: fields[k].s
  }

  /** Taking one more stored entry into account adds at most that entry. */
  lemma StringsAmongStep(fields: map<string, Json>, done: set<string>, key: string)
    requires key in fields
    ensures StringsAmong(fields, done + {key})
         == if fields[key].JStr? then StringsAmong(fields, done)[key := fields[key].s]
            else StringsAmong(fields, done)
  {
  }

  /** The loader as the server runs it: copy the defaults, then walk the
      stored entries and keep the string ones. */
  method LoadRuntimeSettings(file: JsonFile) returns (settings: Settings)
    ensures settings == MergeStored(file)
  {
    settings := DefaultSettings;
    if file.Stored? && file.content.JObj? {
      var fields := file.content.fields;
      var pending := fields.Keys;
      while pending != {}
        invariant pending <= fields.Keys
        invariant settings == DefaultSettings + StringsAmong(fields, fields.Keys - pending)
        decreases |pending|
      {
        var key :| key in pending;
        StringsAmongStep(fields, fields.Keys - pending, key);
        RemoveOne(fields.Keys, pending, key);
        if fields[key].JStr? {
          OverrideStep(DefaultSettings, StringsAmong(fields, fields.Keys - pending), key, fields[key].s);
          settings := settings[key := fields[key].s];
        }
        pending := pending - {key};
      }
      assert fields.Keys - pending == fields.Keys;
      assert StringsAmong(fields, fields.Keys) == StoredStrings(file.content);
    }
  }

  /** A string is a usable service address: empty, or an `http://`/`https://`
      URL without surrounding whitespace. */
  predicate SchemedOrEmpty(u: string) {
    u == "" || ((StartsWith(u, "http://") || StartsWith(u, "https://")) && Strip(u, PyWhitespace) == u)
  }

  /** The value of an address key once normalised with `http` or `https`. */
  lemma NormalizedIsSchemedOrEmpty(value: string, scheme: string)
    requires scheme == "http" || scheme == "https"
    ensures SchemedOrEmpty(NormalizeExternalUrl(value, scheme))
  {
    NormalizeBlank(value, scheme);
    if !AllIn(value, PyWhitespace) {
      NormalizeGivesHttpUrl(value, scheme);
    }
  }

  /** `if s.get(key): s[key] = _normalize_external_url(s[key], scheme)`. */
  function NormalizeIfSet(s: Settings, key: string, scheme: string): (r: Settings)
    requires scheme == "http" || scheme == "https"
    ensures key !in s || s[key] == "" ==> r == s
    ensures key in s ==> key in r && r == s[key := r[key]] && SchemedOrEmpty(r[key])
    ensures key in s && s[key] != "" ==> r[key] == NormalizeExternalUrl(s[key], scheme)
  {
    if Get(s, key, "") != "" then
      NormalizedIsSchemedOrEmpty(s[key], scheme);
      s[key := NormalizeExternalUrl(s[key], scheme)]
    else s
  }

  /** The start-up treatment of the cloud path: normalised by the loader,
      then once more by `_update_cloud_storage_status`. */
  function NormalizeCloudPathTwice(s: Settings): (r: Settings)
    ensures CloudPathKey in r && r == s[CloudPathKey := r[CloudPathKey]]
    ensures r[CloudPathKey] != ""
  {
    var once := NormalizeCloudPath(Get(s, CloudPathKey, DefaultCloudStoragePath));
    s[CloudPathKey := NormalizeCloudPath(once)]
  }

  /** The settings the server runs with after start up (server.py:289-297):
      a non-empty `ollama_url` is normalised with `http`, a non-empty
      `remote_url` with `https`, and the cloud path is normalised twice. */
  function StartupSettings(loaded: Settings): (r: Settings)
  {
    NormalizeCloudPathTwice(NormalizeIfSet(NormalizeIfSet(loaded, OllamaUrlKey, "http"), RemoteUrlKey, "https"))
  }

  /** After start up the settings keep every loaded key, both address keys
      hold an empty value or a clean `http(s)://` URL, and the cloud path is
      never empty. */
  lemma StartupSettingsWellFormed(loaded: Settings)
    requires DefaultSettings.Keys <= loaded.Keys
    ensures var r := StartupSettings(loaded);
      r.Keys == loaded.Keys
      && SchemedOrEmpty(r[OllamaUrlKey]) && SchemedOrEmpty(r[RemoteUrlKey])
      && r[CloudPathKey] != ""
  {
    KeysDistinct();
    assert OllamaUrlKey in DefaultSettings && RemoteUrlKey in DefaultSettings;
    assert CloudPathKey in DefaultSettings;
    var s1 := NormalizeIfSet(loaded, OllamaUrlKey, "http");
    var s2 := NormalizeIfSet(s1, RemoteUrlKey, "https");
    assert s2[OllamaUrlKey] == s1[OllamaUrlKey];
  }

  /** `update_settings` applies the per-key normaliser to a new string value. */
  function NormalizeSetting(key: string, value: string): string {
    if key == OllamaUrlKey then NormalizeExternalUrl(value, "http")
    else if key == RemoteUrlKey then NormalizeExternalUrl(value, "https")
    else if key == CloudPathKey then NormalizeCloudPath(value)
    else value
  }

  /** The `updated` dictionary of `update_settings`: for every key already in
      the settings whose incoming value is a string, that value normalised. */
  function Changes(settings: Settings, data: map<string, Json>): (u: Settings)
    ensures u.Keys <= settings.Keys
    ensures forall k :: k in u <==> k in settings && k in data && data[k].JStr?
    ensures forall k :: k in u ==> u[k] == NormalizeSetting(k, data[k].s)
  {
    ChangesOn(settings.Keys, data)
  }

  /** The changes among the keys `keys` only. */
  function ChangesOn(keys: set<string>, data: map<string, Json>): (u: Settings)
    ensures forall k :: k in u <==> k in keys && k in data && data[k].JStr?
    ensures forall k :: k in u ==> u[k] == NormalizeSetting(k, data[k].s)
  {
    map k | k in keys && k in data && data[k].JStr? :: NormalizeSetting(k, data[k].s)
  }

  /** Taking one more key into account adds at most that key's change. */
  lemma ChangesOnStep(keys: set<string>, key: string, data: map<string, Json>)
    ensures ChangesOn(keys + {key}, data)
         == if key in data && data[key].JStr? then ChangesOn(keys, data)[key := NormalizeSetting(key, data[key].s)]
            else ChangesOn(keys, data)
  {
  }

  /** The settings held in memory after an update with a JSON object: the
      changes applied, and the cloud path normalised once more when it
      changed (`_update_cloud_storage_status`). */
  function UpdatedSettings(settings: Settings, data: map<string, Json>): Settings {
    ApplyChanges(settings, Changes(settings, data))
  }

  /** The changes `u` written over the settings, then the cloud path
      normalised again when it is among them. */
  function ApplyChanges(settings: Settings, u: Settings): Settings {
    if CloudPathKey in u then (settings + u)[CloudPathKey := NormalizeCloudPath(u[CloudPathKey])]
    else settings + u
  }

  /** Python's `key in data` test on a request body that is not an object
      either raises (`null`, booleans, numbers) or tests membership; when it
      succeeds, `data[key]` raises in turn. */
  predicate NonObjectHit(data: Json, key: string) {
    match data
    case JStr(s) => Contains(s, key)
    case JArr(items) => JStr(key) in items
    case JObj(_) => false
    case _ => true
  }

  /** The update keeps the set of keys and changes only the keys whose
      incoming value is a string. */
  lemma UpdateChangesOnlyStringKeys(settings: Settings, data: map<string, Json>)
    ensures UpdatedSettings(settings, data).Keys == settings.Keys
    ensures forall k :: k in settings && !(k in data && data[k].JStr?) ==>
      UpdatedSettings(settings, data)[k] == settings[k]
  {
  }

  /** A string value for an address key leaves it empty or a clean
      `http(s)://` URL; a string value for the cloud path leaves it non-empty. */
  lemma UpdateNormalizesAddresses(settings: Settings, data: map<string, Json>)
    requires DefaultSettings.Keys <= settings.Keys
    ensures var r := UpdatedSettings(settings, data);
      (OllamaUrlKey in data && data[OllamaUrlKey].JStr? ==> SchemedOrEmpty(r[OllamaUrlKey]))
      && (RemoteUrlKey in data && data[RemoteUrlKey].JStr? ==> SchemedOrEmpty(r[RemoteUrlKey]))
      && (CloudPathKey in data && data[CloudPathKey].JStr? ==> r[CloudPathKey] != "")
  {
    if OllamaUrlKey in data && data[OllamaUrlKey].JStr? {
      NormalizedIsSchemedOrEmpty(data[OllamaUrlKey].s, "http");
    }
    if RemoteUrlKey in data && data[RemoteUrlKey].JStr? {
      NormalizedIsSchemedOrEmpty(data[RemoteUrlKey].s, "https");
    }
  }

  /** A string given for `ollama_url` is stored normalised with `http`, one
      for `remote_url` with `https`, and one for any other known key other
      than the cloud path is stored as given. */
  lemma UpdateSetsGivenValues(settings: Settings, data: map<string, Json>, key: string, v: string)
    requires key in settings && key in data && data[key] == JStr(v)
    ensures key == OllamaUrlKey ==> UpdatedSettings(settings, data)[key] == NormalizeExternalUrl(v, "http")
    ensures key == RemoteUrlKey ==> UpdatedSettings(settings, data)[key] == NormalizeExternalUrl(v, "https")
    ensures key == CloudPathKey ==> UpdatedSettings(settings, data)[key] == NormalizeCloudPath(NormalizeCloudPath(v))
    ensures key != OllamaUrlKey && key != RemoteUrlKey && key != CloudPathKey ==>
      UpdatedSettings(settings, data)[key] == v
  {
    KeysDistinct();
  }

  /** Sending the same update twice leaves the settings as one update does:
      the changes depend on the incoming values and the key set only. */
  lemma UpdateIdempotent(settings: Settings, data: map<string, Json>)
    ensures UpdatedSettings(UpdatedSettings(settings, data), data) == UpdatedSettings(settings, data)
  {
    var u := Changes(settings, data);
    var once := UpdatedSettings(settings, data);
    UpdateChangesOnlyStringKeys(settings, data);
    ChangesDependOnKeys(once, settings, data);
    if CloudPathKey in u {
      OverrideAgainAt(settings, u, CloudPathKey, NormalizeCloudPath(u[CloudPathKey]));
    } else {
      OverrideAgain(settings, u);
    }
  }

  /** The changes an update makes depend on the settings' keys, not their values. */
  lemma ChangesDependOnKeys(a: Settings, b: Settings, data: map<string, Json>)
    requires a.Keys == b.Keys
    ensures Changes(a, data) == Changes(b, data)
  {
  }

  /** Applying changes among the settings' keys keeps the key set. */
  lemma ApplyChangesKeys(settings: Settings, u: Settings)
    requires u.Keys <= settings.Keys
    ensures ApplyChanges(settings, u).Keys == settings.Keys
  {
  }

  /** Reading back what the server saved gives the saved settings: every key
      is a string, and the defaults' keys are among them. */
  lemma SaveLoadRoundTrip(s: Settings)
    requires DefaultSettings.Keys <= s.Keys
    ensures MergeStored(Stored(StringObject(s))) == s
  {
    var stored := StoredStrings(StringObject(s));
    assert stored == s;
  }

  /** The file keeps the cloud path normalised once while memory holds it
      normalised twice, so the two can disagree: a quoted `" a"` is saved as
      ` a` and served as `a`. */
  lemma SavedCloudPathCanDiffer()
    ensures var data := map[CloudPathKey := JStr("\" a\"")];
      Changes(DefaultSettings, data)[CloudPathKey] == " a"
      && UpdatedSettings(DefaultSettings, data)[CloudPathKey] == "a"
  {
    var data := map[CloudPathKey := JStr("\" a\"")];
    assert CloudPathKey in DefaultSettings;
    KeysDistinct();
    var u := Changes(DefaultSettings, data);
    assert u[CloudPathKey] == NormalizeCloudPath("\" a\"");
    CloudPathNotIdempotent();
  }

  /** The response of `POST /api/settings`. */
  datatype UpdateResponse =
    | BadJson                    // 400 "Invalid JSON"
    | InternalError              // an uncaught TypeError: 500
    | Updated(updated: Settings) // {"status": "updated", "updated": updated}

  /** The body of an update request: not JSON at all, or a parsed document. */
  datatype RequestBody = Unparsable | Parsed(data: Json)

  /** `update_settings` on a body that is not a JSON object: the loop over
      the settings' keys stops with an uncaught `TypeError` at the first key
      the membership test accepts (or at once when the test itself raises),
      and otherwise nothing is updated. */
  method NonObjectUpdate(settings: Settings, data: Json) returns (resp: UpdateResponse)
    requires !data.JObj?
    ensures resp == (if exists k :: k in settings && NonObjectHit(data, k) then InternalError else Updated(map[]))
  {
    var pending := settings.Keys;
    while pending != {}
      invariant pending <= settings.Keys
      invariant forall k :: k in settings && k !in pending ==> !NonObjectHit(data, k)
      decreases |pending|
    {
      var key :| key in pending;
      if NonObjectHit(data, key) {
        return InternalError;
      }
      pending := pending - {key};
    }
    return Updated(map[]);
  }

  /** The loop of `update_settings` over the settings' keys on an object body:
      every key whose incoming value is a string is normalised and collected. */
  method CollectChanges(settings: Settings, fields: map<string, Json>) returns (updated: Settings)
    ensures updated == Changes(settings, fields)
  {
    updated := map[];
    var pending := settings.Keys;
    while pending != {}
      invariant pending <= settings.Keys
      invariant updated == ChangesOn(settings.Keys - pending, fields)
      decreases |pending|
    {
      var key :| key in pending;
      ChangesOnStep(settings.Keys - pending, key, fields);
      if key in fields && fields[key].JStr? {
        updated := updated[key := NormalizeSetting(key, fields[key].s)];
      }
      RemoveOne(settings.Keys, pending, key);
      pending := pending - {key};
    }
    assert settings.Keys - pending == settings.Keys;
  }

  /** The running server's settings and the settings file it writes. */
  class SettingsStore {
    var settings: Settings
    var file: JsonFile

    predicate Valid()
      reads this
    {
      DefaultSettings.Keys <= settings.Keys
    }

    /** Start up: load the file and normalise the loaded values. */
    constructor (stored: JsonFile)
      ensures Valid()
      ensures settings == StartupSettings(MergeStored(stored))
      ensures file == stored
    {
      var loaded := LoadRuntimeSettings(stored);
      StartupSettingsWellFormed(loaded);
      settings := StartupSettings(loaded);
      file := stored;
    }

    /** `update_settings(request)` (server.py:434-460). */
    method UpdateSettings(body: RequestBody) returns (resp: UpdateResponse)
      requires Valid()
      modifies this
      ensures Valid()
      ensures body.Unparsable? ==> resp == BadJson && unchanged(this)
      ensures body.Parsed? && !body.data.JObj? ==>
        unchanged(this)
        && resp == (if exists k :: k in old(settings) && NonObjectHit(body.data, k)
                    then InternalError else Updated(map[]))
      ensures body.Parsed? && body.data.JObj? ==>
        var u := Changes(old(settings), body.data.fields);
        resp == Updated(u)
        && settings == UpdatedSettings(old(settings), body.data.fields)
        && file == (if u.Keys != {} then Stored(StringObject(old(settings) + u)) else old(file))
    {
      if body.Unparsable? {
        return BadJson;
      }
      if !body.data.JObj? {
        resp := NonObjectUpdate(settings, body.data);
        return;
      }
      var fields := body.data.fields;
      var updated := CollectChanges(settings, fields);
      ghost var start := settings;
      ghost var expected := ApplyChanges(start, updated);
      ApplyChangesKeys(start, updated);
      settings := settings + updated;
      ghost var saved := file;
      if updated.Keys != {} {
        file := Stored(StringObject(settings));
        saved := file;
      }
      assert file == saved;
      if CloudPathKey in updated {
        var path := NormalizeCloudPath(updated[CloudPathKey]);
        assert expected == (start + updated)[CloudPathKey := path];
        settings := settings[CloudPathKey := path];
      } else {
        assert expected == start + updated;
      }
      return Updated(updated);
    }
  }
}
