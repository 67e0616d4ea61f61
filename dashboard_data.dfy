/** The dashboard document the server keeps in `dashboard_data.json`
    (`dashboard_state` in server.py): its defaults, the demo-data detector, the
    merge with the stored file at start up and the `setdefault` pass that
    completes it. The document is handled as JSON here; the record-level
    operations on it are in `DashboardStore`. */
module DashboardData {
  import opened Wrappers
  import opened JsonValue
  import opened Maps

  type Document = map<string, Json>

  const ProfileKey: string := "profile"
  const UsersKey: string := "users"
  const SystemSettingsKey: string := "systemSettings"
  const InvitesKey: string := "invites"
  const LogsKey: string := "logs"

  /** `DEFAULT_SYSTEM_SETTINGS`. */
  const DefaultSystemSettings: Document := map[
    "allowRegistration" := JBool(false),
    "requireEmailVerification" := JBool(false),
    "aiRateLimit" := JNum(0),
    "storagePerUser" := JNum(0),
    "maxDevicesPerUser" := JNum(0),
    "sessionTimeout" := JNum(0),
    "enableBackups" := JBool(false),
    "backupFrequency" := JStr("manual"),
    "maintenanceMode" := JBool(false),
    "debugMode" := JBool(false)
  ]

  /** The empty profile of `DEFAULT_DASHBOARD_DATA`. */
  const DefaultProfile: Document := map[
    "name" := JStr(""),
    "handle" := JStr(""),
    "email" := JStr(""),
    "deviceId" := JStr(""),
    "role" := JStr("")
  ]

  /** `DEFAULT_DASHBOARD_DATA`: an empty profile, no users, invites or logs,
      and the default system settings. */
  const DefaultDashboard: Document := map[
    ProfileKey := JObj(DefaultProfile),
    UsersKey := JArr([]),
    SystemSettingsKey := JObj(DefaultSystemSettings),
    InvitesKey := JArr([]),
    LogsKey := JArr([])
  ]

  /** The demo profile name and the demo handles `_looks_like_demo_data` knows. */
  const DemoName: string := "Alex Rivera"
  const DemoHandles: set<string> := {"@alex", "@sofia", "@marcus", "@emily", "@david", "@rachel"}

  /** A user entry's `handle` is one of the demo handles. */
  predicate HasDemoHandle(user: Json)
  {
    user.JObj? && "handle" in user.fields && user.fields["handle"].JStr?
    && user.fields["handle"].s in DemoHandles
  }

  /** `{user.get("handle") for user in users}` runs without raising: every
      entry is an object whose handle, when present, can go in a set. */
  predicate HandlesCollectable(items: seq<Json>) {
    forall i :: 0 <= i < |items| ==>
      items[i].JObj? && ("handle" in items[i].fields ==> PyHashable(items[i].fields["handle"]))
  }

  /** Whether the collected handles meet the demo handles; `None` when
      collecting them raises. Iterating an object yields its keys and
      iterating a string its characters, and `.get` fails on both, so only an
      empty object or an empty string gets through; other scalars are not
      iterable. */
  function DemoUserScan(users: Json): (r: Option<bool>)
    ensures r == Some(true) <==> users.JArr? && HandlesCollectable(users.items)
                                 && exists i :: 0 <= i < |users.items| && HasDemoHandle(users.items[i])
    ensures r.None? <==> !(users.JArr? && HandlesCollectable(users.items))
                         && !(users == JObj(map[]) || users == JStr(""))
  {
    match users
    case JArr(items) =>
      if HandlesCollectable(items) then Some(exists i :: 0 <= i < |items| && HasDemoHandle(items[i]))
      else None
    case JObj(fields) => if fields == map[] then Some(false) else None
    case JStr(s) => if s == "" then Some(false) else None
    case _ => None
  }

  /** `_looks_like_demo_data(data)`; `None` stands for the exception it raises
      on a document that is not an object, a profile that is not an object,
      or users it cannot scan. */
  function LooksLikeDemoData(data: Json): (r: Option<bool>)
    ensures r.Some? <==> data.JObj? && GetOr(data.fields, ProfileKey, JObj(map[])).JObj?
                         && (GetOr(GetOr(data.fields, ProfileKey, JObj(map[])).fields, "name", JNull) == JStr(DemoName)
                             || DemoUserScan(GetOr(data.fields, UsersKey, JArr([]))).Some?)
    ensures data.JObj? && GetOr(data.fields, ProfileKey, JObj(map[])).JObj? ==>
      var profile := GetOr(data.fields, ProfileKey, JObj(map[]));
      (GetOr(profile.fields, "name", JNull) == JStr(DemoName) ==> r == Some(true))
      && (GetOr(profile.fields, "name", JNull) != JStr(DemoName) ==>
            r == DemoUserScan(GetOr(data.fields, UsersKey, JArr([]))))
  {
    if !data.JObj? then None
    else
      var profile := GetOr(data.fields, ProfileKey, JObj(map[]));
      if !profile.JObj? then None
      else if GetOr(profile.fields, "name", JNull) == JStr(DemoName) then Some(true)
      else DemoUserScan(GetOr(data.fields, UsersKey, JArr([])))
  }

  /** A stored value that `_load_dashboard_data` merges into an object
      default instead of replacing it. */
  predicate MergesInto(key: string, value: Json) {
    value.JObj? && key in DefaultDashboard && DefaultDashboard[key].JObj?
  }

  /** One stored entry merged into the defaults: an object value over an
      object default extends it (`merged[key].update(value)`); any other
      value replaces the default or is added. */
  function MergedValue(key: string, value: Json): (r: Json)
    ensures MergesInto(key, value) ==>
      MergesInto(key, r) && r.fields.Keys == DefaultDashboard[key].fields.Keys + value.fields.Keys
      && forall k :: k in value.fields ==> r.fields[k] == value.fields[k]
    ensures !MergesInto(key, value) ==> r == value
  {
    if MergesInto(key, value) then JObj(DefaultDashboard[key].fields + value.fields)
    else value
  }

  /** The stored entries among the keys `done`, each merged into its default. */
  function MergedAmong(fields: Document, done: set<string>): (r: Document)
    ensures r.Keys == fields.Keys * done
  {
    map k | k in fields && k in done :: MergedValue(k, fields[k])
  }

  lemma MergedAmongStep(fields: Document, done: set<string>, key: string)
    requires key in fields
    ensures MergedAmong(fields, done + {key}) == MergedAmong(fields, done)[key := MergedValue(key, fields[key])]
  {
  }

  /** `_load_dashboard_data()`: the defaults when there is no usable file or
      the file holds the demo data, and otherwise the stored document merged
      into the defaults. */
  function LoadedDashboard(file: JsonFile): (r: Document)
    ensures DefaultDashboard.Keys <= r.Keys
    ensures file.Stored? && LooksLikeDemoData(file.content) == Some(false) ==>
      r.Keys == DefaultDashboard.Keys + file.content.fields.Keys
    ensures !(file.Stored? && LooksLikeDemoData(file.content) == Some(false)) ==> r == DefaultDashboard
    ensures forall k :: k in r ==>
      if file.Stored? && LooksLikeDemoData(file.content) == Some(false) && k in file.content.fields
      then r[k] == MergedValue(k, file.content.fields[k])
      else k in DefaultDashboard && r[k] == DefaultDashboard[k]
  {
    if file.Stored? && LooksLikeDemoData(file.content) == Some(false) then
      DefaultDashboard + MergedAmong(file.content.fields, file.content.fields.Keys)
    else DefaultDashboard
  }

  /** The loader as the server runs it: detect the demo data, then copy the
      defaults and merge the stored entries one at a time. */
  method LoadDashboardData(file: JsonFile) returns (merged: Document)
    ensures merged == LoadedDashboard(file)
  {
    if !file.Stored? {
      return DefaultDashboard;
    }
    var demo := LooksLikeDemoData(file.content);
    if demo != Some(false) {
      return DefaultDashboard;
    }
    var data := file.content.fields;
    merged := DefaultDashboard;
    var pending := data.Keys;
    while pending != {}
      invariant pending <= data.Keys
      invariant merged == DefaultDashboard + MergedAmong(data, data.Keys - pending)
      decreases |pending|
    {
      var key :| key in pending;
      var value := data[key];
      MergedAmongStep(data, data.Keys - pending, key);
      RemoveOne(data.Keys, pending, key);
      OverrideStep(DefaultDashboard, MergedAmong(data, data.Keys - pending), key, MergedValue(key, value));
      if value.JObj? && key in merged && merged[key].JObj? {
        assert MergesInto(key, value);
        merged := merged[key := JObj(merged[key].fields + value.fields)];
      } else {
        merged := merged[key := value];
      }
      pending := pending - {key};
    }
    assert data.Keys - pending == data.Keys;
  }

  /** `_ensure_dashboard_defaults()` on a document: every missing top-level
      key gets its default, then every missing system setting; `None` when
      the `systemSettings` entry is not an object, where `setdefault` raises
      and the server does not start. */
  function EnsuredDefaults(state: Document): (r: Option<Document>)
    ensures r.Some? <==> (DefaultDashboard + state)[SystemSettingsKey].JObj?
    ensures r.Some? ==>
      r.value.Keys == DefaultDashboard.Keys + state.Keys
      && r.value[SystemSettingsKey].JObj?
      && DefaultSystemSettings.Keys <= r.value[SystemSettingsKey].fields.Keys
      && (forall k :: k in state && k != SystemSettingsKey ==> r.value[k] == state[k])
      && (forall k :: k in DefaultDashboard && k !in state ==> k == SystemSettingsKey || r.value[k] == DefaultDashboard[k])
    ensures r.Some? ==>
      var existing := (DefaultDashboard + state)[SystemSettingsKey].fields;
      var settings := r.value[SystemSettingsKey].fields;
      settings.Keys == DefaultSystemSettings.Keys + existing.Keys
      && (forall j :: j in existing ==> settings[j] == existing[j])
      && (forall j :: j in DefaultSystemSettings && j !in existing ==> settings[j] == DefaultSystemSettings[j])
  {
    var s := DefaultDashboard + state;
    var settings := s[SystemSettingsKey];
    if settings.JObj? then Some(s[SystemSettingsKey := JObj(DefaultSystemSettings + settings.fields)])
    else None
  }

  /** The two `setdefault` passes as the server runs them. */
  method EnsureDashboardDefaults(state: Document) returns (r: Option<Document>)
    ensures r == EnsuredDefaults(state)
  {
    var s := SetDefaults(state, DefaultDashboard);
    var settings := s[SystemSettingsKey];
    if !settings.JObj? {
      return None;
    }
    var fields := SetDefaults(settings.fields, DefaultSystemSettings);
    return Some(s[SystemSettingsKey := JObj(fields)]);
  }

  /** The defaults are not taken for demo data. */
  lemma DefaultsAreNotDemo()
    ensures LooksLikeDemoData(JObj(DefaultDashboard)) == Some(false)
  {
    assert DefaultDashboard[ProfileKey] == JObj(DefaultProfile);
    assert DefaultProfile["name"] != JStr(DemoName);
    assert DefaultDashboard[UsersKey] == JArr([]);
  }

  /** With no file the server starts from the defaults, which the
      `setdefault` pass leaves as they are. */
  lemma FreshStartIsDefaults()
    ensures EnsuredDefaults(LoadedDashboard(NoFile)) == Some(DefaultDashboard)
  {
    OverrideSelf(DefaultDashboard);
    OverrideSelf(DefaultSystemSettings);
    assert DefaultDashboard[SystemSettingsKey] == JObj(DefaultSystemSettings);
    UpdateSame(DefaultDashboard, SystemSettingsKey);
  }

  /** A stored document whose `systemSettings` is a list loads, and the
      `setdefault` pass then raises: the server does not start. */
  lemma ListSystemSettingsStopsStartup()
    ensures var file := Stored(JObj(map[SystemSettingsKey := JArr([])]));
      LooksLikeDemoData(file.content) == Some(false)
      && LoadedDashboard(file)[SystemSettingsKey] == JArr([])
      && EnsuredDefaults(LoadedDashboard(file)).None?
  {
    var file := Stored(JObj(map[SystemSettingsKey := JArr([])]));
    assert SystemSettingsKey != ProfileKey && SystemSettingsKey != UsersKey;
  }

  /** Every object the loader merged into holds at least its default's keys. */
  predicate DefaultsInside(doc: Document) {
    forall k :: k in doc && MergesInto(k, doc[k]) ==> DefaultDashboard[k].fields.Keys <= doc[k].fields.Keys
  }

  lemma LoadedHasDefaultsInside(file: JsonFile)
    ensures DefaultsInside(LoadedDashboard(file))
  {
    var r := LoadedDashboard(file);
    forall k | k in r && MergesInto(k, r[k])
      ensures DefaultDashboard[k].fields.Keys <= r[k].fields.Keys
    {
      if file.Stored? && LooksLikeDemoData(file.content) == Some(false) && k in file.content.fields {
        assert MergesInto(k, file.content.fields[k]);
      }
    }
  }

  /** Merging a document that already holds the defaults into the defaults
      gives it back. */
  lemma MergeFixpoint(doc: Document)
    requires DefaultDashboard.Keys <= doc.Keys
    requires DefaultsInside(doc)
    ensures DefaultDashboard + MergedAmong(doc, doc.Keys) == doc
  {
    var m := MergedAmong(doc, doc.Keys);
    forall k | k in doc ensures m[k] == doc[k] {
      if MergesInto(k, doc[k]) {
        OverrideCovered(DefaultDashboard[k].fields, doc[k].fields);
      }
    }
    assert m == doc;
    KeysOfOverride(m, DefaultDashboard);
  }

  /** A document whose profile is an object with a non-demo name and whose
      users scan without a demo handle is not demo data. */
  lemma NotDemoWhen(doc: Document)
    requires ProfileKey in doc && doc[ProfileKey].JObj?
    requires "name" in doc[ProfileKey].fields && doc[ProfileKey].fields["name"] != JStr(DemoName)
    requires UsersKey in doc && DemoUserScan(doc[UsersKey]) == Some(false)
    ensures LooksLikeDemoData(JObj(doc)) == Some(false)
  {
  }

  /** The merged profile keeps a `name`, and it is the demo name only if the
      stored one was. */
  lemma MergedProfileName(fields: Document, r: Document)
    requires ProfileKey in fields && GetOr(fields, ProfileKey, JObj(map[])).JObj?
    requires ProfileKey in r && r[ProfileKey] == MergedValue(ProfileKey, fields[ProfileKey])
    requires GetOr(fields[ProfileKey].fields, "name", JNull) != JStr(DemoName)
    ensures r[ProfileKey].JObj? && "name" in r[ProfileKey].fields
    ensures r[ProfileKey].fields["name"] != JStr(DemoName)
  {
    assert DefaultDashboard[ProfileKey] == JObj(DefaultProfile);
    assert MergesInto(ProfileKey, fields[ProfileKey]);
    assert "name" in DefaultProfile && DefaultProfile["name"] == JStr("");
  }

  /** A document the loader produced is not taken for demo data. */
  lemma LoadedIsNotDemo(file: JsonFile)
    ensures LooksLikeDemoData(JObj(LoadedDashboard(file))) == Some(false)
  {
    var r := LoadedDashboard(file);
    if file.Stored? && LooksLikeDemoData(file.content) == Some(false) {
      var fields := file.content.fields;
      if ProfileKey in fields {
        MergedProfileName(fields, r);
      } else {
        assert r[ProfileKey] == DefaultDashboard[ProfileKey] == JObj(DefaultProfile);
        assert "name" in DefaultProfile && DefaultProfile["name"] == JStr("");
      }
      if UsersKey in fields {
        assert DefaultDashboard[UsersKey] == JArr([]);
        assert r[UsersKey] == fields[UsersKey];
      } else {
        assert r[UsersKey] == DefaultDashboard[UsersKey] == JArr([]);
      }
      NotDemoWhen(r);
    } else {
      DefaultsAreNotDemo();
    }
  }

  /** Saving the loaded document and loading it again gives the same
      document: the merge and the demo check are stable. */
  lemma ReloadIsStable(file: JsonFile)
    ensures LoadedDashboard(Stored(JObj(LoadedDashboard(file)))) == LoadedDashboard(file)
  {
    LoadedIsNotDemo(file);
    LoadedHasDefaultsInside(file);
    MergeFixpoint(LoadedDashboard(file));
  }

  /** A second `setdefault` pass changes nothing. */
  lemma EnsureIdempotent(state: Document)
    requires EnsuredDefaults(state).Some?
    ensures EnsuredDefaults(EnsuredDefaults(state).value) == EnsuredDefaults(state)
  {
    var r := EnsuredDefaults(state).value;
    var fields := r[SystemSettingsKey].fields;
    OverrideCovered(DefaultDashboard, r);
    OverrideCovered(DefaultSystemSettings, fields);
    UpdateSame(r, SystemSettingsKey);
  }
}
