# Self-hosted admin dashboard: a Dafny model of its core

The dashboard has two parts. One is a FastAPI server (`server.py`). The other is a single-page React panel (`admin_panel.js`). This project models the core of both and proves properties of that model.

**Server**
- The runtime settings: loaded from `settings.json`, normalised at start-up, updated by `POST /api/settings`.
- The URL and path normalisers.
- The dashboard document: loaded from `dashboard_data.json`, reset when it holds demo data, merged over the defaults, completed by `_ensure_dashboard_defaults`.
- The user, invite and log tables and their endpoints.
- Ping validation.
- The OpenAI and Ollama chat proxies.
- The model-list endpoints, with their local catalogue.

**Panel**
- A chat session: a send appends a `user` turn and yields a pending request. The reply arrives later as its own event and appends exactly one `ai` turn.
- The engine toggle.
- The AI-settings mirror and the two model dropdowns.
- The user table: its filter, the overview counters and the user actions.
- Invite creation.

Modules:

| module | file | what |
|---|---|---|
| `Wrappers` | wrappers.dfy | `Option` |
| `Text` | text.dfy | Python `strip` and JavaScript `trim` classes, prefixes, `in`/`includes`, `split(sep, 1)`, case mapping |
| `JsonValue` | json_value.dfy | JSON values, JavaScript and Python truthiness, a stored JSON file |
| `Maps` | maps.dfy | map lemmas and the `dict.setdefault` loop |
| `UrlNormalization` | url_normalization.dfy | `_normalize_external_url`, `_build_tailscale_health_url`, `_normalize_cloud_path` |
| `RuntimeSettings` | runtime_settings.dfy | loading, start-up normalisation and `update_settings`, as class `SettingsStore` |
| `DashboardData` | dashboard_data.dfy | the dashboard document: demo detection, merge, defaults |
| `DashboardStore` | dashboard_store.dfy | typed records, `_next_id`, the log, and the CRUD endpoints, as class `Store` |
| `ChatProxy` | chat_proxy.dfy | chat payloads and handlers, model lists, ping |
| `UserDirectory` | user_directory.dfy | the panel's user table |
| `AdminSession` | admin_session.dfy | the panel, as class `Session` |
| `PanelServer` | round_trip.dfy | what the panel shows for each server answer |

External effects are parameters:
- An upstream HTTP call's result is an `Upstream` value: an exception, or a status, a parsed body and the text.
- A file's content is a `JsonFile`: missing, unreadable or stored.
- The clock is a `Clock` (a day number and a rendered stamp).
- A random invite code is a string argument.
- The answer to `window.confirm` is a boolean argument.

## Model

| member | source | states |
|---|---|---|
| Text.StripEmptyIff | server.py:38-40 | a string strips to empty exactly when all of it is whitespace |
| Text.StripIdempotent | server.py:38 | stripping twice is stripping once |
| UrlNormalization.NormalizeExternalUrl | server.py:31-45 | the result is empty iff the stripped input is empty; otherwise it ends with the stripped input |
| UrlNormalization.NormalizeBlank | server.py:36-40 | blank input normalises to the empty string, and only blank input does |
| UrlNormalization.NormalizeKeepsHttpUrl | server.py:41-42 | input that starts with `http://` or `https://` once stripped is returned stripped and otherwise unchanged |
| UrlNormalization.NormalizeSchemeRelative | server.py:43-44 | a scheme-relative `//host/...` becomes `scheme://host/...` |
| UrlNormalization.NormalizeBareHost | server.py:45 | input that starts with neither `http://`, `https://` nor `//` gets `scheme://` in front of the stripped input |
| UrlNormalization.NormalizeGivesHttpUrl | server.py:31-45 | with an `http` or `https` default, non-blank input always gives an `http://` or `https://` address with no surrounding whitespace |
| UrlNormalization.NormalizeIdempotent | server.py:31-45 | normalising an already normalised address changes nothing |
| UrlNormalization.BuildTailscaleHealthUrl | server.py:60-87 | blank input gives empty; an input holding `://` is returned stripped |
| UrlNormalization.HealthUrlBlank | server.py:65-69 | a blank address yields no health URL |
| UrlNormalization.HealthUrlShape | server.py:72-87 | without a scheme, a non-empty result is `http://host:port/path` |
| UrlNormalization.HealthUrlBareHost | server.py:72-87 | a bare host gets port 8088 and the `/health` path |
| UrlNormalization.HealthUrlHostPort | server.py:77-87 | `host:port` keeps its port and gets `/health` |
| UrlNormalization.HealthUrlKeepsPath | server.py:74-87 | a given path is kept, without its leading slashes |
| UrlNormalization.HealthUrlNoHost | server.py:83-84 | an address with no host yields no health URL |
| UrlNormalization.NormalizeCloudPath | server.py:90-94 | the result is never empty |
| UrlNormalization.CloudPathShape | server.py:90-94 | the result is the default path, or a part of the given path that neither starts nor ends with a quote |
| UrlNormalization.CloudPathKept | server.py:90-94 | a path without surrounding whitespace or quotes is kept as is |
| UrlNormalization.CloudPathNotIdempotent | server.py:90-94 | normalising twice can differ from normalising once: `" a"` in quotes gives ` a`, then `a` |
| RuntimeSettings.StoredStrings | server.py:228-230 | exactly the string-valued entries of a stored object are taken |
| RuntimeSettings.MergeStored | server.py:222-233 | the defaults' keys are kept; each key holds the stored string if there is one, else the default |
| RuntimeSettings.LoadRuntimeSettings | server.py:222-233 | the loop over `stored.items()` computes `MergeStored` |
| RuntimeSettings.NormalizeIfSet | server.py:290-293 | a set address is replaced by its normal form; nothing else changes |
| RuntimeSettings.StartupSettingsWellFormed | server.py:289-297 | after start-up, the defaults' keys are present, both addresses are schemed or empty, and the cloud path is non-empty |
| RuntimeSettings.Changes | server.py:441-453 | exactly the existing keys whose request value is a string are updated; each holds that value passed through its key's normaliser |
| RuntimeSettings.CollectChanges | server.py:441-452 | the update loop computes `Changes` |
| RuntimeSettings.UpdateChangesOnlyStringKeys | server.py:441-453 | an update keeps the key set; keys not given as strings keep their values |
| RuntimeSettings.UpdateSetsGivenValues | server.py:441-456 | a string for `ollama_url` is stored normalised with `http`, one for `remote_url` with `https`, the cloud path normalised twice, any other known key as given |
| RuntimeSettings.UpdateNormalizesAddresses | server.py:445-448 | after an update the two addresses are still schemed or empty |
| RuntimeSettings.UpdateIdempotent | server.py:441-458 | repeating the same update request gives the same settings |
| RuntimeSettings.SaveLoadRoundTrip | server.py:222-238 | loading what was saved gives back the saved settings |
| RuntimeSettings.SavedCloudPathCanDiffer | server.py:450-458 | the saved cloud path can differ from the one the server keeps in memory |
| RuntimeSettings.NonObjectUpdate | server.py:441-443 | a JSON body that is not an object either updates nothing or is a 500 |
| RuntimeSettings.SettingsStore.constructor | server.py:289-297 | the start-up settings are the normalised load of the file |
| RuntimeSettings.SettingsStore.UpdateSettings | server.py:429-460 | invalid JSON is 400 with nothing changed; otherwise the changes are applied, the file is rewritten iff something changed, and the cloud path is normalised a second time |
| DashboardData.DemoUserScan | server.py:264-266 | some user handle is one of the six demo handles iff the scan says so; `None` when the set comprehension raises |
| DashboardData.LooksLikeDemoData | server.py:260-266 | a profile named `Alex Rivera` marks the data as demo whatever else it holds; otherwise the answer is the users scan; a document or profile that is not an object raises |
| DashboardData.MergedValue | server.py:278-282 | a dict over a dict default is updated key by key; anything else replaces |
| DashboardData.LoadedDashboard | server.py:269-286 | the default keys are always present; a non-demo stored object adds exactly its own keys, each holding its merged value, and every other key holds its default; a missing, unreadable or demo file gives the defaults |
| DashboardData.LoadDashboardData | server.py:269-286 | the merge loop computes `LoadedDashboard` |
| DashboardData.EnsuredDefaults | server.py:331-337 | succeeds iff `systemSettings` is an object; keys are the defaults' plus the state's; existing top-level entries and existing system settings keep their values, missing ones take their defaults |
| DashboardData.EnsureDashboardDefaults | server.py:331-337 | the two `setdefault` loops compute `EnsuredDefaults` |
| Maps.SetDefaults | server.py:333-337 | a `setdefault` loop yields the defaults overridden by the existing entries |
| DashboardData.DefaultsAreNotDemo | server.py:241-266 | the default document is not demo data |
| DashboardData.FreshStartIsDefaults | server.py:269-286 | with no file, start-up yields exactly the default document |
| DashboardData.ListSystemSettingsStopsStartup | server.py:278-282 | a stored list under `systemSettings` loads, then makes the defaults pass fail |
| DashboardData.LoadedHasDefaultsInside | server.py:278-282 | the loaded profile and system settings contain all their default keys |
| DashboardData.LoadedIsNotDemo | server.py:260-286 | a loaded document never looks like demo data |
| DashboardData.ReloadIsStable | server.py:269-286 | loading a saved loaded document gives it back |
| DashboardData.EnsureIdempotent | server.py:331-337 | ensuring defaults twice is ensuring them once |
| DashboardStore.NextId | server.py:306-307 | above every id; 1 for an empty table; otherwise one more than an existing id |
| DashboardStore.NextIdKeepsDistinct | server.py:306-307 | appending the next id keeps ids distinct |
| DashboardStore.PrependCapped | server.py:321-323 | the entry goes first, the older entries follow, and at most `cap` are kept |
| DashboardStore.AddLogKeepsNewestFirst | server.py:310-323 | the log stays ordered newest first |
| DashboardStore.FirstIndex | server.py:505 | the first position holding the id, or the length when none does |
| DashboardStore.FindById | server.py:519-521 | the search loop computes `FirstIndex` |
| DashboardStore.RemoveAt | server.py:523 | `pop(k)` removes exactly that item and keeps the others in order |
| DashboardStore.RemoveFirstClearsId | server.py:516-528 | with distinct ids, deleting the first match removes the id completely and leaves the other ids distinct |
| DashboardStore.NewUser | server.py:470-489 | the new user's fields, with `user` as the role when none is given |
| DashboardStore.ApplyUpdate | server.py:505-508 | each field the body sets takes the new value, every other field keeps its old one; the id and the join date never change |
| DashboardStore.ApplyUpdateIdempotent | server.py:505-508 | applying an update twice is applying it once |
| DashboardStore.NewInvite | server.py:531-549 | the new invite expires at least one day after today |
| DashboardStore.Store.AddLogEntry | server.py:310-323 | the log gets the entry with the next id in front, capped at 200, and stays newest first |
| DashboardStore.Store.CreateUser | server.py:470-493 | appends the new user with the next id and logs the creation; keeps `Valid` (distinct ids, newest-first log) |
| DashboardStore.Store.ModifyUser | server.py:496-513 | an empty update is 400, an unknown id is 404; otherwise the first match is updated; keeps `Valid` |
| DashboardStore.Store.RemoveUser | server.py:516-528 | an unknown id is 404; otherwise the first match is removed and the deletion logged; keeps `Valid` |
| DashboardStore.Store.CreateInvite | server.py:531-553 | appends the new invite, signed by the profile handle or `system`; keeps `Valid` |
| DashboardStore.Store.DeleteInvite | server.py:556-568 | an unknown id is 404; otherwise the first match is removed; keeps `Valid` |
| ChatProxy.OpenAiMessages | server.py:789-794 | a `system` entry exactly when there are instructions, then the `user` message |
| ChatProxy.OllamaPrompt | server.py:841-848 | the prompt is the message alone without instructions; otherwise it is the instructions, a blank line, then the message |
| ChatProxy.OpenAiChatRequest | server.py:780-794 | the key, the configured or default model, and the messages |
| ChatProxy.OllamaBase | server.py:834-835 | the configured or default host, normalised, without trailing slashes |
| ChatProxy.OllamaChatRequest | server.py:834-850 | `/api/generate` on that host, with the model and the prompt |
| ChatProxy.OpenAiContent | server.py:810-813 | the content is found iff every step of the path exists |
| ChatProxy.ChatOpenAi | server.py:768-819 | empty message 400; failed call 500; status other than 200 passed through; a body without `choices[0].message.content` 500; otherwise `{"reply": content}`, or a crash when the content cannot be sliced |
| ChatProxy.ChatOllama | server.py:822-870 | empty message 400; failed call 500; status passed through; a body that is not an object 500; an empty `response` 502; otherwise `{"reply": response}`, which is always truthy |
| ChatProxy.OnlyOllamaRejectsEmptyReplies | server.py:815-870 | Ollama refuses an empty reply that OpenAI passes through |
| ChatProxy.ModelEntries | server.py:696 | one `{"id": ...}` entry per catalogue id, in order |
| ChatProxy.FallbackOpenAiModels | server.py:693-699 | the catalogue marked `local-cache`, with the reason as its warning |
| ChatProxy.ListOpenAiModels | server.py:702-755 | a blank key, a failed call, an error status or an unreadable body give the catalogue with its warning; an object body is marked `openai`; a readable non-object body is a 500 |
| ChatProxy.OllamaTagsUrl | server.py:716-723 | there is an address iff the URL is not blank; it is the normalised URL without trailing slashes followed by `/api/tags` |
| ChatProxy.ListOllamaModels | server.py:716-765 | unset URL 400, blank URL 400, failed call 502, error status passed through, otherwise the upstream body |
| ChatProxy.ClampTimeout | server.py:657 | the timeout is kept within 1 to 30 seconds |
| ChatProxy.ValidatePing | server.py:645-657 | refuses a blank URL; a URL whose host has one square bracket without the other makes `urlparse` raise; then refuses any method other than GET or HEAD; otherwise the normalised URL, the upper-case method and the clamped timeout |
| ChatProxy.UnclosedBracketIsInvalid | server.py:648-651 | `[::1` is given a scheme and then makes `urlparse` raise, before the method is checked |
| ChatProxy.Preview | server.py:664 | at most 400 characters, a prefix of the text |
| ChatProxy.PingReport | server.py:666-675 | the report holds the status, URL, method and preview |
| ChatProxy.Ping | server.py:645-675 | a refusal is 400, a `urlparse` error 500, a failed call 502, otherwise the report |
| ChatProxy.PingSchemeAlwaysHttp | server.py:649-653 | a URL that passes validation always has scheme `http` or `https` |
| UserDirectory.FilteredUsers | admin_panel.js:200-208 | a user is listed iff search, status and role all match; nothing is added |
| UserDirectory.FilteredUsersSplits | admin_panel.js:200-208 | filtering a concatenation is concatenating the filtered parts, so table order and repetitions are kept |
| UserDirectory.FilteredOne | admin_panel.js:200-208 | a single user is listed iff shown |
| UserDirectory.EverythingShown | admin_panel.js:200-208 | no search and both filters at `all` lists every user in order |
| UserDirectory.CountWith | admin_panel.js:213-217 | the count is zero exactly when no user has that status or role |
| UserDirectory.StatsOf | admin_panel.js:211-218 | the overview counters; active plus suspended never exceeds the total |
| UserDirectory.CountIsFilteredLength | admin_panel.js:200-217 | a status or role counter equals the length of the table filtered by that status or role |
| UserDirectory.SetStatusById | admin_panel.js:229-238 | users with the id get the status; the rest are unchanged, in order |
| UserDirectory.StatusChangesOverwrite | admin_panel.js:229-238 | the last status change wins |
| UserDirectory.StatusChangeKeepsUsage | admin_panel.js:211-238 | status changes keep the AI usage total |
| UserDirectory.SuspendMovesCount | admin_panel.js:211-233 | suspending an online user moves one user from `online` to `suspended` |
| UserDirectory.RemoveById | admin_panel.js:222-227 | every user with the id is removed; everyone else is kept |
| UserDirectory.RemoveByIdSplits | admin_panel.js:222-227 | deleting from a concatenation is deleting from each part, so the kept users stay in order and with their repetitions |
| UserDirectory.RemoveOneUser | admin_panel.js:222-227 | a single user is kept iff the id differs |
| UserDirectory.RemoveMissingId | admin_panel.js:222-227 | deleting an unknown id changes nothing |
| AdminSession.Route | admin_panel.js:270 | only the `openai` engine posts to `/api/openai` |
| AdminSession.Toggled | admin_panel.js:857 | the toggle always selects the other engine |
| AdminSession.ToggleTwice | admin_panel.js:857 | toggling twice restores the engine |
| AdminSession.ReplyText | admin_panel.js:275-292 | the `ai` turn is never blank: a truthy reply, `No response`, or `Error contacting AI` when the chain rejects |
| AdminSession.SettingsMirror | admin_panel.js:308-321 | six keys, each the value if truthy, else blank; no change when the load fails |
| AdminSession.ModelList | admin_panel.js:323-345 | a failure clears the list, a missing or falsy list keeps it, an array without `null` is mapped to its items' keys, and any other truthy value (whose `map` throws) clears it |
| AdminSession.NewPanelInvite | admin_panel.js:243-251 | id is the count plus one, with 0 uses, at most 5 uses, and an `active` status |
| AdminSession.NewInviteKeepsNumbering | admin_panel.js:243-255 | ids stay 1, 2, 3 and so on with no repeats |
| AdminSession.CountFromNoneOrAll | admin_panel.js:268-291 | a turn count is zero iff no turn is by that author, and the whole length iff every turn is |
| AdminSession.CountFromAppend | admin_panel.js:268-291 | appending a turn adds one to its author's count |
| AdminSession.Session.constructor | admin_panel.js:175-191 | the two-turn greeting, the `openai` engine, blank settings and empty lists |
| AdminSession.Session.TypeInput | admin_panel.js:880 | only the input changes |
| AdminSession.Session.Send | admin_panel.js:261-275 | blank input changes nothing; otherwise it appends the `user` turn, clears the input and issues a new ticket to the engine's route |
| AdminSession.Session.Complete | admin_panel.js:276-293 | appends exactly one `ai` turn and retires the ticket; each `user` turn is answered once |
| AdminSession.Session.ToggleEngine | admin_panel.js:857 | the engine flips; nothing else changes |
| AdminSession.Session.LoadAiSettings | admin_panel.js:308-321 | the settings become the mirror, or stay as they were |
| AdminSession.Session.LoadOpenAiModels | admin_panel.js:323-333 | the OpenAI list becomes `data.data[i].id`, as `ModelList` says |
| AdminSession.Session.LoadOllamaModels | admin_panel.js:334-345 | the Ollama list becomes `data.models[i].name`, as `ModelList` says |
| AdminSession.Session.HandleUserAction | admin_panel.js:221-240 | a confirmed delete removes, suspend and activate set the status, anything else does nothing |
| AdminSession.Session.CreateInvite | admin_panel.js:243-256 | appends the new invite, signed by the profile handle |
| PanelServer.AsFetched | admin_panel.js:270-292 | a server crash, or a refusal whose status allows no body (1xx, 204, 205, 304), makes the panel's chain reject; any other refusal arrives as `{"detail": ...}` |
| PanelServer.ServeChat | admin_panel.js:269-274 | the panel's route picks the OpenAI or Ollama endpoint |
| PanelServer.ChatFailuresAsShown | admin_panel.js:276-292 | a refusal with a body shows `No response`; a bodyless refusal or a crash shows `Error contacting AI` |
| PanelServer.NoContentShowsContactError | server.py:807-809 | an upstream 204 on a chat request shows `Error contacting AI` |
| PanelServer.PanelMessagesAreAccepted | admin_panel.js:262 | the server never refuses a message the panel sends as missing |
| PanelServer.OllamaReplyShown | server.py:864-870 | an Ollama reply is shown exactly as it came |
| PanelServer.OpenAiReplyShown | server.py:815-819 | an OpenAI reply is shown if it is truthy, else as `No response` |
| PanelServer.CatalogueIds | server.py:48-55 | the catalogue ids, in order |
| PanelServer.FallbackFillsDropdown | admin_panel.js:323-333 | a fallback catalogue fills the dropdown with exactly its ids |
| PanelServer.NoKeyShowsCatalogue | server.py:739-743 | without a key the dropdown shows the catalogue |
| PanelServer.OllamaListFailures | admin_panel.js:334-345 | a refused Ollama list with a body keeps the old dropdown; a bodyless refusal or a crash clears it |
| PanelServer.SettingsMirrorOfServer | server.py:423-426 | the mirror holds each of the six keys' string values, or blank |

## Left out

- I/O is not modelled: files, sockets, logging (`log_event`, `log_error`, `logger.py`) and the process launcher (`launcher.py`). Locks are not modelled either; every endpoint is one atomic step.
- Clocks and randomness are parameters: the day number, the log timestamp and the random invite code.
- The ping's `latency_ms` and response headers are left out of the report (`ChatProxy.PingReport`); the status, URL, method and body preview are modelled.
- JSON numbers are modelled as integers (`JNum(int)`); no value the core reads or writes needs a fraction, and floating point is not modelled.
- Environment variables are not modelled (`Settings` defaults only). `DEFAULT_CLOUD_STORAGE_PATH` is one fixed string.
- The Tailscale endpoints are out of scope: the connectivity check, status, peers and verify. So are the storage status probe, the QR image, `update_system_settings`, `GET /api/dashboard`, `GET /` and `/health`. They are I/O wrappers or outside the modelled core.
- ChatProxy.ValidatePing: of the `ValueError`s `urlparse` can raise, only the unbalanced-bracket one is modelled. Newer Python versions also check that the text between the brackets is an IPv6 address, and check non-ASCII hosts under NFKC; those are not modelled.
- ChatProxy.Ping: the same `urlparse` errors are left out, so some malformed hosts reach the request here where the server would answer 500.
- Text.ToLower: only ASCII case mapping.
- ChatProxy.ChatOpenAi: a request body that is not an object, or a `message` that is not a string, is not modelled.
- ChatProxy.ChatOllama: the same two cases are not modelled.
- DashboardStore.Store: records are typed, so malformed stored records are not modelled (a user without `id`, say). `storageUsed` is a real.
- DashboardStore.ApplyUpdate: a field set explicitly to `null` in a PATCH body is not modelled.
- UserDirectory.StatsOf: `totalStorage` is a float sum and is left out.
- AdminSession.Session: the panel's user and invite tables are seeded from the page's initial data. The panel never fetches `/api/dashboard`, so the two sides' tables are separate.
- Rendering, alerts and the settings-save, Tailscale and QR panels are not modelled.

## Behaviour of the code worth knowing

- A refused chat request usually reaches the panel as a JSON `{"detail": ...}` body. The panel then shows `No response`, not `Error contacting AI` (`PanelServer.ChatFailuresAsShown`). Only a refusal whose status allows no body shows `Error contacting AI`.
- There is no route for the remote endpoint: any engine other than `openai` posts to `/api/ollama`.
- `update_settings` saves the cloud path normalised once, but keeps it in memory normalised twice (`RuntimeSettings.SavedCloudPathCanDiffer`).
- A stored `systemSettings` that is a list passes the load and then makes start-up's defaults pass raise (`DashboardData.ListSystemSettingsStopsStartup`).
- The `Only HTTP and HTTPS URLs are allowed` check in `ping_http_endpoint` cannot fail after normalisation with `https` (`ChatProxy.PingSchemeAlwaysHttp`).
