# Telemetry client core: endpoint configuration, requests and risk rule

This project models the non-presentational core of a React Native client for
industrial sensors (the "Festo" monitoring app) and proves properties of it in
Dafny. The core is small and lives in four source files:

- **The service singleton** (`src/services/ApiService.ts`). It holds a
  `baseURL` field that starts as `http://localhost:8080`. The URL is persisted
  in the device store under the key `apiURL`. `init` adopts the stored URL,
  `updateBaseURL` writes both the field and the store, and `getBaseURL`
  resolves "stored value if non-empty, else the field". Each telemetry
  operation (`getSensores`, `getAllReadings`, `getSensorReadings`,
  `createReading`) resolves the base URL once and sends one request built from
  a fixed path. `testConnection` turns every outcome into a result record.
- **The risk view** (`src/screens/RiskViewScreen.tsx`). It takes the last
  stored humidity/tilt reading and classifies it with a first-match threshold
  rule: High above 80 % humidity or 30° tilt, otherwise Moderate from 60 % or
  15°, otherwise Low. Without data the text is "Sem dados".
- **The connection settings screen** (`src/screens/ConfigScreen.tsx`). It
  loads `apiURL` into its field, saves the field only if it starts with
  `http`, and probes `url + "/sensores"`, classifying the answer three ways.
- **The duplicate URL screen** (`src/screens/HistoryScreen.tsx`). Same guard,
  but it saves under the different key `API_URL`, which the service never
  reads.

## How the model is built

- `wrappers.dfy` — `Option`.
- `strings.dfy` — JavaScript's `startsWith` as a prefix predicate.
- `storage.dfy` — AsyncStorage as a class `KeyValueStore` over a
  `map<string, string>`. One instance is shared by every component, by
  reference, as the single global store is in the app. `Truthy` is JavaScript
  truthiness of a `string | null`. `StoredOr` is `saved || fallback`.
- `transport.dfy` — axios at its boundary. A JSON payload type, `Get`/`Post`
  requests, and a response that is either `Data(payload)` or `Thrown(message)`.
  The class `Network` keeps a log of every request sent. Its server is a fixed
  function of the requests sent so far and the new request, so a POST may
  change later answers.
- `api_service.dfy` (module `Service`) — the class `ApiService`, the pure
  resolution rule `Resolve`, the endpoint URL builders, the POST body
  encoder `EncodeReading` and its inverse `DecodeReading`, which shows the
  body carries exactly the three fields, and `Diagnose`, the
  outcome mapping of `testConnection`.
- `risk_view.dfy` (module `RiskView`) — `Classify`, `RiskLabel`, the
  last-reading selection `LastReading`, the rendering choice `Render`, and
  the class `RiskViewScreen`.
- `config_screen.dfy` (module `Config`) — the guard `AcceptsURL`, the
  storage effect `SaveEffect`, the probe classification `ClassifyProbe`, and
  the class `ConfigScreen`.
- `history_screen.dfy` (module `History`) — `SaveEffect` for `API_URL` and
  the class `HistoryScreen`.
- `session.dfy` (module `Session`) — the three components run together over
  the shared store. An event sequence of service inits, service updates and
  saves from both screens is applied by `Run`, with each event's effect given
  by the same function its method's contract uses. The main lemma proves that
  the resolved URL is always the URL of the last event that sets it. The
  methods `Apply` and `ApplyAll` perform the events on the objects themselves
  and prove that they leave the store and the service's field exactly as
  `Step` and `Run` say, so `LastSetterDecidesOnObjects` carries the main lemma
  over to `getBaseURL` on the objects.

The imperative parts (`init`, `updateBaseURL`, the screens' load effects,
edits, saves and the connection test, the risk view's load) are class methods
with `modifies` frames. Each states its new state through the module's pure
functions. Those functions carry the lemmas.

What the code does not do (the model follows the code):

- `updateBaseURL` performs no validation. Only the two screens check the
  `http` prefix, and that check is a prefix test, not a scheme check.
- Payloads are not validated against a sensor or reading schema: every
  operation returns `response.data` unchanged.
- No error is raised for an unconfigured endpoint: the field always holds a
  string, initially `http://localhost:8080`, and nothing checks that it is a
  URL.
- `createReading` does not check that its value is finite.
- The settings screen probes `/sensores` while the service uses
  `/api/sensores`. The model proves that the two differ for the same URL.
- The second URL screen writes `API_URL`, never read by the service. The
  model proves such saves cannot affect the service.

## Model

| member | source | states |
|---|---|---|
| `Storage.Lookup` | src/services/ApiService.ts:8 | `getItem` yields the stored string exactly when the key is present, else null |
| `Storage.StoredOr` | src/services/ApiService.ts:21 | JavaScript's `saved or fallback` yields the fallback or the stored string, and is empty only if the fallback is |
| `Storage.Truthy` | src/services/ApiService.ts:9 | the test `if (savedURL)`: null and the empty string are falsy; used by `StoredOr`, `Service.ApiService.Init` and both screens' `Load` |
| `Storage.KeyValueStore.GetItem` | src/services/ApiService.ts:20 | reading a key changes nothing and returns the snapshot's lookup |
| `Storage.KeyValueStore.SetItem` | src/services/ApiService.ts:16 | writing a key replaces that key's value and leaves every other key as it was |
| `Strings.StartsWith` | src/screens/ConfigScreen.tsx:31 | JavaScript's `startsWith`, the guard both URL screens apply (also src/screens/HistoryScreen.tsx:17); its meaning is stated by `Strings.StartsWithIffConcat` |
| `Transport.IsArray` | src/services/ApiService.ts:58 | JavaScript's `Array.isArray` on a response payload, as `testConnection` and the config screen's probe (src/screens/ConfigScreen.tsx:49) use it |
| `Strings.StartsWithIffConcat` | src/screens/ConfigScreen.tsx:31 | `startsWith(p)` holds exactly when the string is `p` followed by some rest |
| `Transport.Network.Send` | src/services/ApiService.ts:26 | one call sends exactly one request, appended to the log, and answers with the server's response to it |
| `Service.ApiService.constructor` | src/services/ApiService.ts:5 | before any `init` or update the field is `http://localhost:8080` |
| `Service.ApiService.Init` | src/services/ApiService.ts:7-12 | the field becomes the stored `apiURL` only when that is present and non-empty, else stays; the resolved URL does not change |
| `Service.ApiService.UpdateBaseURL` | src/services/ApiService.ts:14-17 | the field and stored `apiURL` both become `url`, without validation, and the service then resolves to `url` |
| `Service.Resolve` | src/services/ApiService.ts:21 | `getBaseURL` on a snapshot of the store and the field; its properties are carried by `ResolveAfterUpdate`, `InitPreservesResolution`, `ResolveIgnoresOtherKeys` and `ResolveAfterStoring` |
| `Service.ApiService.GetBaseURL` | src/services/ApiService.ts:19-22 | returns the stored `apiURL` if non-empty, else the field, and changes neither |
| `Service.ApiService.GetSensores` | src/services/ApiService.ts:24-28 | sends exactly one GET to the resolved base plus `/api/sensores` and returns its response unchanged |
| `Service.ApiService.GetAllReadings` | src/services/ApiService.ts:30-34 | sends exactly one GET to the resolved base plus `/api/readings` and returns its response unchanged |
| `Service.ApiService.GetSensorReadings` | src/services/ApiService.ts:36-40 | sends exactly one GET to the resolved base plus `/api/readings/` plus the sensor id and returns its response unchanged |
| `Service.ApiService.CreateReading` | src/services/ApiService.ts:42-51 | sends exactly one POST to base plus `/api/readings`; the body holds the given sensor id, value and timestamp; the server's payload comes back unchanged |
| `Service.ApiService.TestConnection` | src/services/ApiService.ts:53-76 | probes base plus `/api/sensores` once and always returns a result record, namely `Diagnose` of the response |
| `Service.Diagnose` | src/services/ApiService.ts:53-76 | success exactly for an array payload, with the count present exactly then and equal to the length; any other payload gives "formato inesperado"; an error gives its message or the default; the message is never empty |
| `Service.ResolveAfterUpdate` | src/services/ApiService.ts:14-21 | after `updateBaseURL(u)`, `getBaseURL` yields `u` for every `u`, the empty string included |
| `Service.InitPreservesResolution` | src/services/ApiService.ts:7-22 | `init` never changes what `getBaseURL` returns |
| `Service.ResolveIgnoresOtherKeys` | src/services/ApiService.ts:20 | writing any key other than `apiURL` leaves the resolved URL unchanged |
| `Service.ResolveAfterStoring` | src/services/ApiService.ts:19-21 | a non-empty stored `apiURL` wins over whatever the field holds |
| `Service.SensorsURL` | src/services/ApiService.ts:26 | the template `${baseURL}/api/sensores`; see `URLsExtendBase`, `URLsDistinct` and `SensorsURLInjective` |
| `Service.ReadingsURL` | src/services/ApiService.ts:32 | the template `${baseURL}/api/readings`, also the POST target at line 49; see `URLsExtendBase` and `URLsDistinct` |
| `Service.SensorReadingsURL` | src/services/ApiService.ts:38 | the template `${baseURL}/api/readings/${sensorId}`; see `URLsExtendBase`, `URLsDistinct` and `SensorReadingsURLInjective` |
| `Service.EncodeReading` | src/services/ApiService.ts:44-48 | the body `{ sensorId, value, timestamp }`; `DecodeEncodeReading` proves it carries exactly those three values |
| `Service.URLsExtendBase` | src/services/ApiService.ts:26-49 | every request URL starts with the base URL it was built from |
| `Service.URLsDistinct` | src/services/ApiService.ts:26-38 | for one base, the sensors, readings and per-sensor readings URLs are pairwise different |
| `Service.SensorReadingsURLInjective` | src/services/ApiService.ts:38 | two sensor ids give the same per-sensor URL only if they are equal |
| `Service.SensorsURLInjective` | src/services/ApiService.ts:26 | two base URLs give the same sensors URL only if they are equal |
| `Service.DecodeEncodeReading` | src/services/ApiService.ts:44-49 | the posted body decodes back to exactly the sensor id, value and timestamp it was built from |
| `RiskView.Classify` | src/screens/RiskViewScreen.tsx:39-41 | the ordered threshold rule; its meaning is carried by `HighIff`, `ModerateIff`, `LowIff`, `ClassifyIsWorseSignal`, `Boundaries` and `ClassifyMonotone` |
| `RiskView.RiskLabel` | src/screens/RiskViewScreen.tsx:34-42 | the text is "Sem dados" exactly when there is no data |
| `RiskView.ClassifyIsWorseSignal` | src/screens/RiskViewScreen.tsx:39-41 | the ordered rule equals the worse of the two per-signal levels, each with its own thresholds |
| `RiskView.HighIff` | src/screens/RiskViewScreen.tsx:39 | High exactly when humidity > 80 or tilt > 30 |
| `RiskView.ModerateIff` | src/screens/RiskViewScreen.tsx:39-40 | Moderate exactly when neither High bound is exceeded and humidity >= 60 or tilt >= 15 |
| `RiskView.LowIff` | src/screens/RiskViewScreen.tsx:39-41 | Low exactly when humidity < 60 and tilt < 15 |
| `RiskView.Boundaries` | src/screens/RiskViewScreen.tsx:39-41 | humidity 80 with low tilt is Moderate, 80.0001 is High, 60 is Moderate, 59.999 is Low; tilt 30 is Moderate, 30.5 is High |
| `RiskView.ClassifyMonotone` | src/screens/RiskViewScreen.tsx:39-41 | raising either signal never lowers the level |
| `RiskView.LabelIdentifiesLevel` | src/screens/RiskViewScreen.tsx:39-41 | the three risk texts are distinct, so the text shown determines the level |
| `RiskView.LastReading` | src/screens/RiskViewScreen.tsx:18-25 | a reading is found exactly when the stored `leituras` is non-empty, parses, and has an element; it is then the last element |
| `RiskView.Render` | src/screens/RiskViewScreen.tsx:48-58 | spinner exactly while loading; "no reading" exactly when loaded without data; a shown risk text is never "Sem dados" |
| `RiskView.RiskViewScreen.constructor` | src/screens/RiskViewScreen.tsx:12-13 | the screen starts without data and with loading on |
| `RiskView.RiskViewScreen.LoadLastReading` | src/screens/RiskViewScreen.tsx:15-29 | the data becomes the last stored reading when one is found, else stays; loading is off on every path |
| `Config.AcceptsURL` | src/screens/ConfigScreen.tsx:31 | the guard `url.startsWith('http')`; see `AcceptedURLNonEmpty`, `AcceptsURLExamples` and `Strings.StartsWithIffConcat` |
| `Config.AcceptedURLNonEmpty` | src/screens/ConfigScreen.tsx:31 | a URL the guard accepts is non-empty and begins with "http" |
| `Config.AcceptsURLExamples` | src/screens/ConfigScreen.tsx:31 | "httpfoo" and "https://x" pass; "ftp://x", "HTTP://x", "htt" and "" do not: a case-sensitive prefix test |
| `Config.SaveEffect` | src/screens/ConfigScreen.tsx:30-37 | an accepted URL is written under `apiURL`; a rejected one leaves the store exactly as it was |
| `Config.SaveThenServiceResolves` | src/screens/ConfigScreen.tsx:35 | after an accepted save of `u`, the service's `getBaseURL` yields `u` whatever its field holds |
| `Config.RejectedSaveKeepsResolution` | src/screens/ConfigScreen.tsx:31-34 | a rejected save leaves the service's resolved URL as it was |
| `Config.SaveThenLoad` | src/screens/ConfigScreen.tsx:24-35 | reopening the screen after an accepted save of `u` shows `u` |
| `Config.ProbeURL` | src/screens/ConfigScreen.tsx:48 | the probed address `${url}/sensores`; see `ProbeDiffersFromService`, `ProbeWithApiSuffix` and `ProbeHitsServiceOnlyWithApiSuffix` |
| `Config.ProbeDiffersFromService` | src/screens/ConfigScreen.tsx:48 | the probed address `url + "/sensores"` is never the service's sensors URL for the same `url` |
| `Config.ProbeWithApiSuffix` | src/screens/ConfigScreen.tsx:48 | the probe reaches the service's sensors endpoint for base `b` when the field holds `b + "/api"` |
| `Config.ProbeHitsServiceOnlyWithApiSuffix` | src/screens/ConfigScreen.tsx:48 | conversely, a probe that reaches the sensors endpoint of base `b` was typed as `b + "/api"` |
| `Config.ClassifyProbe` | src/screens/ConfigScreen.tsx:47-57 | array payload: OK with its length; other payload: unexpected answer; thrown error: failure with its message or "Erro desconhecido" |
| `Config.ProbeAgreesWithService` | src/screens/ConfigScreen.tsx:49-56 | the screen's and the service's classifications agree on success and count, and on the message of an error that has one; they differ for an error without a message |
| `Config.ConfigScreen.constructor` | src/screens/ConfigScreen.tsx:20-21 | the field starts empty and loading is off |
| `Config.ConfigScreen.Load` | src/screens/ConfigScreen.tsx:24-28 | the field becomes the stored `apiURL` only if it is non-empty, and nothing else changes |
| `Config.ConfigScreen.Edit` | src/screens/ConfigScreen.tsx:71 | typing replaces the field |
| `Config.ConfigScreen.Save` | src/screens/ConfigScreen.tsx:30-37 | reports whether the field starts with "http"; the store changes exactly by `SaveEffect` |
| `Config.ConfigScreen.TestConnection` | src/screens/ConfigScreen.tsx:39-60 | empty field: no request and no state change; otherwise, in order: loading on, one GET to `url + "/sensores"`, loading off; then the classified outcome |
| `History.SaveEffect` | src/screens/HistoryScreen.tsx:16-23 | an accepted URL is written under `API_URL`; a rejected one leaves the store unchanged |
| `History.SaveTouchesOnlyItsKey` | src/screens/HistoryScreen.tsx:21 | a save here changes no key other than `API_URL` |
| `History.SaveKeepsServiceURL` | src/screens/HistoryScreen.tsx:21 | since `API_URL` differs from `apiURL`, a save here never changes the service's resolved URL |
| `History.SaveThenLoad` | src/screens/HistoryScreen.tsx:8-21 | reopening this screen after an accepted save of `u` shows `u` |
| `History.HistoryScreen.constructor` | src/screens/HistoryScreen.tsx:6 | the field starts empty |
| `History.HistoryScreen.Load` | src/screens/HistoryScreen.tsx:8-14 | the field becomes the stored `API_URL` only when that is non-empty |
| `History.HistoryScreen.Edit` | src/screens/HistoryScreen.tsx:30 | typing replaces the field |
| `History.HistoryScreen.Save` | src/screens/HistoryScreen.tsx:16-23 | reports whether the field starts with "http"; the store changes exactly by `SaveEffect` |
| `Session.Step` | src/services/ApiService.ts:7-17 | one event's effect on the shared store and the service's field: `init`, `updateBaseURL`, and the two screens' saves (src/screens/ConfigScreen.tsx:30-37, src/screens/HistoryScreen.tsx:16-23); `Session.Apply` proves it is what the objects do |
| `Session.StepSetsURL` | src/services/ApiService.ts:14-21 | an update, or an accepted config-screen save, makes the service resolve to that event's URL |
| `Session.StepKeepsURL` | src/services/ApiService.ts:7-12 | an init, a rejected config-screen save or any history-screen save leaves the resolved URL unchanged |
| `Session.LastSetterDecides` | src/services/ApiService.ts:14-22 | after any session over the shared store, the service resolves to the URL of the last update or accepted config-screen save |
| `Session.NoSetterKeepsURL` | src/screens/HistoryScreen.tsx:21 | a session with no update and no accepted config-screen save leaves the resolved URL as it was |
| `Session.FreshInstallUsesDefault` | src/services/ApiService.ts:5-12 | from an empty store the service resolves to `http://localhost:8080` until a setter runs |
| `Session.ConfigSaveThenGetBaseURL` | src/screens/ConfigScreen.tsx:31-35 | on shared objects: the save succeeds exactly when the field starts with "http"; an accepted save is what the service's next `getBaseURL` returns; a rejected one leaves the store, and so the resolved URL, unchanged |
| `Session.HistorySaveThenGetBaseURL` | src/screens/HistoryScreen.tsx:21 | on shared objects: the service's next `getBaseURL` after a history-screen save equals what it was before |
| `Session.Apply` | src/services/ApiService.ts:7-17 | on objects sharing one store, performing an event (the service's `init` or `updateBaseURL`, or a screen's field set and saved, src/screens/ConfigScreen.tsx:30-37, src/screens/HistoryScreen.tsx:16-23) leaves the store and the service's field exactly as `Step` gives |
| `Session.ApplyAll` | src/services/ApiService.ts:7-17 | on objects sharing one store, performing a sequence of events in order leaves them exactly as `Run` gives |
| `Session.LastSetterDecidesOnObjects` | src/services/ApiService.ts:14-22 | on objects sharing one store, after any sequence of events the service's `getBaseURL` returns the URL of the last update or accepted config-screen save |

## Left out

- Rendering is not modelled: layout, styles, status colours and icons, alert dialogs and console logging. Save results and probe outcomes are returned as values in place of the alerts.
- Navigation is not modelled: the navigator, `App.tsx` (which only calls `init`) and every `navigate` call.
- HTTP is not modelled below the request and response: status codes, timeouts and retries. Any failure is a thrown error with a message.
- Storage failures are not modelled: the store never rejects a read or a write. So the part of `testConnection`'s `try` that guards `getBaseURL` has no failure to catch here.
- Persistence durability is not modelled.
- Concurrency is not modelled: each `await` chain runs as one sequential method. Three interleavings are therefore not covered. A config change cannot land between `getBaseURL` and the request. The settings screen's load effect cannot race with typing, and the test button cannot be pressed while a test runs.
- Floating point is not modelled: values and thresholds are `real`. NaN readings are excluded, and `toFixed` formatting is not modelled.
- `JSON.parse` of the stored `leituras` is a decoder parameter, because it is library code. Stored elements that lack `umidade` or `inclinacao` are not modelled.
- `new Date().toISOString()` is the parameter `now` of `CreateReading`. It is a clock reading.
- The other screens are not part of this model: sensor list, sensor detail, sensor history, data entry, login and mitigation. They hold random demo data, a fixed credential check, a stub, a float-parse input guard and help text that no code computes from.
- Summary statistics and chart windowing are not modelled, because no source file implements them.
- `Service.ApiService.GetSensores`, `GetAllReadings`, `GetSensorReadings`, `CreateReading`: these show that the base URL is read once per operation only because each body calls `GetBaseURL` once. The contracts do not count storage reads.
- `Config.ConfigScreen.TestConnection`: states that loading ends false only when a request was made. It keeps `loading` otherwise. The field is false from construction and no other method sets it, so it is false between calls.
