# ReVibe device inventory and chat — a Dafny model

ReVibe is a single-page app for tracking personal electronics: the user registers,
keeps an inventory of devices, asks an AI service for a sustainability analysis of
each device, and chats with an advisory assistant about e-waste rules. The user
profile and the device list are kept in the browser's local storage; the chat and
the view state live only in memory.

This project models the two parts of the app that hold logic:

- **The controller in `App.tsx`** (module `Controller`, class `App`). It owns the
  session flag, the active tab, the user profile, the device list, the add-form flag,
  the id of the analysis in flight and the id of the analysis on screen. Its
  handlers are `Mount` (first render plus the load effect), `Register`, `Logout`,
  `AddDevice` and `Analyze`. Local storage is a `Store.Storage` object with one
  typed slot per key (`revibe_user`, `revibe_devices`). Every handler that changes
  the user or the device list writes that slot back.
  `App.Valid()` is the "storage mirrors memory" invariant that every handler keeps:
  - the stored device list is the in-memory list;
  - a stored profile is the in-memory profile;
  - a registered session has a stored profile;
  - no analysis is left in flight between handlers.
- **The list and profile transforms the handlers use**. They are pure functions:
  - `Inventory`: the seed devices, `find` by id, `map` to attach an analysis, and
    the add form's defaults with the derived display name;
  - `Session`: the registered profile and the +15 score award;
  - `Text`: JavaScript's `String.prototype.trim` over the ECMAScript whitespace set.
- **The chat in `components/ChatInterface.tsx`** (module `Chat`, class
  `ChatInterface`). It holds the transcript, the input text and the typing
  indicator. It also holds `awaiting`, the number of sends still waiting for a
  reply; the component has no such field, and `awaiting` stands for the pending
  `handleSend` continuations. `handleSend` awaits the
  service, so it is split at that point. `Send` runs up to the request. `Deliver`
  runs when the reply arrives and appends it to the transcript as it is by then.
  `Clear` resets the transcript to the greeting. `ChatInterface.Valid()` is the
  invariant every chat method keeps: the transcript always opens with the greeting,
  and the indicator is off when no reply is outstanding.

Ids from `Math.random`, the analysis service's answer and the chat reply are
parameters. The analysis answer is `Success(analysis)` or `Failure`.

Two details of the source the model keeps as written:

- The add form starts the year at the current year (components/DeviceForm.tsx:17),
  but the handler's own default is the literal 2024 (App.tsx:69).
- A stored snapshot is parsed with no fallback (App.tsx:27, App.tsx:33). The typed
  store here cannot hold a malformed snapshot.

## Model

| member | source | states |
|---|---|---|
| `Text.SkipLeading` | App.tsx:65 | the scan stops at the first character from the start index on that is not whitespace, or at the end; everything skipped is whitespace |
| `Text.SkipTrailing` | App.tsx:65 | the scan stops just past the last character before the end index that is not whitespace, or at 0; everything skipped is whitespace |
| `Text.Trim` | components/ChatInterface.tsx:26-28 | the trimmed text neither starts nor ends with whitespace, and it is empty exactly when the input is blank |
| `Text.TrimIsSlice` | components/ChatInterface.tsx:28 | any slice with no whitespace at either end and only whitespace around it is exactly the trimmed text |
| `Text.TrimOfTrimmed` | App.tsx:65 | text without surrounding whitespace is left unchanged |
| `Text.TrimIdempotent` | components/ChatInterface.tsx:28 | trimming twice gives the same text as trimming once |
| `Text.BlankConcat` | components/ChatInterface.tsx:26 | joining two blank strings gives a blank string |
| `Text.BlankJoin` | App.tsx:65 | a brand and a model joined by a space are blank exactly when both are blank |
| `Text.SliceInConcat` | App.tsx:65 | the trimmed slice of a string is still the trimmed slice once whitespace is appended |
| `Text.SliceAfterPadding` | App.tsx:65 | the trimmed slice of a string, shifted, is still the trimmed slice once whitespace is put before it |
| `Text.TrimPadRight` | App.tsx:65 | whitespace appended to a string does not change its trimmed text |
| `Text.TrimPadLeft` | App.tsx:65 | whitespace put before a string does not change its trimmed text |
| `Text.TrimIgnoresPadding` | components/ChatInterface.tsx:28 | whitespace on either side of a string does not change its trimmed text |
| `Inventory.SeedDevices` | App.tsx:35-38 | the first-run list is exactly two unanalysed devices: id "1", OnePlus 7 Pro, 2019, Working; id "2", Dell XPS 13, 2018, Major Damage |
| `Inventory.Ids` | App.tsx:79 | the id list has one entry per device, in list order |
| `Inventory.FindById` | App.tsx:79 | the lookup finds nothing exactly when no device carries the id, and what it finds is a listed device with that id |
| `Inventory.FindByIdFirst` | App.tsx:79 | the lookup returns the first device in list order that carries the id |
| `Inventory.FindByOwnId` | App.tsx:79 | with unique ids, looking up a device's own id finds that device |
| `Inventory.AttachAnalysis` | App.tsx:90-92 | the list keeps its length and order; every device with the id gets the analysis and every other device is unchanged |
| `Inventory.AttachKeepsIds` | App.tsx:90-92 | attaching an analysis adds, drops and reorders no device |
| `Inventory.AttachNeverClears` | App.tsx:90-92 | an analysis already present is never cleared by a later attach |
| `Inventory.AttachExactlyOne` | App.tsx:90-92 | with unique ids, exactly the targeted device changes, and only in its analysis |
| `Inventory.FindAfterAttach` | App.tsx:79-95 | after the attach, looking up the id finds the same device, now carrying the analysis |
| `Inventory.OrString` | App.tsx:66-68 | a missing or empty string field takes the fallback, and any other value is kept |
| `Inventory.DisplayName` | App.tsx:65 | the name is never empty: a blank brand and a blank model give "New Device", and otherwise the name is the trimmed "brand model" |
| `Inventory.NewDevice` | App.tsx:63-71 | the new device has the fresh id and no analysis; missing brand and model become empty; category defaults to smartphone, year to 2024 (also for year 0), status to Working; the name is derived from brand and model |
| `Inventory.DisplayNameJoins` | App.tsx:65 | a non-empty brand and model with no surrounding whitespace give the name "brand model" |
| `Inventory.DisplayNameModelOnly` | App.tsx:65 | with no brand, the name is the trimmed model |
| `Inventory.DisplayNameBrandOnly` | App.tsx:65 | with no model, the name is the trimmed brand |
| `Inventory.DisplayNameFallback` | App.tsx:65 | a blank brand and a blank model give "New Device" |
| `Inventory.SonyExample` | App.tsx:63-71 | brand Sony, model WH-1000, category audio and no status give a Working audio device named "Sony WH-1000" from 2024 |
| `Inventory.FindNewlyAdded` | App.tsx:72 | after the prepend, looking up the new id finds the new device, even if an older device has the same id |
| `Inventory.AddKeepsUniqueIds` | App.tsx:64-72 | prepending a device whose id is not yet used keeps the ids unique |
| `Inventory.SeedsWellFormed` | App.tsx:35-38 | the seeds are two unanalysed devices with the distinct ids "1" and "2" |
| `Session.RegisteredUser` | App.tsx:45-49 | the new profile has the entered name and the fresh id; email, avatar and statistics come from the mock profile, so the score restarts at 850 |
| `Session.AwardAnalysis` | App.tsx:97-103 | the score rises by exactly 15; the two kilogram statistics, id, name, email and avatar are unchanged |
| `Session.AwardsAccumulate` | App.tsx:97-104 | after n awards the score has risen by 15·n and nothing else in the profile has changed |
| `Session.AwardsMonotone` | App.tsx:101 | the score never decreases as awards accumulate |
| `Types.MockUser` | constants.tsx:15-25 | the mock profile: id u1, name Aravind Sharma, its email and avatar, 124.5 kg CO2 saved, 12.8 kg e-waste prevented, score 850 |
| `Store.Storage.constructor` | App.tsx:25-31 | storage starts with the snapshots a previous session left |
| `Store.Storage.SetUser` | App.tsx:52 | the profile slot holds the new snapshot and the device slot is untouched |
| `Store.Storage.RemoveUser` | App.tsx:56 | the profile slot is emptied and the device slot is untouched |
| `Store.Storage.SetDevices` | App.tsx:74 | the device slot holds the new snapshot and the profile slot is untouched |
| `Controller.App.Valid` | App.tsx:24-110 | storage mirrors memory: the stored device list is the in-memory list, a stored profile is the in-memory profile, a registered session has a stored profile, and no analysis is in flight |
| `Controller.App.Mount` | App.tsx:16-42 | sets the initial state; a stored profile becomes the user and opens the session; a stored list is loaded as-is and not rewritten; with no stored list, the two seeds are loaded and stored; storage then mirrors memory |
| `Controller.App.Register` | App.tsx:44-53 | the user becomes the registered profile, the session opens, and that profile is stored; devices, tab and views are unchanged |
| `Controller.App.Logout` | App.tsx:55-60 | the stored profile is removed, the session closes, the analysis view closes and the tab is the dashboard; the devices in memory and in storage are untouched |
| `Controller.App.AddDevice` | App.tsx:62-76 | the list becomes the new device followed by the old list unchanged, the stored list equals it, and the add form closes |
| `Controller.App.Analyze` | App.tsx:78-111 | unknown id: nothing changes. Already analysed: only the view switches, and nothing is sent. Otherwise the device is sent to the service. On success the analysis is attached by id, the score gains 15, both snapshots are stored and the analysis is shown. On failure a notice is raised and data and storage are unchanged. Nothing is left in flight |
| `Controller.App.Complete` | App.tsx:89-105 | the success branch: the analysis is attached by id and the list stored, the analysis is shown, and the profile with 15 more points is stored |
| `Controller.RegisterThenLogout` | App.tsx:35-60 | on first run, registering as Aravind stores that name with score 850; signing out closes the session on the dashboard and leaves the seeds in storage |
| `Controller.AnalyzeTwice` | App.tsx:78-105 | the first trigger on the seed phone sends it and attaches the analysis; the second sends nothing; the score ends at 865 |
| `Controller.RetryAfterFailure` | App.tsx:88-110 | a failed analysis raises a notice and leaves the laptop unanalysed; a retry sends it again and succeeds |
| `Chat.Greeting` | components/ChatInterface.tsx:12-14 | the initial transcript is exactly one bot message with the greeting text |
| `Chat.ChatInterface.Valid` | components/ChatInterface.tsx:12-55 | the transcript always opens with the greeting, and the indicator is off when no reply is outstanding |
| `Chat.ChatInterface.constructor` | components/ChatInterface.tsx:12-16 | the chat starts with the greeting, an empty input and the indicator off |
| `Chat.ChatInterface.Type` | components/ChatInterface.tsx:106 | only the input text changes |
| `Chat.ChatInterface.Send` | components/ChatInterface.tsx:25-31 | blank input changes nothing and sends nothing; otherwise exactly one user message with the trimmed text is appended, the input is cleared, the indicator turns on and the trimmed text is sent; `isTyping` is not consulted |
| `Chat.ChatInterface.Deliver` | components/ChatInterface.tsx:33-35 | exactly one bot message with the reply is appended to the current transcript and the indicator turns off |
| `Chat.ChatInterface.Clear` | components/ChatInterface.tsx:55 | the transcript becomes the single greeting whatever it held; input and indicator are unchanged |
| `Chat.Exchange` | components/ChatInterface.tsx:25-35 | one exchange yields greeting, trimmed question and reply, in that order; a blank question leaves the greeting alone |
| `Chat.OverlappingSends` | components/ChatInterface.tsx:107-111 | two sends through the Enter key before any reply are both accepted; after the first reply the indicator is off while one reply is still outstanding |
| `Chat.ClearBeforeReply` | components/ChatInterface.tsx:34 | a reply that arrives after a clear is appended right after the greeting |

## Left out

- services/gemini.ts is not part of this model. The analysis request, the chat
  request, the prompt text, `JSON.parse` of the reply and the fallback strings are
  all in it. The analysis answer is the `outcome` parameter of `Analyze`, and the
  chat reply is the `reply` parameter of `Deliver`. `getQuickAdvice` never throws,
  so `Deliver` has no error path.
- Serialisation: local storage holds typed snapshots. `JSON.stringify`/`JSON.parse`
  fidelity, malformed snapshots and storage-quota errors are not modelled. The
  persisted-then-reloaded round trip therefore holds by construction.
- `Math.random` ids and `new Date().getFullYear()` are not modelled as such: ids
  are the `freshId` parameters. The add form's initial year is presentation only.
- Controller.App.Analyze: the await is treated as one atomic step, so the
  in-flight state (`analyzingId` set) is never visible between handlers.
  Overlapping analyses and stale `devices`/`user` closures are not modelled.
- Controller.App.Valid: it keeps "a registered session has a stored profile" but
  not the converse. `handleAnalyze` writes the profile even when the session is
  closed, and its callers are only rendered while registered (App.tsx:113-115).
- JavaScript falsiness of a `NaN` purchase year is not modelled: years are integers,
  and only 0 or a missing year takes the default.
- `Partial<Device>` fields that `handleAddDevice` never reads (`id`, `name`,
  `analysis`) are not part of `DeviceDraft`.
- The UI-only setters are not modelled: tab selection in the layout, opening the
  add form, leaving the analysis view, and the scroll effect of the chat. So are
  `alert` (it becomes the `alerted` flag) and all rendering, including
  components/Layout.tsx, AnalysisView.tsx, DeviceCard.tsx, DeviceForm.tsx,
  ImpactDashboard.tsx and RegistrationView.tsx.
- The registration form's own guard is not modelled: `Register` requires a non-empty
  name and location, which is all the form lets through (components/RegistrationView.tsx:21).
- `co2Saved` and `eWastePrevented` are `real` values that are only copied. No
  floating-point arithmetic is modelled.
- Chat.ChatInterface.Deliver: which outstanding send a reply answers is not
  tracked. Only the count of outstanding sends is kept.
- Types.DeviceAnalysis follows the types declared in types.ts, not everything the
  service may return: the reply is never validated (services/gemini.ts:73), so a
  fractional score or an unknown recommendation could reach the device, and the
  model's integer score and three-case recommendation cannot hold either.
