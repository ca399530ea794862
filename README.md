# ZeaWatch scan history, modelled in Dafny

ZeaWatch is a web page that sends a photo of a maize leaf to a disease
detector and lists the results in a scan history. The history persists in the
browser's local storage. This project models the two parts of the page that
hold state and rules:

- **The `useLocalStorage` hook** (`local_storage.dfy`, module `LocalStorage`).
  It keeps an in-memory mirror of one key of a string-to-string store. It reads
  the key when created and again on mount. It falls back to a default value
  when the store is missing, the key is absent, the stored text is empty or the
  text does not parse. It writes through on set, where the argument is a value
  or an updater function. It follows `storage` events that other browser
  contexts raise for the same key. The class `Cache` has `store` (None when
  there is no `window.localStorage`) and `mirror` fields. JSON is abstract: a
  `Config` carries `serialize` and a partial `parse`.
- **The scan-history ledger of the home page** (`history.dfy`, module
  `History`; `page.dfy`, module `Page`). The `Append` function is the updater
  `[newScan, ...prev].slice(0, 20)`. Clearing passes the literal `[]` to the
  setter. The class `Home` holds the chosen image, its preview URL, the last
  prediction, the error banner and the history cache. Its methods are the image
  change, analyse and clear handlers.

`wrappers.dfy` holds the `Option` type.

What is proved:

- Each way a read can fall back to the default.
- What set does to the mirror and to the store, including when the store is
  missing or refuses the write.
- What each kind of storage event does.
- A write followed by a fresh read (a reload) gives back the value written.
- After an event for the key, the mirror agrees with a fresh read unless the
  payload is malformed. Two lemmas show where the two part.
- An append keeps at most 20 records, puts the new one first, and evicts
  nothing below 20 and exactly the oldest record at 20.
- Any non-empty run of appends leaves the newest 20 records, newest first,
  even from an over-long history. A corollary covers 25 appends.
- Clearing empties the history whatever it held, and clearing twice leaves the
  same state as clearing once.

## Model

| member | source | states |
|---|---|---|
| `LocalStorage.Interpret` | src/hooks/use-local-storage.ts:18-19 | A stored item counts as absent exactly when it is null or the empty (falsy) string. It is malformed exactly when it is non-empty and does not parse. Otherwise it is parsed, and its value is what `parse` gives. |
| `LocalStorage.ReadValue` | src/hooks/use-local-storage.ts:11-24 | `readValue` returns either the default or a successful parse of the key's stored text. It returns the parsed value when there is a store and the key holds non-empty, parseable text. It returns the default when the store is missing, the key is absent, the text is empty or the parse fails, so no parse error escapes. |
| `LocalStorage.HandledValue` | src/hooks/use-local-storage.ts:65-72 | Events for another key, for a cleared area (null key) or for session storage leave the mirror unchanged. For this key in local storage, a null or empty `newValue` resets the mirror to the default, a parseable one sets it to the parsed value, and a malformed one leaves it unchanged. |
| `LocalStorage.RoundTrip` | src/hooks/use-local-storage.ts:18-48 | Take a value whose encoding is non-empty and parses back to that value. After the store maps the key to that encoding, a fresh read returns the value. |
| `LocalStorage.EventConverges` | src/hooks/use-local-storage.ts:65-72 | Take an event for this key in local storage whose payload is absent, empty or parseable. After it, the mirror equals what a fresh read of the changed store returns. |
| `LocalStorage.MalformedEventDiverges` | src/hooks/use-local-storage.ts:67-71 | A malformed payload keeps the old mirror, but a fresh read of the changed store returns the default, so the two can differ. |
| `LocalStorage.AreaClearIgnored` | src/hooks/use-local-storage.ts:66 | When another context clears the whole area (null event key), the mirror keeps its value, but a fresh read returns the default. |
| `LocalStorage.Cache.constructor` | src/hooks/use-local-storage.ts:28 | The first render sets the mirror to `readValue()` and touches nothing else. |
| `LocalStorage.Cache.Mount` | src/hooks/use-local-storage.ts:55-58 | The mount effect sets the mirror to a fresh `readValue()` and leaves the store unchanged. |
| `LocalStorage.Cache.Set` | src/hooks/use-local-storage.ts:32-52 | A literal sets the mirror to itself. An updater sets the mirror to `f(old mirror)`. The store is unchanged when it is missing or refuses the write; the mirror stays updated and nothing is rolled back. Otherwise the store maps the key to `serialize(new mirror)`, and every other key keeps its value. |
| `LocalStorage.Cache.OnStorageEvent` | src/hooks/use-local-storage.ts:62-78 | Without a store no listener is registered, so nothing changes. With one, the store takes the change the event reports, and the mirror becomes `HandledValue` of the old mirror and the event. |
| `LocalStorage.PersistThenReload` | src/hooks/use-local-storage.ts:28-48 | Set a value whose encoding round-trips, with a store that accepts the write. A new hook created over the resulting store (a reload) then starts with that value. |
| `History.Append` | src/app/page.tsx:74 | The result has 1 to 20 records. The new record comes first, followed by the old history's first `min(n, 19)` records in order. Below 20 records, nothing is evicted and the length grows by one. At exactly 20, only the last (oldest) record is dropped. |
| `History.AppendAllBounded` | src/app/page.tsx:74 | After any non-empty run of appends, or any run starting within the bound, the history has at most 20 records. |
| `History.AppendAllKeepsNewest` | src/app/page.tsx:74 | Start from any history when at least one scan is appended, or from one within the bound otherwise. Even a longer list loaded from the store qualifies. Appending a sequence of scans in order gives the first 20 of (those scans newest first, followed by the old history). |
| `History.NewScan` | src/app/page.tsx:66-73 | The new record takes its `id`, `date` and `imageUrl` from the caller. It copies `diseaseName` and `confidence` from the detection result and keeps the whole result as `prediction`. |
| `History.NewestFirst` | src/app/page.tsx:74 | Appends to an empty history leave `min(count, 20)` records. Record `i` is the `i`-th most recent scan. |
| `History.TwentyFiveScans` | src/app/page.tsx:74 | Twenty-five appends to an empty history leave exactly the last 20, newest first. The first scan survives only as an equal copy of a later one. |
| `Page.Home.constructor` | src/app/page.tsx:23-28 | No image, preview, prediction or error is set. The history cache has key "scanHistory" and default `[]`, and holds `readValue()` of the given store. |
| `Page.Home.ImageChange` | src/app/page.tsx:35-43 | A chosen file sets the image and its preview URL, and clears the prediction and the error. No file changes nothing. |
| `Page.Home.AnalyzeClick` | src/app/page.tsx:45-90 | With no image or no (or empty) preview URL (`NothingSelected`, the guard at line 46), nothing changes. Otherwise, when detection succeeds, the prediction is shown, the error is cleared and the history becomes `Append(old, newScan)`. The new record copies `diseaseName` and `confidence` from the result and keeps the whole result as `prediction`, and the store is written as by `Set`. A file-read failure sets the error message. A rejected detection shows nothing. Neither failure touches the history. |
| `Page.Home.ClearHistory` | src/app/page.tsx:92-94 | The history mirror becomes empty whatever it held. The store maps the key to `serialize([])` when it is there and accepts the write. |
| `Page.TwoScansScenario` | src/app/page.tsx:66-74 | On a fresh page, analysing A and then B gives the history `[B, A]`. |
| `Page.ClearTwiceScenario` | src/app/page.tsx:92-94 | From any store, clearing gives an empty history, and clearing twice leaves the same store as clearing once. |

## Left out

- The React rendering tree, the `isClient` render gate and all UI components are pure rendering.
- The `isLoading` flag and its `setTimeout` reset (src/app/page.tsx:48, 79, 88) are a display concern.
- Reading the file into base64 (`FileReader`, src/app/page.tsx:54-59) and `URL.createObjectURL` are browser plumbing. The read's outcome and the object URL are parameters.
- The detector is an external call. Its result is the `Outcome` parameter of `AnalyzeClick`.
- The outer `catch` of `handleAnalyzeClick` (src/app/page.tsx:81-84) is not modelled. It only catches errors thrown while the reader is set up, which is not modelled either.
- `new Date()` gives the record's `id` and `date`. Both are parameters.
- JSON encoding is abstract: `serialize` is total and `parse` is partial. The round trip needs `serialize(v) != ""`, which holds for `JSON.stringify`.
- A `setItem` failure (quota exceeded) and an encoding error thrown by `JSON.stringify` are one boolean parameter, `accepted`, of `Cache.Set`.
- An exception thrown by an updater function is not modelled. Updaters are total functions here.
- LocalStorage.Cache.Set: the updater is applied to the current mirror. React's stale closure, where it sees `storedValue` as of the last render (src/hooks/use-local-storage.ts:44), is not modelled.
- Page.Home.AnalyzeClick: the click (src/app/page.tsx:46-50) and the detector's answer (src/app/page.tsx:62-74) are one step. Same-tab handlers that run while detection is pending (a new image, a clear, a second click) are not interleaved with it. So the model cannot reach a state where the shown prediction and the new record's `imageUrl` belong to an earlier image than the current preview.
- Cross-tab races and last-write-wins interleavings are not modelled. A storage event is one atomic step: another context's change to the shared store, then this context's handler.
- Session storage is modelled only as the other area, whose events the handler ignores.
- There is no guard against the detector's "Analysis Error" sentinel result. The page appends every resolved result (src/app/page.tsx:62-74), and so does the model.
- The 20-record bound holds after appends and clears only. A storage event or a read can load a longer list written by another context. `Append` still trims that list to 20.
- Console warnings (`console.warn`, `console.error`) are logging and are left out.
