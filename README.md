# Version-gated model cache of the object-detection page

The page (`app.js`) runs an object detector on the camera feed and keeps the
detector's configuration and artifact in a browser database, "ModelCache",
so that a later visit can skip the download. This project models that cache
and the start-up routine that uses it:

- the database's two object stores, "models" and "files", each a map from a
  record's `key` to the record, held by the class `CacheStore.Store`;
- `loadFromIndexedDB` / `saveToIndexedDB` (`Store.Load`, `Store.Save`): saves
  stamp every record with `MODEL_VERSION` ("1"), loads return the stored
  `modelConfig` only for a record of that version and null otherwise;
- `saveFileToIndexedDB` / `loadFileFromIndexedDB` (`Store.SaveFile`,
  `Store.LoadFile`): an unversioned pair that stores and returns a URL;
- `fetchMedia` (`MediaFetch.FetchMedia`): a network answer turned into
  `{buffer, type}` or null, never an error;
- `loadModel` (`ModelLoader.App.LoadModel`, specified by the function
  `ModelLoader.Run`): probe both cache keys, then Hit (both values truthy)
  or Miss (load the default model, save its configuration, fetch and save
  its artifact), then Ready or Failed.

Everything the page cannot decide itself is an input: each store call's
outcome (`StoreFault`: success, the database cannot be opened, the request
fails), the provider's outcome (`cocoSsd.load()`), whether
`tf.loadGraphModel` resolves, and the network's answer to the artifact
fetch (`MediaFetch.Response`). Bytes are `seq<bv8>`; object URLs are opaque
strings.

Facts about the code that the model records as they are:

- On a Miss the fetched artifact is written with `saveToIndexedDB`, so it
  lands in "models" under "ssdlite_mobilenet_v2", not in "files".
- A fetch that yields null is still saved; the stored null reads back as a
  miss, so the next start misses again (`NullFetchMissesAgain`).
- The Hit path binds the rebuilt model to a local constant; the module-level
  `model` keeps its value (undefined in a fresh page) although the page
  reaches Ready (`HitLeavesModelUnassigned`).
- Every rejection inside `loadModel`'s `try` ends in Failed. Both saves on
  the Miss path are awaited inside the `try` (app.js:40, app.js:50), so a
  rejected save also ends in Failed.
- "files" records carry no version field, and `loadModel` never uses "files".
- The response's ok flag is modelled as a status from 200 to 299, as the
  Fetch standard defines it.

## Model

| member | source | states |
|---|---|---|
| `CacheStore.Store.constructor` | app.js:87-91 | a newly created database has both stores empty and every record under its own key |
| `CacheStore.Store.Load` | app.js:64-93 | resolves exactly when the store call succeeds; returns the record's `modelConfig` when a record exists under the key with version `MODEL_VERSION`, null when it is missing or of another version; a non-null result is exactly what a save of that key and value would have written; rejects with "IndexedDB access denied" or "Error fetching from IndexedDB"; changes nothing |
| `CacheStore.Store.Save` | app.js:95-117 | on success the "models" store gains `{key, modelConfig, version: MODEL_VERSION}` under the key, replacing what was there, and nothing else changes; on either rejection neither store changes; "files" never changes |
| `CacheStore.Store.SaveFile` | app.js:119-142 | on success "files" holds `{key, url}` under the key and nothing else changes; "models" never changes |
| `CacheStore.Store.LoadFile` | app.js:144-167 | returns the stored URL exactly when a record exists under the key, null otherwise, with no version check; a returned URL comes from the record `{key, url}`; rejects with "IndexedDB access denied" or "Error loading from IndexedDB"; changes nothing |
| `CacheStore.SaveThenLoad` | app.js:106-112 | a save followed by a load of the same key returns the saved value, whatever stale or fresh record was there |
| `CacheStore.SaveIsolated` | app.js:112 | a save leaves every other key's record as it was |
| `CacheStore.SaveOverwrites` | app.js:112 | two saves to one key leave the store as the second save alone would |
| `CacheStore.StaleNeverSurfaced` | app.js:79-82 | a record of another version loads as null |
| `CacheStore.SaveFileThenLoadFile` | app.js:132-163 | a file save followed by a file load returns the saved URL, and other keys are unaffected |
| `CacheStore.LoadAfterSaves` | app.js:106-112 | after any sequence of saves a load returns the value of the last save to that key, or the earlier answer when no save touched it |
| `CacheStore.SavesKeepKeyPaths` | app.js:89-90 | any sequence of saves keeps every record under its own key |
| `MediaFetch.FetchMedia` | app.js:170-197 | yields a record exactly when the fetch resolved with an ok status and the body could be read; the record holds the body bytes and the declared content type, or "" when none was declared; otherwise null, never an error |
| `MediaFetch.NotFoundIsNull` | app.js:175-178 | a 404 answer yields null |
| `ModelLoader.Run` | app.js:15-62 | ends Ready or Failed; takes Hit exactly when both reads succeed and both cached values are truthy; Hit never fetches, never writes and never assigns `model`; Ready exactly when Hit and the graph model loads, or Miss with the provider, both saves succeeding; on Miss a rejected provider changes nothing and fetches nothing, a rejected configuration save leaves the store as it was and fetches nothing, and a rejected artifact save leaves only the configuration written; `model` is the provider's model, the configuration saved is `modelUrl` or "lite_mobilenet_v2", the fetched URL is `path` or the default artifact URL and the artifact key holds the fetch result; keys other than the two cache keys are untouched |
| `ModelLoader.App.constructor` | app.js:8 | a page starts with `model` undefined and the loader showing |
| `ModelLoader.App.LoadModel` | app.js:15-62 | the phase, `model`, the "models" store, the branch and the fetched URL after the call are those `Run` gives from the state before it; "files" is untouched |
| `ModelLoader.ConfigAlwaysTruthy` | app.js:39 | the configuration the Miss path saves is never falsy |
| `ModelLoader.MissThenHit` | app.js:24-50 | after a Ready Miss whose fetch succeeded, the next run with working reads takes Hit without fetching or writing |
| `ModelLoader.NullFetchMissesAgain` | app.js:47-50 | after a Ready Miss whose fetch returned null, the next run with working reads takes Miss again |
| `ModelLoader.NotFoundStillReady` | app.js:47-57 | a Miss whose artifact URL answers 404 still reaches Ready, with null stored under the artifact key |
| `ModelLoader.StaleCacheMisses` | app.js:18-24 | a configuration record written under another version never lets a run take Hit |
| `ModelLoader.HitLeavesModelUnassigned` | app.js:32 | in a fresh page a Hit reaches Ready with `model` still undefined |
| `ModelLoader.TwoSessions` | app.js:15-62 | two page starts against one empty database, all calls succeeding: both reach Ready, the first misses and fetches `path` or the default URL, the second hits without fetching, and the configuration reads back as `modelUrl` or "lite_mobilenet_v2" |
| `ModelLoader.TwoSessionsNotFound` | app.js:43-57 | two page starts whose artifact URL answers 404: both reach Ready and both miss |

## Left out

- Opening the database, the upgrade callback and transactions are modelled only as the two maps and a per-call outcome; the database and store names are not modelled.
- `Blob`, `URL.createObjectURL` and `arrayBuffer` are not modelled: bytes are sequences, an object URL is an opaque string given to `Store.SaveFile`, and the Hit path's object URL is not represented.
- `Store.SaveFile` takes the object URL the host mints for the file's blob rather than the file; the bytes themselves are never stored by the source either.
- The browser's normalisation of a blob's MIME type (lower-casing) is not modelled.
- `cocoSsd.load`, `tf.loadGraphModel` and `model.detect` are external libraries: only whether they resolve, and the loaded model's `modelUrl` and `path`, are inputs.
- Camera set-up (`startDetection`, `setupVideoStream`), the detection and drawing loop (`detectFrame`, `renderDetections`), the fullscreen toggle and the click handler are device, canvas and DOM I/O with floating-point layout; they are not part of this model.
- `console` logging and the alert text are not modelled; the alert is the phase Failed, hiding the loader and showing the camera button is the phase Ready.
- Asynchrony is not modelled: each awaited call is one step, in program order.
- ModelLoader.Run: assumes every awaited call settles. A `fetch` with no time-out (app.js:174), or an exception thrown inside an `onsuccess` handler such as `db.transaction(...)` (app.js:72, 103, 127, 152), leaves the promise pending and the page on its loader; the model has no such outcome, so Run always ends Ready or Failed.
- CacheStore.Store.Save: a save resolves when the put request succeeds (app.js:114), before the transaction commits; a commit that then aborts (a quota error, for example) resolves the save yet stores nothing. The model has no such outcome: a resolved save always changes the store. The same holds for CacheStore.Store.SaveFile (app.js:139).
