# bird-kiosk in Dafny

bird-kiosk drives an unattended display. It cycles through a configured list of live
camera streams: YouTube embeds, HLS video and plain web pages. It detects streams that
fail and shows an offline screen that moves on to the next cam. The list lives in
`cams.json`. An HTTP API serves and edits it, and annotates every cam with a cached
health check. An admin page edits the file as JSON text. A small telemetry endpoint
counts playback events.

The project models the parts of the system that decide things:

- `kiosk.dfy` (module `Kiosk`): the playback page.
  - Class `KioskPage` holds the page state: `idx`, `status`, `statusDetail`, the
    ready and dwell deadline slots, the hls.js slot, the `<video>` listeners, the
    pending `play()` calls and the telemetry sent.
  - `idx`, `status` and `statusDetail` are React state. The deadline and hls.js slots
    are refs.
  - The clock is an integer. Timers fire through explicit steps.
  - React re-runs the session, HLS and YouTube effects when the displayed cam object
    changes. The model names that object by (list snapshot, position). Restarting the
    session is the explicit step `StartSession`, allowed exactly when `EffectDue()`.
  - Selection, the status badge and the render branch are pure functions.
- `offline_screen.dfy` (`OfflineScreen`): the countdown class, its closed form, the
  title and the detail line.
- `cams_store.dfy` (`CamsStore`): the default file, the read fallback, write
  normalisation and the mtime-keyed read cache. The file is abstract: absent, or a
  modification time plus what `JSON.parse` made of its text.
- `cams_route.dfy` (`CamsRoute`): `validateCam`, the health check against its 30 s
  cache, and GET, POST and DELETE. They work on JSON values, with the JavaScript
  meaning of truthiness, `typeof`, `?.`, `??` and template strings.
- `metrics.dfy` (`Metrics`): per-event counters and the newest-first list of the last
  50 errors.
- `admin.dfy` (`Admin`): `validateCamFile`, the derived `validationErrors` and
  `isValid`, the badge, the 12-message truncation and the save gates.
- `js.dfy` (`Js`): the JavaScript behaviours all of the above rely on.
  - JSON values and truthiness.
  - Property access with `undefined`.
  - Decimal printing of integers.
  - `String.prototype.trim`.
  - The 32-bit conversion `setTimeout` applies to its delay.
- `types.dfy` (`Types`): the records of `lib/types.ts` as the kiosk sees them.

Behaviours the proofs bring out, as the code is written:

- **A list refresh restarts the session.** Every successful poll of `/api/cams`
  stores a fresh object. The displayed cam object changes, so `skipNext` changes,
  and the session effect runs again.
  - `Kiosk.KioskPage.StartSession` re-arms the ready and dwell deadlines from the
    time of the restart and resets the stream. `Kiosk.PollRearmsDeadlines` is one
    run that illustrates it.
  - So no refresh keeps the running session. A deadline longer than the time
    between two successful polls is re-armed before it expires. The default 15 s
    ready deadline and 90 s dwell deadline are such deadlines under a 5 s poll.
    A cam whose `dwellSec` is shorter than that time is still moved off by its dwell
    deadline. The poll interval itself is not modelled.
- **`skipNext` only reports.** `Kiosk.KioskPage.SkipNext` leaves `idx` unchanged.
  Moving on happens only through `Kiosk.KioskPage.Advance`, which is called by the
  offline screen's countdown or its "Skip now" button.
- **A health-gated YouTube cam is marked ready anyway.**
  - A YouTube cam whose health says `ok === false` is skipped at once, with no
    deadline.
  - 2 s later the YouTube heuristic calls `markReady`, which has no status guard.
  - The cam then shows as playing with nothing armed to move on from it. One run
    illustrates it: `Kiosk.GatedYouTubeCamBecomesReady`.
- **Admin save and POST do not agree on the body.** The admin page's Save posts the
  whole file. POST wants `{ cam }`, so a valid file without a `cam` field gets a 400
  (`Admin.AdminSaveBodyRejected`).
- **Admin validation and `validateCam` do not agree on ids.** The admin check accepts
  a whitespace-only id, and `validateCam` rejects it. The cam with id `" "` in
  `Admin.WhitespaceIdAcceptedOnlyByAdmin` is one example.

A reading of the code that the proofs do not connect: the model has no lemma that links
`OfflineScreen.Countdown` to the kiosk status. The countdown runs for 8 s. An event that
takes the page out of the error status first unmounts the offline screen, and its
countdown does not complete. A `markReady` is such an event. So is a poll restart of an
ungated cam. A poll restart of a cam whose health says `ok === false` ends in the error
status again. The offline screen then stays mounted, its countdown keeps running because
neither `autoSkipSec` nor the cam id changed, and it calls `advance` at 8 s.

## Model

| member | source | states |
|---|---|---|
| Kiosk.Select | bird-kiosk/app/page.tsx:52-56 | no cam exactly when the list is empty; otherwise the cam at `idx % length` |
| Kiosk.RoundRobinOffset | bird-kiosk/app/page.tsx:52-56 | for any index and any position p below n, fewer than n increments of the index bring the selection to p |
| Kiosk.RoundRobin | bird-kiosk/app/page.tsx:114-119 | over an unchanged list, each cam is shown within length-many advances, and the selection repeats with period length |
| Kiosk.GateDetail | bird-kiosk/app/page.tsx:158-163 | the detail of a gated cam is never empty: the health detail when non-empty, else "Stream is offline" |
| Kiosk.StatusBadgeLabel | bird-kiosk/app/page.tsx:271-272 | loading, ready and error map one-to-one onto "Loading", "Playing" and "Issue" |
| Kiosk.View | bird-kiosk/app/page.tsx:303-361 | the "no cams" screen iff no cam; the offline screen iff error, with a non-empty detail (the status detail, or the fallback sentence) and 8 s auto-skip; otherwise the iframe iff kind is "youtube", else the video |
| Kiosk.KioskPage.constructor | bird-kiosk/app/page.tsx:38-56 | the first render: no list, idx 0, status loading, nothing armed, nothing sent |
| Kiosk.KioskPage.CleanupPlayer | bird-kiosk/app/page.tsx:58-80 | both deadline slots and the hls.js slot are emptied; nothing else changes |
| Kiosk.KioskPage.MarkReady | bird-kiosk/app/page.tsx:82-94 | with no cam nothing changes; with a cam: status ready, empty detail, a `ready` event; no status guard, and idx and the deadlines are untouched |
| Kiosk.KioskPage.SkipNext | bird-kiosk/app/page.tsx:96-112 | with no cam nothing changes; with a cam: status error, the given detail, a `skip` event with it; idx and the deadlines are untouched, so it never advances |
| Kiosk.KioskPage.Advance | bird-kiosk/app/page.tsx:114-119 | idx grows by one, both deadlines and the hls.js slot are empty, status loading with empty detail; the displayed cam object changes iff the list has more than one cam |
| Kiosk.KioskPage.ListLoaded | bird-kiosk/app/page.tsx:122-130 | a fetched list replaces the list as a new snapshot; with a non-empty list the effects are due again |
| Kiosk.KioskPage.ListLoadFailed | bird-kiosk/app/page.tsx:131-137 | a failed first load stores an empty list; a failed later poll keeps the list |
| Kiosk.KioskPage.RunSessionEffect | bird-kiosk/app/page.tsx:146-196 | a gated cam: error with the gate detail, one `skip`, no `load`, no deadline; otherwise: loading, one `load`, a ready deadline at the ready timeout and a dwell deadline at `dwellSec ?? 90` seconds |
| Kiosk.KioskPage.RunHlsEffect | bird-kiosk/app/page.tsx:199-260 | only an hls cam with a mounted video is wired; without native HLS or hls.js it skips with "HLS not supported by this browser"; otherwise a play is pending, and hls.js is used only without native HLS |
| Kiosk.KioskPage.RunCamEffects | bird-kiosk/app/page.tsx:146-269 | the three effects in order for one cam: gate or `load` with both deadlines, the HLS outcome, and a 2 s ready check for a YouTube cam |
| Kiosk.KioskPage.StartSession | bird-kiosk/app/page.tsx:146-269 | after the cleanups, an idle loading page with nothing armed when there is no cam, else the effects of `RunCamEffects`; the invariant holds and the effects are no longer due |
| Kiosk.KioskPage.FireReadyTimer | bird-kiosk/app/page.tsx:174-176 | a ready deadline whose delay, as `setTimeout` applies it, has elapsed skips its cam with "Not ready within Ns" and stays in its slot |
| Kiosk.KioskPage.FireDwellTimer | bird-kiosk/app/page.tsx:188-193 | an expired dwell deadline skips its cam with "Dwell reached (Ns)" and stays in its slot |
| Kiosk.KioskPage.FireYouTubeCheck | bird-kiosk/app/page.tsx:263-269 | the YouTube check marks its cam ready whatever the status |
| Kiosk.KioskPage.VideoPlaying | bird-kiosk/app/page.tsx:205-207 | `playing` on a wired video marks its cam ready; on an unwired one it changes nothing |
| Kiosk.KioskPage.VideoError | bird-kiosk/app/page.tsx:208-210 | `error` on a wired video skips with "Video element error"; on an unwired one it changes nothing |
| Kiosk.KioskPage.HlsError | bird-kiosk/app/page.tsx:244-248 | a fatal hls.js error skips with "HLS fatal: type/details"; a non-fatal one changes nothing |
| Kiosk.KioskPage.PlaySettled | bird-kiosk/app/page.tsx:250-253 | a rejected `play()` skips the cam it was made for with "HLS play failed: …", even after a restart; a resolved one changes nothing |
| Kiosk.PollRearmsDeadlines | bird-kiosk/app/page.tsx:135-196 | a poll at 5 s re-arms the ready deadline at 20 s and the dwell deadline at 95 s, and sends a second `load` |
| Kiosk.GatedYouTubeCamBecomesReady | bird-kiosk/app/page.tsx:263-269 | a gated YouTube cam is in error after the session starts and ready 2 s later, with no deadline armed and the same cam shown |
| OfflineScreen.TickLeft | bird-kiosk/app/components/offline-screen.tsx:28 | a tick never yields a negative value: one less for a positive value, else 0 |
| OfflineScreen.LeftAfterClosedForm | bird-kiosk/app/components/offline-screen.tsx:25-32 | after k ≥ 1 ticks from a, the countdown is max(0, a − k) |
| OfflineScreen.LeftNonIncreasing | bird-kiosk/app/components/offline-screen.tsx:28 | from a non-negative start, the countdown never increases between resets |
| OfflineScreen.SkipsDuringClosedForm | bird-kiosk/app/components/offline-screen.tsx:34-36 | over k ticks `onSkipNow` fires at most once: exactly when a ≠ 0 and a ≤ k |
| OfflineScreen.DefaultCountdownSkipsOnce | bird-kiosk/app/components/offline-screen.tsx:15-36 | from the default 8, the skip happens at the 8th tick and never before |
| OfflineScreen.Title | bird-kiosk/app/components/offline-screen.tsx:38 | the cam's name, or "This stream" without a cam |
| OfflineScreen.KioskFallbackScreen | bird-kiosk/app/components/offline-screen.tsx:55-87 | the offline screen the kiosk renders always names its cam and shows a non-empty detail line, with an 8 s countdown |
| OfflineScreen.Countdown.constructor | bird-kiosk/app/components/offline-screen.tsx:23-36 | the countdown starts at `autoSkipSec`, asking at once when that is ≤ 0 |
| OfflineScreen.Countdown.Tick | bird-kiosk/app/components/offline-screen.tsx:25-36 | a tick saturates at 0 and asks for a skip exactly when it changed the value to ≤ 0 |
| OfflineScreen.Countdown.TickMany | bird-kiosk/app/components/offline-screen.tsx:25-36 | k ticks give the countdown and skip count of the closed form |
| OfflineScreen.Countdown.PropsChanged | bird-kiosk/app/components/offline-screen.tsx:25-32 | a new `autoSkipSec` or cam id resets the countdown to `autoSkipSec`; unchanged props change nothing |
| OfflineScreen.Countdown.SkipNowClicked | bird-kiosk/app/components/offline-screen.tsx:95 | "Skip now" calls `onSkipNow` whatever the countdown |
| CamsStore.DefaultCamFile | bird-kiosk/lib/cams.ts:8-14 | version 1, the current time, an empty `cams` array, and no other field |
| CamsStore.ReadCamsFile | bird-kiosk/lib/cams.ts:16-25 | the parsed file when its `cams` is truthy, else the default; the result always has a truthy `cams` |
| CamsStore.CamsArray | bird-kiosk/lib/cams.ts:31 | the `cams` array, or [] when `cams` is not an array |
| CamsStore.Normalised | bird-kiosk/lib/cams.ts:27-35 | exactly version (`version ?? 1`), a fresh `updatedAt` and `cams` as an array |
| CamsStore.NormalisedIdempotent | bird-kiosk/lib/cams.ts:27-35 | normalising twice equals normalising once with the later time |
| CamsStore.WriteThenRead | bird-kiosk/lib/cams.ts:16-35 | a written file reads back as exactly what was written |
| CamsStore.CachedRead | bird-kiosk/lib/cams.ts:40-51 | no file: cache at mtime 0 with the default; no cache or another mtime: re-read; same mtime: the cached data |
| CamsStore.CachedReadAfterWrite | bird-kiosk/lib/cams.ts:40-51 | after a write with a new mtime, the cached read returns the written file |
| CamsStore.CachedReadIgnoresContentAtSameMtime | bird-kiosk/lib/cams.ts:43-46 | at an unchanged mtime the cached data is returned whatever the file holds |
| CamsStore.Store.constructor | bird-kiosk/lib/cams.ts:38 | the cache starts empty |
| CamsStore.Store.ReadCached | bird-kiosk/lib/cams.ts:40-51 | returns and caches what `CachedRead` specifies |
| CamsStore.Store.Write | bird-kiosk/lib/cams.ts:27-35 | the file holds the normalised object at the new mtime |
| CamsRoute.TrimmedNonEmptyIff | bird-kiosk/app/api/cams/route.ts:98-101 | a string passes `s.trim()` iff it has a non-whitespace character |
| CamsRoute.ValidateCamIff | bird-kiosk/app/api/cams/route.ts:96-106 | accepted iff an object with non-blank string id, name, kind and url, `dwellSec` absent, null or a number, `attribution` absent, null or a string |
| CamsRoute.FindIdFrom | bird-kiosk/app/api/cams/route.ts:150 | the first entry with the id, with no null before it; not found when none and no null; throws at a null reached first |
| CamsRoute.FindIdFromFirst | bird-kiosk/app/api/cams/route.ts:150 | the search stops at the first entry carrying the id |
| CamsRoute.Upsert | bird-kiosk/app/api/cams/route.ts:150-152 | the first entry with the id is replaced in place and all others kept; without one the cam is appended |
| CamsRoute.UpsertThenFind | bird-kiosk/app/api/cams/route.ts:150-152 | after an upsert the id is found at the replaced position or at the end, holding the posted cam |
| CamsRoute.UpsertIdempotent | bird-kiosk/app/api/cams/route.ts:150-152 | posting the same cam twice leaves the list as posting it once |
| CamsRoute.RemoveId | bird-kiosk/app/api/cams/route.ts:172-177 | no kept entry has the id, each came from the list, the length is unchanged iff no entry had the id, and a list without it is returned as is |
| CamsRoute.RemoveIdConcat | bird-kiosk/app/api/cams/route.ts:174 | removal distributes over concatenation, so the kept entries stay in order |
| CamsRoute.DeleteAfterUpsert | bird-kiosk/app/api/cams/route.ts:150-174 | deleting an id after upserting a cam with it equals deleting it from the original list |
| CamsRoute.HealthFor | bird-kiosk/app/api/cams/route.ts:58-94 | no host: "Invalid URL", not cached; a fresh entry (younger than 30000 ms) is returned unchanged; else DNS failure gives not ok with "DNS lookup failed for host: …", otherwise ok is the probe's, with "Reachability failed: " on failure; every probe result is cached under `kind:host` |
| CamsRoute.SameKeySharesHealth | bird-kiosk/app/api/cams/route.ts:64-92 | after a probe for one cam, a later check of a cam with the same kind and host that starts within 30 s of the probe finishing returns the same health record, `checkedAt` included, and leaves the cache unchanged |
| CamsRoute.SpreadFields | bird-kiosk/app/api/cams/route.ts:121 | spreading an object copies its fields |
| CamsRoute.Annotate | bird-kiosk/app/api/cams/route.ts:121 | the annotated cam keeps every field of the cam and adds `health` |
| CamsRoute.AnnotateAll | bird-kiosk/app/api/cams/route.ts:119-122 | one annotated entry per cam, in order, each with `health` and the cam's other fields |
| CamsRoute.CheckPostBody | bird-kiosk/app/api/cams/route.ts:132-145 | "Bad JSON" iff the body does not parse; accepted iff `body.cam` exists and passes `validateCam`; an accepted cam has a non-blank string id |
| CamsRoute.NextFile | bird-kiosk/app/api/cams/route.ts:154-158 | the object handed to the write carries the new `cams` |
| CamsRoute.WriteKeepsVersion | bird-kiosk/app/api/cams/route.ts:154-158 | the stored file keeps the current version, or 1 when it had none |
| CamsRoute.CamsApi.constructor | bird-kiosk/app/api/cams/route.ts:17 | the health cache starts empty |
| CamsRoute.CamsApi.CheckCamHealth | bird-kiosk/app/api/cams/route.ts:58-94 | returns the health and leaves the cache that `HealthFor` specifies |
| CamsRoute.CamsApi.Get | bird-kiosk/app/api/cams/route.ts:109-126 | `health=0` returns the file as read; otherwise the file with `cams` replaced by the annotated list (a non-array `cams` as []); a null entry gives a 500 |
| CamsRoute.CamsApi.AnnotateCams | bird-kiosk/app/api/cams/route.ts:119-122 | the loop over the cams gives the annotated entries and the health cache that `AnnotateAll` specifies |
| CamsRoute.CamsApi.Post | bird-kiosk/app/api/cams/route.ts:129-164 | bad JSON or no valid cam: 400 with the handler's text and no read or write; otherwise the upserted list is written with the kept version and the reply counts it |
| CamsRoute.CamsApi.Delete | bird-kiosk/app/api/cams/route.ts:167-189 | missing id: 400 and nothing read; nothing removed: 404 and no write; otherwise the filtered list is written and counted |
| Metrics.CounterKeyInjective | bird-kiosk/lib/metrics.ts:18 | distinct event names increment distinct counters |
| Metrics.CounterKeyTotal | bird-kiosk/lib/metrics.ts:16-19 | only the event "telemetry" shares the total's counter |
| Metrics.CountersAfter | bird-kiosk/lib/metrics.ts:15-19 | the total rises by one, `${event}_total` rises by one from its value or 0, every other counter is unchanged; "telemetry" raises the total by two |
| Metrics.ErrorsAfter | bird-kiosk/lib/metrics.ts:21-24 | non-error events leave the list; an error goes to the front and the list is cut to 50 |
| Metrics.CountersCount | bird-kiosk/lib/metrics.ts:15-19 | over any run of events the total counts all events plus each "telemetry" event again, and each other counter counts its own event |
| Metrics.NewestErrors | bird-kiosk/lib/metrics.ts:21-22 | only error events of the run are collected |
| Metrics.ErrorsAreNewestFirst | bird-kiosk/lib/metrics.ts:21-24 | after any run, the list is the newest errors first, then the earlier list, cut to 50 |
| Metrics.Metrics.constructor | bird-kiosk/lib/metrics.ts:5-13 | exactly the five counters, all 0, and no errors |
| Metrics.Metrics.RecordTelemetry | bird-kiosk/lib/metrics.ts:15-25 | the counters and the list change as `CountersAfter` and `ErrorsAfter` say; at most 50 errors, all of them `error` events |
| Metrics.Metrics.GetMetrics | bird-kiosk/lib/metrics.ts:27-32 | returns the counters and the list unchanged |
| Admin.ElementErrors | bird-kiosk/app/admin/page.tsx:29-44 | a non-object element yields only "cams[i] must be an object"; an element yields at most five messages |
| Admin.CamFileErrors | bird-kiosk/app/admin/page.tsx:23-48 | a null or non-object root yields exactly "Root must be an object" |
| Admin.ElementErrorsEmptyIff | bird-kiosk/app/admin/page.tsx:30-43 | an element has no message iff it is an object with non-empty string id, name, kind and url and a null, absent or numeric `dwellSec` |
| Admin.ErrorsUpToEmptyIff | bird-kiosk/app/admin/page.tsx:28-45 | the first n elements have no message iff each is well formed |
| Admin.CamFileErrorsEmptyIff | bird-kiosk/app/admin/page.tsx:23-48 | a file has no message iff it is an object whose `cams` is an array of well-formed elements |
| Admin.MissingCamsReportedOnce | bird-kiosk/app/admin/page.tsx:26-28 | an object without an array `cams` yields exactly "Missing or invalid 'cams' array" |
| Admin.CheckElement | bird-kiosk/app/admin/page.tsx:29-44 | the messages of one element in the order id, name, kind, url, dwellSec |
| Admin.ValidateCamFile | bird-kiosk/app/admin/page.tsx:23-48 | the loop's messages are those of `CamFileErrors`, and there are none iff the file is well formed |
| Admin.ValidationErrors | bird-kiosk/app/admin/page.tsx:64-68 | blank text has no messages; unparsable text has exactly "Invalid JSON: …" |
| Admin.IsValidIff | bird-kiosk/app/admin/page.tsx:70 | valid iff the text is not blank, parses, and is a well-formed file |
| Admin.BadgeText | bird-kiosk/app/admin/page.tsx:144-153 | idle, loading, saving, ok and error map one-to-one onto "Ready", "Loading", "Saving", "OK" and "Error" |
| Admin.ShownErrors | bird-kiosk/app/admin/page.tsx:217-220 | the first min(12, n) messages |
| Admin.HiddenCount | bird-kiosk/app/admin/page.tsx:221-225 | listed plus counted is every message; something is counted iff there are more than 12 |
| Admin.MoreLine | bird-kiosk/app/admin/page.tsx:221-225 | "…and N more" with N = count − 12 iff more than 12 messages |
| Admin.TruncationAccountsForAll | bird-kiosk/app/admin/page.tsx:217-225 | the listed and the counted messages are all of them in order, and N can be read back from the line |
| Admin.WhitespaceIdAcceptedOnlyByAdmin | bird-kiosk/app/admin/page.tsx:34-35 | a cam with id " " passes the admin check and fails `validateCam` |
| Admin.RouteValidIsAdminWellFormed | bird-kiosk/app/admin/page.tsx:34-43 | every cam `validateCam` accepts passes the admin element check |
| Admin.AdminPage.constructor | bird-kiosk/app/admin/page.tsx:50-61 | empty text, idle, no message, the token from storage |
| Admin.AdminPage.Save | bird-kiosk/app/admin/page.tsx:94-127 | gates in order: blank token, unparsable text, validation errors, each an error with its message and nothing posted; else saving and the whole parsed file posted |
| Admin.AdminPage.SaveReplied | bird-kiosk/app/admin/page.tsx:129-141 | a 2xx reply: ok with the saved message; another status: "Save failed (N): text"; a thrown error: "Save error: …" |
| Admin.AdminPage.Load | bird-kiosk/app/admin/page.tsx:72-74 | loading, "Loading…" |
| Admin.AdminPage.LoadReplied | bird-kiosk/app/admin/page.tsx:75-91 | a 2xx JSON reply fills the text with the file, ok, "Loaded."; otherwise the text is kept, with "Load failed (N): text" or "Load error: …" |
| Admin.AdminSaveBodyRejected | bird-kiosk/app/admin/page.tsx:126 | a valid file without a `cam` field, posted as the body, is refused by the POST handler's body check |
| Js.TrimEmptyIff | bird-kiosk/app/api/cams/route.ts:98-101 | `trim()` yields "" iff the string is all whitespace |
| Js.NatToStringRoundTrip | bird-kiosk/app/admin/page.tsx:223 | the printed digits of n have value n |
| Js.IntToStringInjective | bird-kiosk/app/page.tsx:175 | distinct integers print differently |
| Js.TimerDelay | bird-kiosk/app/page.tsx:174-193 | a delay in [0, 2^31) is used as given; a small negative one counts as 0 |
| Types.ParseKind | bird-kiosk/lib/types.ts:1 | the three kind names parse, and a parsed kind prints back to its name |

## Left out

- Browser media: hls.js, `<video>`, `<iframe>`, `canPlayType` and `play()` are not modelled. Their outcomes are input steps: `VideoPlaying`, `VideoError`, `HlsError` and `PlaySettled`. The flags for native HLS and hls.js support are constructor parameters.
- Pausing and unloading the `<video>` in `cleanupPlayer` is not tied to `CleanupPlayer`. The pause and unload reject a pending `play()`, and that rejection makes the old session call `skipNext` with "HLS play failed: …". The model leaves this to a separate failing `PlaySettled` step for that pending play.
- Timers: `setTimeout`/`setInterval` become deadline slots on an integer clock. A deadline fires only when the caller takes its step. Interval periods, the 5 s poll cadence and the unused skip-pause constant are not modelled.
- Listener detachment: an unmounted `<video>` is modelled as delivering no more events.
- Network I/O: `fetch`, `postTelemetry` and the poll's response are not modelled. Telemetry is the list `sent`, and fetch failures are steps.
- Cams API probes: the DNS lookup and `httpCheck` are inputs in `ProbeEnv`, including the texts `httpCheck` builds. So are `new URL(..).hostname` and the clock readings.
- Foreign parsers: `JSON.parse` and `JSON.stringify` are parameters. A written file is taken to parse back to the written value.
- Promise.all: GET checks health one cam after another. Concurrent checks of two cams with the same key may both probe.
- CamsRoute.CamsApi.Get: with a null entry the reply is a 500 and the model leaves the health cache unchanged. The other entries' probes, which still run, are not modelled.
- Write failures: `fs.mkdirSync`/`fs.writeFileSync` throwing is not modelled. `Store.Write` always succeeds, and the file system's new mtime is a parameter.
- Timestamps: ISO timestamps are opaque strings or functions of the integer clock.
- Environment overrides: `NEXT_PUBLIC_DEFAULT_DWELL_SEC` and `NEXT_PUBLIC_READY_TIMEOUT_SEC` are constructor parameters. `Number()` of a non-numeric string is not modelled.
- Numbers: JSON numbers are integers. Fractional or NaN values of `dwellSec` are not modelled.
- Kiosk input typing: the kiosk takes the list as typed `Cam` records. The JSON-level shape checks live in the API and admin modules.
- String spreading: strings are spread by Dafny characters, not UTF-16 code units.
- localStorage: only the admin token is modelled. It is read by the constructor and written by `Save`.
- The admin request header `x-admin-token` is not modelled. No modelled handler reads it.
- Metrics.Metrics.GetMetrics: returns copies. The source hands out its live record and array.
- Telemetry endpoint: its presence check on `event` and `ts` is the precondition of `RecordTelemetry`. The rest of that route, and the metrics route, are HTTP wrappers and are not modelled.
- Display-only text is not modelled: the overlay card (name, "Cycling every Ns", attribution) and the offline screen's labels.
- `error.tsx`, `not-found.tsx` and `layout.tsx` are not part of this model.
